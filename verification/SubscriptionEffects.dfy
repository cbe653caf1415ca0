/** What each webhook event and each reconcile pass writes, column by column. */
module SubscriptionEffects {
  import opened Tables
  import opened Subscriptions
  import opened Webhooks

  /** The row a lookup finds: the first of its provider id. */
  predicate FirstOf(rows: seq<Row>, id: string, i: int) {
    0 <= i < |rows| && rows[i].providerId == id && forall k | 0 <= k < i :: rows[k].providerId != id
  }

  /** Every row of the id is rewritten, all others stay, in place. */
  ghost predicate RowsBecome(a: seq<Row>, b: seq<Row>, id: string, f: Row -> Row) {
    |a| == |b| && forall i | 0 <= i < |a| :: b[i] == if a[i].providerId == id then f(a[i]) else a[i]
  }

  lemma {:induction false} StatusTable(other: string)
    requires other !in {"active", "trialing", "past_due", "canceled"}
    requires other !in {"unpaid", "paused", "incomplete", "incomplete_expired"}
    ensures MapStatus("active") == "active" && MapStatus("trialing") == "trialing"
    ensures MapStatus("past_due") == "past_due" && MapStatus("unpaid") == "past_due"
    ensures MapStatus("incomplete") == "past_due"
    ensures MapStatus("canceled") == "canceled" && MapStatus("incomplete_expired") == "canceled"
    ensures MapStatus("paused") == "paused"
    ensures MapStatus(other) == "active"
  {
    var s := "incomplete_expired";
    assert |s| == 18 && |"incomplete"| == 10 && |"unpaid"| == 6;
  }

  /** A completed checkout sets the account's plan, `pro` unless another is named. */
  lemma {:induction false} CheckoutEffects(w: World, e: Event, now: int)
    requires e.CheckoutCompleted?
    ensures var plan := if e.plan.Some? && e.plan.value != "" then e.plan.value else "pro";
      Handle(w, e, now) ==
        World(if e.account.Some? && e.account.value != "" then w.plans[e.account.value := plan] else w.plans, w.rows)
  {
  }

  /** A deletion takes the account to `free` and stamps every row of the subscription. */
  lemma {:induction false} DeletedEffects(w: World, e: Event, now: int)
    requires e.SubscriptionDeleted?
    ensures var t := Handle(w, e, now);
      if e.account.Some? && e.account.value != "" then
        && t.plans == w.plans[e.account.value := "free"]
        && RowsBecome(w.rows, t.rows, e.providerId, (r: Row) =>
             Row(r.account, r.plan, "canceled", r.providerId, r.customer, r.start, r.end, r.cancelAtEnd, Some(now)))
      else t == w
  {
  }

  /** A paid invoice makes the rows of its subscription active for the period it covers, a
      failed one makes them past due; neither touches a plan. */
  lemma {:induction false} InvoiceEffects(w: World, e: Event, now: int)
    requires e.PaymentSucceeded? || e.PaymentFailed?
    ensures var t := Handle(w, e, now);
      && t.plans == w.plans
      && (e.subscription.None? || e.subscription.value == "" ==> t == w)
      && (e.subscription.Some? && e.subscription.value != "" ==>
            && (e.PaymentSucceeded? ==> RowsBecome(w.rows, t.rows, e.subscription.value, (r: Row) =>
                  Row(r.account, r.plan, "active", r.providerId, r.customer, e.start, e.end, r.cancelAtEnd,
                      r.canceledAt)))
            && (e.PaymentFailed? ==> RowsBecome(w.rows, t.rows, e.subscription.value, (r: Row) =>
                  Row(r.account, r.plan, "past_due", r.providerId, r.customer, r.start, r.end, r.cancelAtEnd,
                      r.canceledAt))))
  {
  }

  lemma {:induction false} UnhandledEffects(w: World, e: Event, now: int)
    requires e.Unhandled? || (e.SubscriptionChanged? && (e.account.None? || e.account.value == ""))
    ensures Handle(w, e, now) == w
  {
  }

  /** A change of a known subscription writes status, flag and, if it names one, period of
      its row, and the plan if it is active or trialing. */
  lemma {:induction false} ChangedEffects(w: World, e: Event, now: int, i: int)
    requires e.SubscriptionChanged? && e.account.Some? && e.account.value != "" && FirstOf(w.rows, e.providerId, i)
    ensures var t, r := Handle(w, e, now), w.rows[i];
      var plan := if e.plan.Some? && e.plan.value != "" then e.plan.value else "pro";
      var (start, end) := if e.period.Some? then e.period.value else (r.start, r.end);
      && t.rows == w.rows[i := Row(r.account, r.plan, MapStatus(e.status), r.providerId, r.customer, start, end,
                                   e.cancelAtEnd, r.canceledAt)]
      && t.plans == if e.status in {"active", "trialing"} then w.plans[e.account.value := plan] else w.plans
  {
    assert w.rows[i] in w.rows;
  }

  /** A change of an unknown one inserts a row with the event's columns, for thirty days if it
      names no period, and sets the plan whatever its status. */
  lemma {:induction false} CreatedEffects(w: World, e: Event, now: int)
    requires e.SubscriptionChanged? && e.account.Some? && e.account.value != ""
    requires forall r <- w.rows :: r.providerId != e.providerId
    ensures var t, a := Handle(w, e, now), e.account.value;
      var plan := if e.plan.Some? && e.plan.value != "" then e.plan.value else "pro";
      var (start, end) := if e.period.Some? then e.period.value else (now, now + 2_592_000);
      && t.rows == w.rows + [Row(a, plan, MapStatus(e.status), e.providerId, Some(e.customer), start, end, false, None)]
      && t.plans == w.plans[a := plan]
  {
  }

  /** One delivery: a marked event is skipped; otherwise its log row is written or retried,
      the handler acts up to where it throws, and the row ends as marked or as failed. */
  lemma {:induction false} DeliverEffects(s: Store, d: Delivery)
    ensures var t, id := Deliver(s, d), d.event.id;
      if id in s.events && s.events[id].processed then t == s
      else
        var logged := if id in s.events then s.events[id] else EventRow(false, 0, false);
        var retries := if id in s.events then logged.retries + 1 else 0;
        var done := Handle(s.world, d.event, d.now);
        && t.events == s.events[id := if d.fault == NoFault then EventRow(true, retries, logged.failed)
                                      else EventRow(logged.processed, retries, true)]
        && (d.fault == NoFault || d.fault == AtMark ==> t.world == done)
        && (d.fault == BeforePlan ==> t.world == World(s.world.plans, done.rows))
        && (d.fault == AtStart ==> t.world == s.world)
  {
  }

  // ---- Reconcile ----

  /** An entry of the list: its known row gets the listed columns, or a row is inserted. */
  lemma {:induction false} UpsertEffects(rows: seq<Row>, m: Listed, i: int)
    ensures FirstOf(rows, m.providerId, i) ==>
      Upsert(rows, m) == rows[i := Row(rows[i].account, m.plan, m.status, rows[i].providerId, m.customer,
                                       m.start, m.end, m.cancelAtEnd, rows[i].canceledAt)]
    ensures (forall r <- rows :: r.providerId != m.providerId) ==>
      Upsert(rows, m) == rows + [Row(m.account, m.plan, m.status, m.providerId, m.customer,
                                     m.start, m.end, m.cancelAtEnd, None)]
  {
    if FirstOf(rows, m.providerId, i) {
      assert rows[i] in rows;
    }
  }

  function NewIds(rows: seq<Row>, list: seq<Listed>): set<string> {
    set m <- list | (forall r <- rows :: r.providerId != m.providerId) :: m.providerId
  }

  function KeptAccounts(list: seq<Listed>): set<string> {
    set m <- list | m.status in {"active", "trialing", "past_due"} :: m.account
  }

  lemma {:induction false} SyncAllHas(w: World, list: seq<Listed>, id: string)
    ensures Has(SyncAll(w, list).world.rows, id) <==> Has(w.rows, id) || exists m <- list :: m.providerId == id
  {
    if list != [] {
      var n := |list| - 1;
      SyncAllHas(w, list[..n], id);
      assert list == list[..n] + [list[n]];
      UpsertHas(SyncAll(w, list[..n]).world.rows, list[n], id);
    }
  }

  lemma {:induction false} UpsertHas(rows: seq<Row>, m: Listed, id: string)
    ensures Has(Upsert(rows, m), id) <==> Has(rows, id) || id == m.providerId
  {
    UpsertLookup(rows, m, id);
    var after := Upsert(rows, m);
    if Has(after, id) && id != m.providerId {
      var i := First(after, id);
      assert i < |rows| ==> rows[i] in rows;
    }
  }

  lemma {:induction false} NewIdsLast(rows: seq<Row>, list: seq<Listed>)
    requires list != []
    ensures var n := |list| - 1;
      var id := list[n].providerId;
      NewIds(rows, list) == NewIds(rows, list[..n]) + (if Has(rows, id) then {} else {id})
  {
    assert list == list[..|list| - 1] + [list[|list| - 1]];
  }

  lemma {:induction false} SyncAllPaid(w: World, list: seq<Listed>)
    ensures SyncAll(w, list).paid == KeptAccounts(list)
  {
    if list != [] {
      var n := |list| - 1;
      SyncAllPaid(w, list[..n]);
      assert list == list[..n] + [list[n]];
      assert KeptAccounts(list) == KeptAccounts(list[..n]) + KeptAccounts([list[n]]);
    }
  }

  lemma {:induction false} OneMore(a: set<string>, b: set<string>, id: string, isNew: bool)
    requires b == a + (if isNew then {id} else {})
    ensures |b| == |a| + (if isNew && id !in a then 1 else 0)
  {
    if !isNew || id in a {
      assert b == a;
    }
  }

  /** The last entry inserts a row exactly if its id had none and was not listed before. */
  lemma {:induction false} LastInserts(w: World, list: seq<Listed>)
    requires list != []
    ensures var n := |list| - 1;
      var id := list[n].providerId;
      Has(SyncAll(w, list[..n]).world.rows, id) <==> Has(w.rows, id) || id in NewIds(w.rows, list[..n])
  {
    var n := |list| - 1;
    SyncAllHas(w, list[..n], list[n].providerId);
  }

  lemma {:induction false} SyncAllTallies(w: World, list: seq<Listed>)
    ensures SyncAll(w, list).created == |NewIds(w.rows, list)|
    ensures SyncAll(w, list).created + SyncAll(w, list).updated == |list|
  {
    if list != [] {
      var n := |list| - 1;
      var id := list[n].providerId;
      SyncAllTallies(w, list[..n]);
      NewIdsLast(w.rows, list);
      LastInserts(w, list);
      OneMore(NewIds(w.rows, list[..n]), NewIds(w.rows, list), id, !Has(w.rows, id));
    }
  }

  /** The report of any pass: as created, each listed id that had no row, once; as kept, each
      account with an entry that gives access; as downgraded, each account on a paid plan
      that has none. */
  lemma {:induction false} ReportCounts(w: World, list: seq<Listed>)
    requires AccountsExist(w, list)
    ensures var report := Reconcile(w, list).1;
      && report.created == |NewIds(w.rows, list)| && report.created + report.updated == |list|
      && report.keptPaid == |KeptAccounts(list)|
      && report.downgraded == |set a <- w.plans | w.plans[a] in {"pro", "enterprise"} && a !in KeptAccounts(list)|
  {
    var s := SyncAll(w, list);
    SyncAllTallies(w, list);
    SyncAllPaid(w, list);
    SyncAllPlans(w, list, "");
    forall a | a in w.plans && a !in KeptAccounts(list) ensures s.world.plans[a] == w.plans[a] {
      SyncAllPlans(w, list, a);
    }
    assert Stale(s.world.plans, s.paid) ==
           set a <- w.plans | w.plans[a] in {"pro", "enterprise"} && a !in KeptAccounts(list);
  }
}
