/** Webhook deliveries: what an event writes, and the log that keeps it from acting twice. */
module Webhooks {
  import opened Tables
  import opened Subscriptions

  // ---- Webhook events ----

  datatype Event =
    | CheckoutCompleted(id: string, account: Option<string>, plan: Option<string>)
    | SubscriptionChanged(id: string, account: Option<string>, plan: Option<string>, providerId: string,
                          status: string, customer: string, period: Option<(int, int)>, cancelAtEnd: bool)
    | SubscriptionDeleted(id: string, account: Option<string>, providerId: string)
    | PaymentSucceeded(id: string, subscription: Option<string>, start: int, end: int)
    | PaymentFailed(id: string, subscription: Option<string>)
    | Unhandled(id: string)

  /** Metadata counts when it is there and not empty. */
  predicate Given(s: Option<string>) { s.Some? && s.value != "" }

  function PlanOf(s: Option<string>): string { if Given(s) then s.value else "pro" }

  function MapStatus(status: string): string {
    if status in {"trialing", "past_due", "canceled", "paused"} then status
    else if status == "unpaid" || status == "incomplete" then "past_due"
    else if status == "incomplete_expired" then "canceled"
    else "active"
  }

  const MONTH_SECONDS := 30 * 24 * 60 * 60

  /** updateMany by provider id. */
  function Rewrite(rows: seq<Row>, id: string, f: Row -> Row): seq<Row> {
    seq(|rows|, i requires 0 <= i < |rows| => if rows[i].providerId == id then f(rows[i]) else rows[i])
  }

  function Cancel(now: int): Row -> Row { (r: Row) => r.(status := "canceled", canceledAt := Some(now)) }

  function Activate(start: int, end: int): Row -> Row { (r: Row) => r.(status := "active", start := start, end := end) }

  function PastDue(): Row -> Row { (r: Row) => r.(status := "past_due") }

  function SetPlan(w: World, a: string, plan: string): World { w.(plans := w.plans[a := plan]) }

  /** The row write of a subscription event whose lookup returned `found`. */
  function ChangeRows(rows: seq<Row>, e: Event, now: int, found: Option<nat>): seq<Row>
    requires e.SubscriptionChanged? && Given(e.account) && InRange(rows, found)
  {
    if found.Some? then
      var r := rows[found.value].(status := MapStatus(e.status), cancelAtEnd := e.cancelAtEnd);
      rows[found.value := if e.period.Some? then r.(start := e.period.value.0, end := e.period.value.1) else r]
    else
      var (start, end) := e.period.GetOr((now, now + MONTH_SECONDS));
      rows + [Row(e.account.value, PlanOf(e.plan), MapStatus(e.status), e.providerId, Some(e.customer),
                  start, end, false, None)]
  }

  function ChangeSubscription(w: World, e: Event, now: int): World
    requires e.SubscriptionChanged? && Given(e.account)
  {
    var found := Lookup(w.rows, e.providerId);
    var w1 := w.(rows := ChangeRows(w.rows, e, now, found));
    if found.None? || e.status == "active" || e.status == "trialing" then SetPlan(w1, e.account.value, PlanOf(e.plan))
    else w1
  }

  function Handle(w: World, e: Event, now: int): World {
    match e
    case CheckoutCompleted(_, account, plan) => if Given(account) then SetPlan(w, account.value, PlanOf(plan)) else w
    case SubscriptionChanged(_, account, _, _, _, _, _, _) =>
      if Given(account) then ChangeSubscription(w, e, now) else w
    case SubscriptionDeleted(_, account, id) =>
      if Given(account) then SetPlan(w.(rows := Rewrite(w.rows, id, Cancel(now))), account.value, FREE) else w
    case PaymentSucceeded(_, sub, start, end) =>
      if Given(sub) then w.(rows := Rewrite(w.rows, sub.value, Activate(start, end))) else w
    case PaymentFailed(_, sub) => if Given(sub) then w.(rows := Rewrite(w.rows, sub.value, PastDue())) else w
    case Unhandled(_) => w
  }

  lemma UpdateOnePerId(rows: seq<Row>, i: nat, r: Row)
    requires OnePerId(rows) && i < |rows| && r.providerId == rows[i].providerId
    ensures OnePerId(rows[i := r])
  {
  }

  lemma RewriteOnePerId(rows: seq<Row>, id: string, f: Row -> Row)
    requires OnePerId(rows) && forall r :: f(r).providerId == r.providerId
    ensures OnePerId(Rewrite(rows, id, f))
  {
    var after := Rewrite(rows, id, f);
    assert forall i | 0 <= i < |rows| :: after[i].providerId == rows[i].providerId;
  }

  lemma ChangeRowsOnePerId(rows: seq<Row>, e: Event, now: int)
    requires OnePerId(rows) && e.SubscriptionChanged? && Given(e.account)
    ensures OnePerId(ChangeRows(rows, e, now, Lookup(rows, e.providerId)))
  {
    if Has(rows, e.providerId) {
      var i := First(rows, e.providerId);
      UpdateOnePerId(rows, i, ChangeRows(rows, e, now, Some(i))[i]);
    }
  }

  lemma HandleOnePerId(w: World, e: Event, now: int)
    requires OnePerId(w.rows)
    ensures OnePerId(Handle(w, e, now).rows)
  {
    match e
    case CheckoutCompleted(_, _, _) =>
    case SubscriptionChanged(_, account, _, _, _, _, _, _) =>
      if Given(account) {
        ChangeRowsOnePerId(w.rows, e, now);
      }
    case SubscriptionDeleted(_, _, id) => RewriteOnePerId(w.rows, id, Cancel(now));
    case PaymentSucceeded(_, sub, start, end) => RewriteOnePerId(w.rows, sub.GetOr(""), Activate(start, end));
    case PaymentFailed(_, sub) => RewriteOnePerId(w.rows, sub.GetOr(""), PastDue());
    case Unhandled(_) =>
  }

  datatype EventRow = EventRow(processed: bool, retries: nat, failed: bool)

  datatype Store = Store(world: World, events: map<string, EventRow>)

  /** Where a delivery throws, if it does: before the handler writes, between its row write
      and its plan write, or when the event is to be marked. */
  datatype Fault = NoFault | AtStart | BeforePlan | AtMark

  datatype Delivery = Delivery(event: Event, now: int, fault: Fault)

  predicate Processed(s: Store, id: string) { id in s.events && s.events[id].processed }

  /** What the handler has written when it returns or throws. */
  function Attempt(w: World, d: Delivery): World {
    match d.fault
    case AtStart => w
    case BeforePlan => w.(rows := Handle(w, d.event, d.now).rows)
    case _ => Handle(w, d.event, d.now)
  }

  function Deliver(s: Store, d: Delivery): Store {
    var id := d.event.id;
    if Processed(s, id) then s
    else
      var row :=
        if id in s.events then s.events[id].(retries := s.events[id].retries + 1) else EventRow(false, 0, false);
      Store(Attempt(s.world, d),
            s.events[id := if d.fault == NoFault then row.(processed := true) else row.(failed := true)])
  }

  datatype Step = Webhook(delivery: Delivery) | Reconciled(list: seq<Listed>)

  function Next(s: Store, step: Step): Store {
    match step
    case Webhook(d) => Deliver(s, d)
    case Reconciled(list) => s.(world := Reconcile(s.world, list).0)
  }

  function Run(s: Store, steps: seq<Step>): Store {
    if steps == [] then s else Next(Run(s, steps[..|steps| - 1]), steps[|steps| - 1])
  }

  // ---- Which deliveries count ----

  predicate Succeeded(steps: seq<Step>, id: string) {
    exists step <- steps :: step.Webhook? && step.delivery.fault == NoFault && step.delivery.event.id == id
  }

  /** The steps that write: reconciles, and deliveries up to the first that succeeds, those
      that threw before writing left out. */
  function Effective(s: Store, steps: seq<Step>): seq<Step> {
    if steps == [] then []
    else
      var front, last := steps[..|steps| - 1], steps[|steps| - 1];
      var counts := last.Webhook? ==>
        && last.delivery.fault != AtStart
        && !Processed(s, last.delivery.event.id) && !Succeeded(front, last.delivery.event.id);
      if counts then Effective(s, front) + [last] else Effective(s, front)
  }

  function Act(w: World, step: Step): World {
    match step
    case Webhook(d) => Attempt(w, d)
    case Reconciled(list) => Reconcile(w, list).0
  }

  function Replay(w: World, steps: seq<Step>): World {
    if steps == [] then w else Act(Replay(w, steps[..|steps| - 1]), steps[|steps| - 1])
  }

  lemma SucceededAppend(steps: seq<Step>, last: Step, id: string)
    ensures Succeeded(steps + [last], id) <==>
      Succeeded(steps, id) || (last.Webhook? && last.delivery.fault == NoFault && last.delivery.event.id == id)
  {
    assert forall x :: x in steps + [last] <==> x in steps || x == last;
  }

  lemma {:induction false} ProcessedIffSucceeded(s: Store, steps: seq<Step>, id: string)
    ensures Processed(Run(s, steps), id) <==> Processed(s, id) || Succeeded(steps, id)
  {
    if steps != [] {
      var n := |steps| - 1;
      ProcessedIffSucceeded(s, steps[..n], id);
      assert steps == steps[..n] + [steps[n]];
      SucceededAppend(steps[..n], steps[n], id);
    }
  }

  /** For any deliveries with repeats and failures, served one at a time with reconciles in
      between, plans and rows are those of the effective steps alone: after its first
      success an event acts no more. */
  lemma {:induction false} DeliveredOnce(s: Store, steps: seq<Step>)
    ensures Run(s, steps).world == Replay(s.world, Effective(s, steps))
  {
    if steps != [] {
      var n := |steps| - 1;
      var front, last := steps[..n], steps[n];
      DeliveredOnce(s, front);
      if last.Webhook? {
        ProcessedIffSucceeded(s, front, last.delivery.event.id);
      }
      var kept := Effective(s, front);
      assert (kept + [last])[..|kept|] == kept;
    }
  }

  predicate ActsFor(steps: seq<Step>, id: string) {
    exists step <- steps :: step.Webhook? && step.delivery.event.id == id
  }

  predicate ActsOnce(steps: seq<Step>) {
    forall i, j | 0 <= i < j < |steps| && steps[i].Webhook? && steps[j].Webhook? ::
      steps[i].delivery.event.id != steps[j].delivery.event.id
  }

  /** A delivery of the event threw after it had written. */
  predicate Dirtied(steps: seq<Step>, id: string) {
    exists step <- steps ::
      step.Webhook? && step.delivery.fault in {BeforePlan, AtMark} && step.delivery.event.id == id
  }

  /** Some delivery gets to its write after another of its event threw past its own, and
      before any succeeded. */
  predicate Retried(s: Store, steps: seq<Step>) {
    steps != [] &&
    var front, last := steps[..|steps| - 1], steps[|steps| - 1];
    || Retried(s, front)
    || (last.Webhook? &&
        var id := last.delivery.event.id;
        && last.delivery.fault != AtStart && Dirtied(front, id)
        && !Processed(s, id) && !Succeeded(front, id))
  }

  lemma {:induction false} EffectiveActs(s: Store, steps: seq<Step>, id: string)
    requires !Processed(s, id) && !Succeeded(steps, id)
    ensures ActsFor(Effective(s, steps), id) <==> Dirtied(steps, id)
  {
    if steps != [] {
      var n := |steps| - 1;
      assert steps == steps[..n] + [steps[n]];
      SucceededAppend(steps[..n], steps[n], id);
      EffectiveActs(s, steps[..n], id);
      var front, after := Effective(s, steps[..n]), Effective(s, steps);
      assert forall x :: x in front + [steps[n]] <==> x in front || x == steps[n];
    }
  }

  lemma {:induction false} ActsOnceAppend(steps: seq<Step>, last: Step)
    ensures ActsOnce(steps + [last]) <==>
      ActsOnce(steps) && (last.Webhook? ==> !ActsFor(steps, last.delivery.event.id))
  {
    var all, n := steps + [last], |steps|;
    assert forall i | 0 <= i < n :: all[i] == steps[i];
    if last.Webhook? && ActsFor(steps, last.delivery.event.id) {
      var i :| 0 <= i < n && steps[i].Webhook? && steps[i].delivery.event.id == last.delivery.event.id;
      assert all[i].delivery.event.id == all[n].delivery.event.id;
    } else {
      forall i | 0 <= i < n && steps[i].Webhook? && last.Webhook?
        ensures steps[i].delivery.event.id != last.delivery.event.id
      {
        assert steps[i] in steps;
      }
    }
  }

  /** Exactly: each event acts at most once if and only if no delivery is retried that threw
      after it had written. */
  lemma {:induction false} ActsOnceIff(s: Store, steps: seq<Step>)
    ensures ActsOnce(Effective(s, steps)) <==> !Retried(s, steps)
  {
    if steps != [] {
      var n := |steps| - 1;
      var front, last := steps[..n], steps[n];
      ActsOnceIff(s, front);
      ActsOnceAppend(Effective(s, front), last);
      if last.Webhook? && !Processed(s, last.delivery.event.id) && !Succeeded(front, last.delivery.event.id) {
        EffectiveActs(s, front, last.delivery.event.id);
      }
    }
  }

  /** Where a handler that throws has written nothing, each event acts at most once: at its
      first successful delivery. */
  lemma {:induction false} CleanFaultsActOnce(s: Store, steps: seq<Step>)
    requires forall step <- steps :: step.Webhook? ==> step.delivery.fault in {NoFault, AtStart}
    ensures ActsOnce(Effective(s, steps)) && !Retried(s, steps)
  {
    if steps != [] {
      CleanFaultsActOnce(s, steps[..|steps| - 1]);
    }
    ActsOnceIff(s, steps);
  }

  /** The run that acts twice, from any state: a delivery of an unmarked event throws between
      its row write and its plan write, or when it is to be marked, and is delivered again. */
  lemma {:induction false} RetriedActsTwice(s: Store, steps: seq<Step>, thrown: Delivery, again: Delivery)
    requires thrown.fault in {BeforePlan, AtMark} && again.event == thrown.event && again.fault == NoFault
    requires !Processed(s, thrown.event.id) && !Succeeded(steps, thrown.event.id)
    ensures var run := steps + [Webhook(thrown)] + [Webhook(again)];
      && Retried(s, run) && !ActsOnce(Effective(s, run))
      && Run(s, run).world == Handle(Attempt(Run(s, steps).world, thrown), again.event, again.now)
  {
    var id, once := thrown.event.id, steps + [Webhook(thrown)];
    var run := once + [Webhook(again)];
    assert once[..|steps|] == steps && run[..|once|] == once;
    SucceededAppend(steps, Webhook(thrown), id);
    ProcessedIffSucceeded(s, steps, id);
    ProcessedIffSucceeded(s, once, id);
    assert once[|steps|] in once && Dirtied(once, id);
    ActsOnceIff(s, run);
  }

  /** Webhooks and reconciles served one at a time give no provider id a second row. */
  lemma {:induction false} RunOnePerId(s: Store, steps: seq<Step>)
    requires OnePerId(s.world.rows)
    ensures OnePerId(Run(s, steps).world.rows)
  {
    if steps != [] {
      var n := |steps| - 1;
      RunOnePerId(s, steps[..n]);
      var before := Run(s, steps[..n]);
      match steps[n]
      case Webhook(d) => HandleOnePerId(before.world, d.event, d.now);
      case Reconciled(list) => SyncAllOnePerId(before.world, list);
    }
  }

  // ---- Acting twice on one event ----

  lemma RewriteTwice(rows: seq<Row>, id: string, f: Row -> Row)
    requires forall r :: f(f(r)) == f(r) && f(r).providerId == r.providerId
    ensures Rewrite(Rewrite(rows, id, f), id, f) == Rewrite(rows, id, f)
  {
  }

  lemma ChangeKnownTwice(w: World, e: Event, t1: int, t2: int)
    requires e.SubscriptionChanged? && Given(e.account) && Has(w.rows, e.providerId)
    ensures var once := ChangeSubscription(w, e, t1); ChangeSubscription(once, e, t2) == once
  {
    var once := ChangeSubscription(w, e, t1);
    SameLookup(w.rows, once.rows, e.providerId);
    var i := First(w.rows, e.providerId);
    assert once.rows[i := once.rows[i]] == once.rows;
  }

  lemma ChangeUnknownTwice(w: World, e: Event, t1: int, t2: int)
    requires e.SubscriptionChanged? && Given(e.account) && !Has(w.rows, e.providerId)
    ensures var once := ChangeSubscription(w, e, t1); ChangeSubscription(once, e, t2) == once <==> !e.cancelAtEnd
  {
    var once, n := ChangeSubscription(w, e, t1), |w.rows|;
    assert once.rows[n] in once.rows;
    assert First(once.rows, e.providerId) == n;
    assert ChangeSubscription(once, e, t2).rows[n].cancelAtEnd == e.cancelAtEnd;
    if !e.cancelAtEnd {
      assert once.rows[n := once.rows[n]] == once.rows;
    }
  }

  lemma DeleteTwice(rows: seq<Row>, id: string, t1: int, t2: int)
    ensures var once := Rewrite(rows, id, Cancel(t1));
      Rewrite(once, id, Cancel(t2)) == once <==> t1 == t2 || !Has(rows, id)
  {
    var once := Rewrite(rows, id, Cancel(t1));
    if t1 == t2 {
      RewriteTwice(rows, id, Cancel(t1));
    } else if Has(rows, id) {
      var i := First(rows, id);
      assert Rewrite(once, id, Cancel(t2))[i].canceledAt == Some(t2) != once[i].canceledAt;
    } else {
      forall i | 0 <= i < |rows| ensures rows[i].providerId != id {
        assert rows[i] in rows;
      }
    }
  }

  /** The event creates a row and asks for cancellation at period end. */
  predicate CreatesCanceling(w: World, e: Event) {
    e.SubscriptionChanged? && Given(e.account) && !Has(w.rows, e.providerId) && e.cancelAtEnd
  }

  /** The event cancels a row, stamping the moment. */
  predicate StampsCancel(w: World, e: Event) {
    e.SubscriptionDeleted? && Given(e.account) && Has(w.rows, e.providerId)
  }

  /** Why the processed mark matters: acting on an event again, at any later moment, changes
      nothing except that creating a row drops the event's cancel-at-period-end flag, which
      the second pass sets, and that a deletion is stamped with the moment it is handled. */
  lemma HandleTwiceIff(w: World, e: Event, t1: int, t2: int)
    ensures var once := Handle(w, e, t1);
      Handle(once, e, t2) == once <==> !CreatesCanceling(w, e) && !(StampsCancel(w, e) && t1 != t2)
  {
    match e
    case SubscriptionChanged(_, account, _, id, _, _, _, _) =>
      if Given(account) {
        if Has(w.rows, id) {
          ChangeKnownTwice(w, e, t1, t2);
        } else {
          ChangeUnknownTwice(w, e, t1, t2);
        }
      }
    case SubscriptionDeleted(_, _, id) => DeleteTwice(w.rows, id, t1, t2);
    case PaymentSucceeded(_, sub, start, end) => RewriteTwice(w.rows, sub.GetOr(""), Activate(start, end));
    case PaymentFailed(_, sub) => RewriteTwice(w.rows, sub.GetOr(""), PastDue());
    case _ =>
  }

  /** A new subscription that ends with its period is stored without the flag. */
  lemma FlagLostOnCreation()
    ensures var e := SubscriptionChanged("evt_1", Some("ana"), Some("pro"), "sub_1", "active", "cus_1",
                                         Some((0, 10)), true);
      var once := Handle(World(map["ana" := FREE], []), e, 0);
      && |once.rows| == 1 && !once.rows[0].cancelAtEnd
      && Handle(once, e, 0).rows == [once.rows[0].(cancelAtEnd := true)]
  {
    var e := SubscriptionChanged("evt_1", Some("ana"), Some("pro"), "sub_1", "active", "cus_1", Some((0, 10)), true);
    var once := Handle(World(map["ana" := FREE], []), e, 0);
    assert once.rows[0] in once.rows && First(once.rows, "sub_1") == 0;
  }

  /** A deletion handled at 5 and again at 9 ends with the later cancel date. */
  lemma CancelDateMoves(r: Row)
    requires r.providerId == "sub_1"
    ensures var e := SubscriptionDeleted("evt_2", Some("ana"), "sub_1");
      var once := Handle(World(map["ana" := "pro"], [r]), e, 5);
      && once.rows == [r.(status := "canceled", canceledAt := Some(5))]
      && Handle(once, e, 9).rows == [r.(status := "canceled", canceledAt := Some(9))]
  {
  }
}
