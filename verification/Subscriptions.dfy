/** Local plans and subscription rows against the payment provider: the reconcile loop. */
module Subscriptions {
  import opened Tables

  const FREE := "free"

  predicate PaidPlan(plan: string) { plan == "pro" || plan == "enterprise" }

  datatype Row = Row(
    account: string, plan: string, status: string, providerId: string, customer: Option<string>,
    start: int, end: int, cancelAtEnd: bool, canceledAt: Option<int>)

  /** A subscription as the provider lists it. */
  datatype Listed = Listed(
    account: string, providerId: string, customer: Option<string>, status: string, plan: string,
    start: int, end: int, cancelAtEnd: bool)
  {
    predicate Paying() { status == "active" || status == "trialing" }

    predicate KeepsAccess() { Paying() || status == "past_due" }
  }

  datatype World = World(plans: map<string, string>, rows: seq<Row>)

  // ---- Rows ----

  predicate Has(rows: seq<Row>, id: string) { exists r <- rows :: r.providerId == id }

  /** The row a lookup by provider id finds. */
  function First(rows: seq<Row>, id: string): (i: nat)
    requires Has(rows, id)
    ensures i < |rows| && rows[i].providerId == id
    ensures forall k | 0 <= k < i :: rows[k].providerId != id
  {
    if rows[0].providerId == id then 0 else 1 + First(rows[1..], id)
  }

  /** What the lookup by provider id returns. */
  function Lookup(rows: seq<Row>, id: string): Option<nat> {
    if Has(rows, id) then Some(First(rows, id)) else None
  }

  predicate OnePerId(rows: seq<Row>) {
    forall i, j | 0 <= i < j < |rows| :: rows[i].providerId != rows[j].providerId
  }

  function Apply(r: Row, m: Listed): Row {
    r.(plan := m.plan, status := m.status, customer := m.customer, start := m.start, end := m.end,
       cancelAtEnd := m.cancelAtEnd)
  }

  function NewRow(m: Listed): Row {
    Row(m.account, m.plan, m.status, m.providerId, m.customer, m.start, m.end, m.cancelAtEnd, None)
  }

  predicate InRange(rows: seq<Row>, found: Option<nat>) { found.Some? ==> found.value < |rows| }

  /** The write of an upsert whose lookup returned `found`. */
  function UpsertAt(rows: seq<Row>, m: Listed, found: Option<nat>): seq<Row>
    requires InRange(rows, found)
  {
    if found.Some? then rows[found.value := Apply(rows[found.value], m)] else rows + [NewRow(m)]
  }

  function Upsert(rows: seq<Row>, m: Listed): seq<Row> { UpsertAt(rows, m, Lookup(rows, m.providerId)) }

  // ---- reconcile ----

  datatype Sync = Sync(world: World, created: nat, updated: nat, paid: set<string>)

  function SyncOne(s: Sync, m: Listed): Sync {
    var missing := !Has(s.world.rows, m.providerId);
    var plans := if m.Paying() then s.world.plans[m.account := m.plan] else s.world.plans;
    Sync(World(plans, Upsert(s.world.rows, m)),
         if missing then s.created + 1 else s.created,
         if missing then s.updated else s.updated + 1,
         if m.KeepsAccess() then s.paid + {m.account} else s.paid)
  }

  function SyncAll(w: World, list: seq<Listed>): Sync {
    if list == [] then Sync(w, 0, 0, {}) else SyncOne(SyncAll(w, list[..|list| - 1]), list[|list| - 1])
  }

  lemma SyncAllNext(w: World, list: seq<Listed>, i: nat)
    requires i < |list|
    ensures SyncAll(w, list[..i + 1]) == SyncOne(SyncAll(w, list[..i]), list[i])
  {
    assert list[..i + 1][..i] == list[..i];
  }

  function Stale(plans: map<string, string>, paid: set<string>): set<string> {
    set a <- plans | PaidPlan(plans[a]) && a !in paid
  }

  function Downgrade(plans: map<string, string>, stale: set<string>): map<string, string> {
    map a <- plans :: if a in stale then FREE else plans[a]
  }

  datatype Report = Report(created: nat, updated: nat, keptPaid: nat, downgraded: nat)

  function Reconcile(w: World, list: seq<Listed>): (World, Report) {
    var s := SyncAll(w, list);
    var stale := Stale(s.world.plans, s.paid);
    (World(Downgrade(s.world.plans, stale), s.world.rows), Report(s.created, s.updated, |s.paid|, |stale|))
  }

  // ---- What one pass leaves ----

  /** The plan the last paying entry of an account names. */
  function LastPaying(list: seq<Listed>, a: string): Option<string> {
    if list == [] then None
    else
      var m := list[|list| - 1];
      if m.status in {"active", "trialing"} && m.account == a then Some(m.plan)
      else LastPaying(list[..|list| - 1], a)
  }

  predicate KeepsAccess(list: seq<Listed>, a: string) {
    exists m <- list :: m.status in {"active", "trialing", "past_due"} && m.account == a
  }

  function LastEntry(list: seq<Listed>, id: string): Option<Listed> {
    if list == [] then None
    else
      var m := list[|list| - 1];
      if m.providerId == id then Some(m) else LastEntry(list[..|list| - 1], id)
  }

  /** The plan an account must have after a pass: a paying entry decides, access without
      one keeps the plan, and a paid plan nobody vouches for is dropped. */
  function DuePlan(plan: string, list: seq<Listed>, a: string): string {
    var last := LastPaying(list, a);
    if last.Some? then last.value
    else if plan in {"pro", "enterprise"} && !KeepsAccess(list, a) then "free"
    else plan
  }

  predicate AccountsExist(w: World, list: seq<Listed>) { forall m <- list :: m.account in w.plans }

  lemma {:induction false} SyncAllPlans(w: World, list: seq<Listed>, a: string)
    requires AccountsExist(w, list)
    ensures var s := SyncAll(w, list);
      && s.world.plans.Keys == w.plans.Keys
      && (a in w.plans ==> s.world.plans[a] == LastPaying(list, a).GetOr(w.plans[a]))
      && (a in s.paid <==> KeepsAccess(list, a))
      && (LastPaying(list, a).Some? ==> a in s.paid)
      && s.created + s.updated == |list|
  {
    if list != [] {
      var n := |list| - 1;
      assert list == list[..n] + [list[n]];
      assert list[n] in list;
      SyncAllPlans(w, list[..n], a);
    }
  }

  /** After one pass, from any local state, every plan is what the list makes due. */
  lemma ReconciledPlans(w: World, list: seq<Listed>)
    requires AccountsExist(w, list)
    ensures var after := Reconcile(w, list).0;
      && after.plans.Keys == w.plans.Keys
      && forall a <- w.plans :: after.plans[a] == DuePlan(w.plans[a], list, a)
  {
    var after := Reconcile(w, list).0;
    SyncAllPlans(w, list, "");
    forall a <- w.plans ensures after.plans[a] == DuePlan(w.plans[a], list, a) {
      SyncAllPlans(w, list, a);
    }
  }

  /** Every listed id has a row, and that row shows the id's last entry. */
  predicate Settled(rows: seq<Row>, list: seq<Listed>) {
    forall m <- list :: Has(rows, m.providerId) && LastEntry(list, m.providerId).Some? &&
      Shows(rows[First(rows, m.providerId)], LastEntry(list, m.providerId).value)
  }

  predicate Shows(r: Row, m: Listed) {
    && r.plan == m.plan && r.status == m.status && r.customer == m.customer
    && r.start == m.start && r.end == m.end && r.cancelAtEnd == m.cancelAtEnd
  }

  /** An upsert leaves the lookups of all other ids alone. */
  lemma UpsertLookup(rows: seq<Row>, m: Listed, id: string)
    ensures var after := Upsert(rows, m);
      && Has(after, m.providerId) && Shows(after[First(after, m.providerId)], m)
      && (Has(rows, id) ==> Has(after, id) && First(after, id) == First(rows, id))
      && (Has(rows, id) && id != m.providerId ==> after[First(after, id)] == rows[First(rows, id)])
  {
    var after := Upsert(rows, m);
    if Has(rows, id) {
      assert after[First(rows, id)].providerId == id && after[First(rows, id)] in after;
    }
    if Has(rows, m.providerId) {
      assert after[First(rows, m.providerId)] in after;
    } else {
      assert after[|rows|] in after;
    }
  }

  lemma {:induction false} SyncAllSettles(w: World, list: seq<Listed>)
    ensures Settled(SyncAll(w, list).world.rows, list)
  {
    if list != [] {
      var n := |list| - 1;
      var last := list[n];
      SyncAllSettles(w, list[..n]);
      var before, after := SyncAll(w, list[..n]).world.rows, SyncAll(w, list).world.rows;
      forall m <- list
        ensures Has(after, m.providerId) && LastEntry(list, m.providerId).Some? &&
          Shows(after[First(after, m.providerId)], LastEntry(list, m.providerId).value)
      {
        UpsertLookup(before, last, m.providerId);
        if m.providerId != last.providerId {
          assert m in list[..n];
        }
      }
    }
  }

  /** A pass leaves the row of every unlisted id as it was. */
  lemma {:induction false} UnlistedRowsStay(w: World, list: seq<Listed>, id: string)
    requires Has(w.rows, id) && forall m <- list :: m.providerId != id
    ensures var after := SyncAll(w, list).world.rows;
      Has(after, id) && First(after, id) == First(w.rows, id) && after[First(after, id)] == w.rows[First(w.rows, id)]
  {
    if list != [] {
      var n := |list| - 1;
      assert list[n] in list;
      UnlistedRowsStay(w, list[..n], id);
      UpsertLookup(SyncAll(w, list[..n]).world.rows, list[n], id);
    }
  }

  /** Columns an upsert of an existing row never writes. */
  predicate SameIdentity(r: Row, t: Row) {
    r.account == t.account && r.providerId == t.providerId && r.canceledAt == t.canceledAt
  }

  /** A second pass rewrites only rows it looks up, and creates none. */
  lemma {:induction false} ResyncTouches(w: World, list: seq<Listed>)
    requires forall m <- list :: Has(w.rows, m.providerId)
    ensures var s := SyncAll(w, list);
      && |s.world.rows| == |w.rows| && s.created == 0
      && (forall i | 0 <= i < |w.rows| :: SameIdentity(s.world.rows[i], w.rows[i]))
      && (forall i | 0 <= i < |w.rows| ::
            s.world.rows[i] == w.rows[i] || (exists m <- list :: First(w.rows, m.providerId) == i))
  {
    if list != [] {
      var n := |list| - 1;
      var last := list[n];
      ResyncTouches(w, list[..n]);
      assert list == list[..n] + [last] && last in list;
      var before := SyncAll(w, list[..n]).world.rows;
      SameLookup(w.rows, before, last.providerId);
    }
  }

  lemma SameLookup(a: seq<Row>, b: seq<Row>, id: string)
    requires |a| == |b| && forall i | 0 <= i < |a| :: a[i].providerId == b[i].providerId
    ensures Has(a, id) <==> Has(b, id)
    ensures Has(a, id) ==> First(a, id) == First(b, id)
  {
    if Has(a, id) {
      assert b[First(a, id)] in b;
    }
    if Has(b, id) {
      assert a[First(b, id)] in a;
    }
  }

  lemma ShownRowsAgree(r: Row, t: Row, m: Listed)
    requires SameIdentity(r, t) && Shows(r, m) && Shows(t, m)
    ensures r == t
  {
  }

  lemma ResyncKeepsRows(w: World, list: seq<Listed>)
    requires Settled(w.rows, list)
    ensures SyncAll(w, list).world.rows == w.rows && SyncAll(w, list).created == 0
  {
    ResyncTouches(w, list);
    SyncAllSettles(w, list);
    var after := SyncAll(w, list).world.rows;
    forall m <- list ensures after[First(w.rows, m.providerId)] == w.rows[First(w.rows, m.providerId)] {
      SameLookup(w.rows, after, m.providerId);
      var i := First(w.rows, m.providerId);
      ShownRowsAgree(after[i], w.rows[i], LastEntry(list, m.providerId).value);
    }
  }

  /** Where every plan is already what the list makes due, a pass finds nothing stale. */
  lemma DuePlansAreNotStale(w: World, list: seq<Listed>)
    requires AccountsExist(w, list) && forall a <- w.plans :: DuePlan(w.plans[a], list, a) == w.plans[a]
    ensures var s := SyncAll(w, list); s.world.plans == w.plans && Stale(s.world.plans, s.paid) == {}
  {
    var s := SyncAll(w, list);
    SyncAllPlans(w, list, "");
    forall a <- w.plans ensures s.world.plans[a] == w.plans[a] && !(PaidPlan(w.plans[a]) && a !in s.paid) {
      SyncAllPlans(w, list, a);
    }
  }

  /** Idempotence, from any local state: a second pass over the same list changes no plan
      and no row, and reports nothing created and nothing downgraded. */
  lemma ReconcileTwice(w: World, list: seq<Listed>)
    requires AccountsExist(w, list)
    ensures var once := Reconcile(w, list).0;
      var report := Reconcile(once, list).1;
      && Reconcile(once, list).0 == once
      && report.created == 0 && report.updated == |list| && report.downgraded == 0
  {
    var once := Reconcile(w, list).0;
    ReconciledPlans(w, list);
    SyncAllSettles(w, list);
    assert once.rows == SyncAll(w, list).world.rows;
    assert forall a <- once.plans :: DuePlan(once.plans[a], list, a) == once.plans[a];
    DuePlansAreNotStale(once, list);
    ResyncKeepsRows(once, list);
    SyncAllPlans(once, list, "");
  }

  lemma {:induction false} SyncAllOnePerId(w: World, list: seq<Listed>)
    requires OnePerId(w.rows)
    ensures OnePerId(SyncAll(w, list).world.rows)
  {
    if list != [] {
      SyncAllOnePerId(w, list[..|list| - 1]);
    }
  }
}
