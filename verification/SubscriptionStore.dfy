/** The reconcile and webhook services over mutable tables. */
module SubscriptionStore {
  import opened Tables
  import opened Subscriptions
  import opened Webhooks

  class SubscriptionService {
    var plans: map<string, string>
    var rows: seq<Row>
    var events: map<string, EventRow>

    ghost function Contents(): Store
      reads this
    {
      Store(World(plans, rows), events)
    }

    method FindByProviderId(id: string) returns (found: bool, i: nat)
      ensures found <==> Has(rows, id)
      ensures found ==> i == First(rows, id)
    {
      found, i := false, 0;
      while i < |rows|
        invariant i <= |rows| && !found
        invariant forall k | 0 <= k < i :: rows[k].providerId != id
      {
        if rows[i].providerId == id {
          assert rows[i] in rows;
          return true, i;
        }
        i := i + 1;
      }
    }

    method UpsertSubscriptionFromStripe(m: Listed) returns (created: bool)
      modifies this`rows
      ensures rows == Upsert(old(rows), m) && created == !Has(old(rows), m.providerId)
    {
      var found, i := FindByProviderId(m.providerId);
      created := !found;
      if found {
        var row := rows[i].(plan := m.plan, status := m.status, customer := m.customer);
        rows := rows[i := row.(start := m.start, end := m.end, cancelAtEnd := m.cancelAtEnd)];
      } else {
        rows := rows +
          [Row(m.account, m.plan, m.status, m.providerId, m.customer, m.start, m.end, m.cancelAtEnd, None)];
      }
    }

    method UpdateAccountPlan(a: string, plan: string)
      modifies this`plans
      ensures plans == old(plans)[a := plan]
    {
      plans := plans[a := plan];
    }

    method FindPaidAccountIds() returns (ids: set<string>)
      ensures ids == set a <- plans | PaidPlan(plans[a])
    {
      ids := set a <- plans | plans[a] == "pro" || plans[a] == "enterprise";
    }

    /** Drops every locally paid account the list does not vouch for. */
    method DowngradeStale(paidAccounts: set<string>) returns (downgraded: nat)
      modifies this`plans
      ensures plans == Downgrade(old(plans), Stale(old(plans), paidAccounts))
      ensures downgraded == |Stale(old(plans), paidAccounts)|
    {
      var localPaid := FindPaidAccountIds();
      ghost var opening := plans;
      ghost var done: set<string> := {};
      downgraded := 0;
      while localPaid != {}
        invariant done !! localPaid && forall a <- Stale(opening, paidAccounts) :: a in done || a in localPaid
        invariant forall a <- localPaid :: a in opening && PaidPlan(opening[a])
        invariant done <= Stale(opening, paidAccounts)
        invariant plans == Downgrade(opening, done) && downgraded == |done|
        decreases localPaid
      {
        var a :| a in localPaid;
        localPaid := localPaid - {a};
        if a !in paidAccounts {
          DowngradeOne(opening, done, a);
          UpdateAccountPlan(a, FREE);
          downgraded := downgraded + 1;
          done := done + {a};
        }
      }
      assert done == Stale(opening, paidAccounts);
    }

    lemma DowngradeOne(opening: map<string, string>, done: set<string>, a: string)
      requires a in opening
      ensures Downgrade(opening, done)[a := FREE] == Downgrade(opening, done + {a})
    {
    }

    method Reconcile(subscriptions: seq<Listed>) returns (report: Report)
      modifies this`plans, this`rows
      ensures (World(plans, rows), report) == Subscriptions.Reconcile(old(Contents()).world, subscriptions)
    {
      var created, updated: nat := 0, 0;
      var paidAccounts: set<string> := {};
      for i := 0 to |subscriptions|
        invariant Sync(World(plans, rows), created, updated, paidAccounts) ==
                  SyncAll(old(Contents()).world, subscriptions[..i])
      {
        var sub := subscriptions[i];
        SyncAllNext(old(Contents()).world, subscriptions, i);
        var isNew := UpsertSubscriptionFromStripe(sub);
        if isNew {
          created := created + 1;
        } else {
          updated := updated + 1;
        }
        if sub.status == "active" || sub.status == "trialing" {
          UpdateAccountPlan(sub.account, sub.plan);
          paidAccounts := paidAccounts + {sub.account};
        } else if sub.status == "past_due" {
          paidAccounts := paidAccounts + {sub.account};
        }
      }
      assert subscriptions[..|subscriptions|] == subscriptions;
      var downgraded := DowngradeStale(paidAccounts);
      report := Report(created, updated, |paidAccounts|, downgraded);
    }

    method UpdateByProviderId(id: string, f: Row -> Row)
      modifies this`rows
      ensures rows == Rewrite(old(rows), id, f)
    {
      for i := 0 to |rows|
        invariant |rows| == |old(rows)|
        invariant forall k | 0 <= k < i :: rows[k] == Rewrite(old(rows), id, f)[k]
        invariant forall k | i <= k < |rows| :: rows[k] == old(rows)[k]
      {
        if rows[i].providerId == id {
          rows := rows[i := f(rows[i])];
        }
      }
    }

    /** Writes the row; says whether the plan is to be set. */
    method WriteSubscription(e: Event, now: int) returns (setsPlan: bool)
      requires e.SubscriptionChanged? && Given(e.account)
      modifies this`rows
      ensures rows == ChangeRows(old(rows), e, now, Lookup(old(rows), e.providerId))
      ensures setsPlan <==> !Has(old(rows), e.providerId) || e.status == "active" || e.status == "trialing"
    {
      var mappedStatus := MapStatus(e.status);
      var found, i := FindByProviderId(e.providerId);
      if found {
        var row := rows[i].(status := mappedStatus, cancelAtEnd := e.cancelAtEnd);
        if e.period.Some? {
          row := row.(start := e.period.value.0, end := e.period.value.1);
        }
        rows := rows[i := row];
      } else {
        var period := e.period.GetOr((now, now + MONTH_SECONDS));
        rows := rows +
          [Row(e.account.value, PlanOf(e.plan), mappedStatus, e.providerId, Some(e.customer),
               period.0, period.1, false, None)];
      }
      setsPlan := !found || e.status == "active" || e.status == "trialing";
    }

    /** The row write of one event, and the plan write it asks for. */
    method WriteRows(e: Event, now: int) returns (account: string, plan: string, setsPlan: bool)
      modifies this`rows
      ensures var after := Handle(old(Contents()).world, e, now);
        && rows == after.rows
        && after.plans == if setsPlan then plans[account := plan] else plans
    {
      account, plan, setsPlan := "", FREE, false;
      match e
      case CheckoutCompleted(_, a, p) =>
        if Given(a) {
          account, plan, setsPlan := a.value, PlanOf(p), true;
        }
      case SubscriptionChanged(_, a, p, _, _, _, _, _) =>
        if Given(a) {
          account, plan := a.value, PlanOf(p);
          setsPlan := WriteSubscription(e, now);
        }
      case SubscriptionDeleted(_, a, id) =>
        if Given(a) {
          UpdateByProviderId(id, Cancel(now));
          account, plan, setsPlan := a.value, FREE, true;
        }
      case PaymentSucceeded(_, sub, start, end) =>
        if Given(sub) {
          UpdateByProviderId(sub.value, Activate(start, end));
        }
      case PaymentFailed(_, sub) =>
        if Given(sub) {
          UpdateByProviderId(sub.value, PastDue());
        }
      case Unhandled(_) =>
    }

    /** Runs the handler up to where it throws, if it does. */
    method HandleStripeEvent(d: Delivery) returns (ok: bool)
      modifies this`plans, this`rows
      ensures World(plans, rows) == Attempt(old(Contents()).world, d)
      ensures ok <==> d.fault != AtStart && d.fault != BeforePlan
    {
      ok := false;
      if d.fault == AtStart {
        return;
      }
      var account, plan, setsPlan := WriteRows(d.event, d.now);
      if d.fault == BeforePlan {
        return;
      }
      if setsPlan {
        UpdateAccountPlan(account, plan);
      }
      ok := true;
    }

    method ProcessStripeWebhook(d: Delivery) returns (ok: bool, skipped: bool)
      modifies this
      ensures Contents() == Deliver(old(Contents()), d)
      ensures skipped <==> Processed(old(Contents()), d.event.id)
      ensures ok <==> skipped || d.fault == NoFault
    {
      var id := d.event.id;
      ok, skipped := true, id in events && events[id].processed;
      if skipped {
        return;
      }
      if id in events {
        events := events[id := events[id].(retries := events[id].retries + 1)];
      } else {
        events := events[id := EventRow(false, 0, false)];
      }
      ok := HandleStripeEvent(d);
      if ok && d.fault != AtMark {
        events := events[id := events[id].(processed := true)];
      } else {
        events := events[id := events[id].(failed := true)];
        ok := false;
      }
    }
  }
}
