/** The order transactions over the ledger and the billing tables. What a transaction wrote
    before it fails is rolled back. */
module OrderStore {
  import opened Tables
  import opened LedgerSpec
  import opened OrderBilling
  import opened LedgerStore
  import Billing

  class OrderRepository {
    const ledger: Ledger
    const billing: Billing.BillingService

    ghost function Contents(): Shop
      reads ledger, billing
    {
      Shop(ledger.Contents(), billing.Contents())
    }

    constructor (ledger: Ledger, billing: Billing.BillingService)
      ensures this.ledger == ledger && this.billing == billing
    {
      this.ledger, this.billing := ledger, billing;
    }

    /** The order's billing columns and, if its customer pays per sale, its charge. */
    method InsertBilling(o: nat, row: Billing.BilledOrder) returns (ok: bool)
      modifies billing
      ensures var r := Billing.PlaceOrder(old(billing.Contents()), o, row);
        ok == r.Success? && billing.Contents() == Billing.OrElse(r, old(billing.Contents()))
    {
      var before := billing.orders;
      if o in before || exists x <- before :: before[x].seller == row.seller && before[x].number == row.number {
        return false;
      }
      billing.orders := before[o := row.(canceled := false)];
      ok := true;
      if row.perSale {
        var derived := Billing.Derive(0, row.total);
        ok := billing.Write(Billing.Charge(o, Billing.Recoded(row.number), row.total, 0, derived.0, derived.1,
                                           Some(row.createdOn), None));
        if !ok {
          billing.orders := before;
        }
      }
    }

    method Create(seller: string, lines: seq<Line>, subtotal: int, discount: int, total: int, h: Head)
      returns (r: Result<(nat, seq<Oversold>)>)
      modifies ledger, billing
      ensures match OrderBilling.Create(old(Contents()), seller, lines, subtotal, discount, total, h)
        case Failure(e) => r == Failure(e) && Contents() == old(Contents())
        case Success(p) => r == Success((p.order, p.oversold)) && Contents() == p.shop
    {
      var before := ledger.Save();
      r := ledger.Create(seller, lines, subtotal, discount, total);
      if r.Failure? {
        return;
      }
      var written := InsertBilling(r.value.0, BilledRow(seller, total, h));
      if !written {
        ledger.Rollback(before);
        r := Failure(BadRequest);
      }
    }

    method UpdateStatus(actor: Actor, o: nat, status: OrderStatus) returns (r: Result<Order>)
      requires Mirrors(Contents())
      modifies ledger, billing
      ensures match OrderBilling.UpdateStatus(old(Contents()), actor, o, status)
        case Failure(e) => r == Failure(e) && Contents() == old(Contents())
        case Success(w) => Contents() == w && o in w.ledger.orders && r == Success(w.ledger.orders[o])
    {
      r := ledger.UpdateStatus(actor, o, status);
      if r.Failure? {
        return;
      }
      billing.orders := billing.orders[o := billing.orders[o].(canceled := status == OrderCanceled)];
      if status == OrderCanceled {
        billing.charges := map id <- billing.charges ::
          if billing.charges[id].order == o
          then billing.charges[id].(status := Billing.Void, payment := Billing.VoidPayment)
          else billing.charges[id];
      }
    }

    /** The order row takes its charges with it. */
    method Delete(actor: Actor, o: nat) returns (r: Result<Order>)
      requires Mirrors(Contents())
      modifies ledger, billing
      ensures match OrderBilling.Delete(old(Contents()), actor, o)
        case Failure(e) => r == Failure(e) && Contents() == old(Contents())
        case Success(w) => Contents() == w && o in old(ledger.orders) && r == Success(old(ledger.orders)[o])
    {
      r := ledger.Delete(actor, o);
      if r.Failure? {
        return;
      }
      billing.orders := billing.orders - {o};
      billing.charges := map id <- billing.charges | billing.charges[id].order != o :: billing.charges[id];
    }
  }
}
