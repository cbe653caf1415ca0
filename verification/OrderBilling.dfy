/** Orders together with their charges: one transaction writes both, or neither. */
module OrderBilling {
  import opened Seqs
  import opened Tables
  import opened LedgerSpec
  import opened LedgerSound
  import Billing

  datatype Shop = Shop(ledger: State, books: Billing.Books)

  /** What an order brings for billing: its number, whether its customer pays per sale, and
      the day of the sale. */
  datatype Head = Head(number: string, perSale: bool, createdOn: int)

  function BilledRow(seller: string, total: int, h: Head): Billing.BilledOrder {
    Billing.BilledOrder(seller, h.number, total, false, h.perSale, h.createdOn)
  }

  function CallerOf(actor: Actor, today: int): Billing.Caller { Billing.Caller(actor.seller, actor.admin, today) }

  // ---- Transactions ----

  datatype Placed = Placed(shop: Shop, order: nat, oversold: seq<Oversold>)

  function Create(w: Shop, seller: string, lines: seq<Line>, subtotal: int, discount: int, total: int, h: Head)
    : Result<Placed>
  {
    match LedgerSpec.Create(w.ledger, seller, lines, subtotal, discount, total)
    case Failure(e) => Failure(e)
    case Success(c) =>
      match Billing.PlaceOrder(w.books, c.order, BilledRow(seller, total, h))
      case Failure(e) => Failure(e)
      case Success(books) => Success(Placed(Shop(c.state, books), c.order, c.oversold))
  }

  function Place(w: Shop, seller: string, drafts: seq<Draft>, h: Head): Result<Placed> {
    var lines := PriceAll(drafts);
    Create(w, seller, lines, ValueOf(drafts), DiscountAll(lines), ValueOf(drafts) - DiscountAll(lines), h)
  }

  /** A public order has no charge before a sync writes one. */
  function CreatePublic(w: Shop, store: string, lines: seq<Line>, h: Head): Result<Shop> {
    match CatalogOrder(w.ledger, store, lines)
    case Failure(e) => Failure(e)
    case Success(s) =>
      match Billing.PlaceRow(w.books, w.ledger.nextOrder, BilledRow(store, Sum(lines, NetTotal()), h))
      case Failure(e) => Failure(e)
      case Success(books) => Success(Shop(s, books))
  }

  function AddItem(w: Shop, actor: Actor, o: nat, l: Line): Result<Shop> {
    match LedgerSpec.AddItem(w.ledger, actor, o, l)
    case Failure(e) => Failure(e)
    case Success(s) => Success(Shop(s, Billing.OrElse(Billing.Retotal(w.books, o, s.orders[o].total), w.books)))
  }

  /** Cancelling an order voids its charges; other moves leave them alone. */
  function UpdateStatus(w: Shop, actor: Actor, o: nat, status: OrderStatus): Result<Shop> {
    match LedgerSpec.UpdateStatus(w.ledger, actor, o, status)
    case Failure(e) => Failure(e)
    case Success(s) =>
      var r := Billing.SetOrderStatus(w.books, CallerOf(actor, 0), o, status == OrderCanceled);
      Success(Shop(s, Billing.OrElse(r, w.books)))
  }

  function Delete(w: Shop, actor: Actor, o: nat): Result<Shop> {
    match LedgerSpec.Delete(w.ledger, actor, o)
    case Failure(e) => Failure(e)
    case Success(s) => Success(Shop(s, Billing.OrElse(Billing.DeleteOrder(w.books, CallerOf(actor, 0), o), w.books)))
  }

  // ---- Runs ----

  datatype Request = Orders(op: Op, head: Head) | Charges(request: Billing.Request)

  datatype Step = Step(actor: Actor, today: int, request: Request)

  predicate OnCharges(r: Billing.Request) {
    r.CreateCharge? || r.UpdateCharge? || r.CancelCharge? || r.DeleteCharge? || r.SyncBillings?
  }

  function OrElse(r: Result<Shop>, w: Shop): Shop { if r.Success? then r.value else w }

  function NextOrder(w: Shop, actor: Actor, op: Op, h: Head): Shop {
    match op
    case PlaceOrder(drafts) =>
      var r := Place(w, actor.seller, drafts, h);
      if r.Success? then r.value.shop else w
    case PublicOrder(store, lines) => OrElse(CreatePublic(w, store, lines, h), w)
    case AddLine(o, d) => OrElse(AddItem(w, actor, o, Price(d)), w)
    case SetStatus(o, status) => OrElse(UpdateStatus(w, actor, o, status), w)
    case DeleteOrder(o) => OrElse(Delete(w, actor, o), w)
    case _ => w.(ledger := LedgerSpec.Next(w.ledger, LedgerSpec.Step(actor, op)))
  }

  function Next(w: Shop, step: Step): Shop {
    match step.request
    case Orders(op, h) => NextOrder(w, step.actor, op, h)
    case Charges(r) =>
      if OnCharges(r)
      then w.(books := Billing.Next(w.books, Billing.Step(CallerOf(step.actor, step.today), r)))
      else w
  }

  function Run(w: Shop, steps: seq<Step>): Shop {
    if steps == [] then w else Next(Run(w, steps[..|steps| - 1]), steps[|steps| - 1])
  }

  // ---- Both halves tell one story ----

  predicate SameRow(a: Order, b: Billing.BilledOrder) {
    a.seller == b.seller && a.total == b.total && (b.canceled <==> a.status == OrderCanceled)
  }

  /** Billing sees the orders the ledger holds, and charges belong to orders. */
  predicate Mirrors(w: Shop) {
    Billing.Shaped(w.books) && w.books.orders.Keys == w.ledger.orders.Keys &&
    forall o <- w.ledger.orders :: SameRow(w.ledger.orders[o], w.books.orders[o])
  }

  lemma {:induction false} CreateMirrors(
      w: Shop, seller: string, lines: seq<Line>, subtotal: int, discount: int, total: int, h: Head, placed: Placed)
    requires Mirrors(w) && Create(w, seller, lines, subtotal, discount, total, h) == Success(placed)
    ensures Mirrors(placed.shop) && placed.order == w.ledger.nextOrder && placed.order !in w.ledger.orders
    ensures Billing.PlaceOrder(w.books, placed.order, BilledRow(seller, total, h)) == Success(placed.shop.books)
    ensures placed.order in placed.shop.ledger.orders && placed.shop.ledger.nextOrder == placed.order + 1
    ensures LedgerSpec.Create(w.ledger, seller, lines, subtotal, discount, total) ==
            Success(Created(placed.shop.ledger, placed.order, placed.oversold))
  {
  }

  lemma {:induction false} CreatePublicMirrors(w: Shop, store: string, lines: seq<Line>, h: Head)
    requires Mirrors(w)
    ensures var r := CreatePublic(w, store, lines, h);
      r.Success? ==> Mirrors(r.value) && Billing.VoidStays(w.books, r.value.books)
  {
  }

  lemma {:induction false} AddItemMirrors(w: Shop, actor: Actor, o: nat, l: Line)
    requires Mirrors(w)
    ensures var r := AddItem(w, actor, o, l);
      r.Success? ==> Mirrors(r.value) && r.value.books.charges == w.books.charges &&
                     r.value.books.nextCharge == w.books.nextCharge
  {
  }

  lemma {:induction false} UpdateStatusMirrors(w: Shop, actor: Actor, o: nat, status: OrderStatus)
    requires Mirrors(w)
    ensures var r, b := UpdateStatus(w, actor, o, status),
                        Billing.SetOrderStatus(w.books, CallerOf(actor, 0), o, status == OrderCanceled);
      && (r.Success? <==> b.Success?)
      && (r.Success? ==> Mirrors(r.value) && r.value.books == b.value)
  {
  }

  lemma {:induction false} DeleteMirrors(w: Shop, actor: Actor, o: nat)
    requires Mirrors(w)
    ensures var r, b := Delete(w, actor, o), Billing.DeleteOrder(w.books, CallerOf(actor, 0), o);
      && (r.Success? <==> b.Success?)
      && (r.Success? ==> Mirrors(r.value) && r.value.books == b.value)
  {
  }

  lemma {:induction false} PlaceMirrors(w: Shop, seller: string, drafts: seq<Draft>, h: Head, placed: Placed)
    requires Mirrors(w) && Place(w, seller, drafts, h) == Success(placed)
    ensures Mirrors(placed.shop) && placed.order == w.ledger.nextOrder && placed.order !in w.ledger.orders
    ensures var total := ValueOf(drafts) - DiscountAll(PriceAll(drafts));
      Billing.PlaceOrder(w.books, placed.order, BilledRow(seller, total, h)) == Success(placed.shop.books)
    ensures placed.order in placed.shop.ledger.orders && placed.shop.ledger.nextOrder == placed.order + 1
    ensures LedgerSpec.Place(w.ledger, seller, drafts) ==
            Success(Created(placed.shop.ledger, placed.order, placed.oversold))
  {
    var lines, value := PriceAll(drafts), ValueOf(drafts);
    var discount := DiscountAll(lines);
    CreateMirrors(w, seller, lines, value, discount, value - discount, h, placed);
  }

  lemma {:induction false} NextOrderParts(w: Shop, actor: Actor, op: Op, h: Head)
    requires Mirrors(w)
    ensures var t := NextOrder(w, actor, op, h);
      && Mirrors(t) && Billing.VoidStays(w.books, t.books)
      && (t.ledger == w.ledger || t.ledger == LedgerSpec.Next(w.ledger, LedgerSpec.Step(actor, op)))
  {
    var who := CallerOf(actor, 0);
    match op
    case PlaceOrder(drafts) =>
      var r := Place(w, actor.seller, drafts, h);
      if r.Success? {
        PlaceMirrors(w, actor.seller, drafts, h, r.value);
      }
    case PublicOrder(store, lines) => CreatePublicMirrors(w, store, lines, h);
    case AddLine(o, d) => AddItemMirrors(w, actor, o, Price(d));
    case SetStatus(o, status) =>
      UpdateStatusMirrors(w, actor, o, status);
      Billing.StatusShaped(w.books, who, o, status == OrderCanceled);
    case DeleteOrder(o) =>
      DeleteMirrors(w, actor, o);
      Billing.RemoveShaped(w.books, who, o);
    case _ => OtherOpsKeepOrders(w.ledger, LedgerSpec.Step(actor, op));
  }

  lemma {:induction false} OtherOpsKeepOrders(s: State, step: LedgerSpec.Step)
    requires step.op.MoveStock? || step.op.EditStock?
    ensures LedgerSpec.Next(s, step).orders == s.orders
  {
  }

  lemma {:induction false} ChargesKeepOrders(s: Billing.Books, step: Billing.Step)
    requires Billing.Shaped(s) && OnCharges(step.request)
    ensures Billing.Next(s, step).orders == s.orders
  {
    if step.request.SyncBillings? {
      Billing.SyncAllShaped(s, step.request.ids, step.request.down);
    }
  }

  /** A step is, for the ledger, nothing or its own request; billing sees the same orders
      afterwards, and no charge comes back from being void. */
  lemma {:induction false} NextParts(w: Shop, step: Step)
    requires Mirrors(w)
    ensures var t := Next(w, step);
      && Mirrors(t) && Billing.VoidStays(w.books, t.books)
      && (t.ledger != w.ledger ==>
            step.request.Orders? &&
            t.ledger == LedgerSpec.Next(w.ledger, LedgerSpec.Step(step.actor, step.request.op)))
  {
    match step.request
    case Charges(r) =>
      if OnCharges(r) {
        var b := Billing.Step(CallerOf(step.actor, step.today), r);
        ChargesKeepOrders(w.books, b);
        Billing.NextShaped(w.books, b);
      }
    case Orders(op, h) => NextOrderParts(w, step.actor, op, h);
  }

  /** The ledger requests of a run that were carried out. */
  function LedgerTrace(w: Shop, steps: seq<Step>): seq<LedgerSpec.Step> {
    if steps == [] then []
    else
      var n := |steps| - 1;
      var before := Run(w, steps[..n]);
      LedgerTrace(w, steps[..n]) +
      (if steps[n].request.Orders? && Next(before, steps[n]).ledger != before.ledger
       then [LedgerSpec.Step(steps[n].actor, steps[n].request.op)] else [])
  }

  lemma {:induction false} TraceIsRequests(w: Shop, steps: seq<Step>, step: LedgerSpec.Step)
    requires step in LedgerTrace(w, steps)
    ensures exists x <- steps :: x.request.Orders? && step == LedgerSpec.Step(x.actor, x.request.op)
  {
    var n := |steps| - 1;
    if step in LedgerTrace(w, steps[..n]) {
      TraceIsRequests(w, steps[..n], step);
      var x :| x in steps[..n] && x.request.Orders? && step == LedgerSpec.Step(x.actor, x.request.op);
      assert x in steps;
    } else {
      assert steps[n] in steps;
    }
  }

  /** Charges change nothing of what is proved of the ledger: in every run of orders and
      charges its tables are those of a run of the ledger alone, over the requests that were
      carried out whole. */
  lemma {:induction false} RunRefinesLedger(w: Shop, steps: seq<Step>)
    requires Mirrors(w)
    ensures var t := Run(w, steps);
      && Mirrors(t) && Billing.VoidStays(w.books, t.books)
      && t.ledger == LedgerSpec.Run(w.ledger, LedgerTrace(w, steps))
  {
    if steps != [] {
      var n := |steps| - 1;
      RunRefinesLedger(w, steps[..n]);
      NextParts(Run(w, steps[..n]), steps[n]);
      TraceLast(w, steps);
    }
  }

  lemma {:induction false} TraceLast(w: Shop, steps: seq<Step>)
    requires steps != []
    ensures var n := |steps| - 1;
      var before, front, trace := Run(w, steps[..n]), LedgerTrace(w, steps[..n]), LedgerTrace(w, steps);
      LedgerSpec.Run(w.ledger, trace) ==
        if steps[n].request.Orders? && Next(before, steps[n]).ledger != before.ledger
        then LedgerSpec.Next(LedgerSpec.Run(w.ledger, front), LedgerSpec.Step(steps[n].actor, steps[n].request.op))
        else LedgerSpec.Run(w.ledger, front)
  {
    var front, trace := LedgerTrace(w, steps[..|steps| - 1]), LedgerTrace(w, steps);
    if trace != front {
      assert trace[..|front|] == front;
    }
  }

  // ---- Order and charge, together or not at all ----

  /** Creating an order succeeds exactly when its lines can be sold, the seller has not used
      its number, and, for a customer who pays per sale, no charge of any seller has the
      number it becomes. Then a per-sale order has one charge, of the order's own total,
      unpaid and due on the day of the sale, and any other order has none. */
  lemma {:induction false} CreateIff(
      w: Shop, seller: string, lines: seq<Line>, subtotal: int, discount: int, total: int, h: Head)
    requires Mirrors(w) && Sound(w.ledger)
    ensures var r := Create(w, seller, lines, subtotal, discount, total, h);
      && (r.Success? <==>
            && LedgerSpec.Create(w.ledger, seller, lines, subtotal, discount, total).Success?
            && !Billing.OrderNumberTaken(w.books, seller, h.number)
            && (h.perSale ==> !Billing.NumberTaken(w.books, Billing.Recoded(h.number))))
      && (r.Success? ==>
            var b, id := r.value.shop.books, w.books.nextCharge;
            && (forall x <- w.books.charges :: x in b.charges && b.charges[x] == w.books.charges[x])
            && (forall x <- b.charges :: b.charges[x].order == r.value.order <==> h.perSale && x == id)
            && (h.perSale ==>
                  id in b.charges &&
                  b.charges[id] == Billing.Charge(r.value.order, Billing.Recoded(h.number), total, 0,
                                                  Billing.Unpaid, Billing.AwaitingPayment, Some(h.createdOn), None)))
  {
    var r := Create(w, seller, lines, subtotal, discount, total, h);
    assert w.ledger.nextOrder !in w.ledger.orders;
    if r.Success? {
      CreateMirrors(w, seller, lines, subtotal, discount, total, h, r.value);
    }
  }

  /** Charges go only with their order, and keep their numbers. */
  predicate ChargesStay(s: Billing.Books, t: Billing.Books) {
    forall id <- s.charges | s.charges[id].order in t.orders ::
      && id in t.charges && t.charges[id].order == s.charges[id].order
      && t.charges[id].number == s.charges[id].number
  }

  predicate DeletesCharge(step: Step) { step.request.Charges? && step.request.request.DeleteCharge? }

  lemma {:induction false} PlaceStays(s: Billing.Books, o: nat, row: Billing.BilledOrder)
    requires Billing.Shaped(s)
    ensures var r := Billing.PlaceOrder(s, o, row); r.Success? ==> ChargesStay(s, r.value)
  {
  }

  lemma {:induction false} UndoStays(s: Billing.Books, who: Billing.Caller, o: nat, canceled: bool)
    ensures var r := Billing.SetOrderStatus(s, who, o, canceled); r.Success? ==> ChargesStay(s, r.value)
    ensures var r := Billing.DeleteOrder(s, who, o); r.Success? ==> ChargesStay(s, r.value)
  {
  }

  lemma {:induction false} NewOrderStays(w: Shop, seller: string, drafts: seq<Draft>, h: Head)
    requires Billing.Shaped(w.books)
    ensures var r := Place(w, seller, drafts, h); r.Success? ==> ChargesStay(w.books, r.value.shop.books)
  {
    var total := ValueOf(drafts) - DiscountAll(PriceAll(drafts));
    PlaceStays(w.books, w.ledger.nextOrder, BilledRow(seller, total, h));
  }

  lemma {:induction false} PublicOrderStays(w: Shop, store: string, lines: seq<Line>, h: Head)
    ensures var r := CreatePublic(w, store, lines, h); r.Success? ==> ChargesStay(w.books, r.value.books)
  {
  }

  lemma {:induction false} NextOrderStays(w: Shop, actor: Actor, op: Op, h: Head)
    requires Mirrors(w)
    ensures ChargesStay(w.books, NextOrder(w, actor, op, h).books)
  {
    match op
    case AddLine(o, d) => AddItemMirrors(w, actor, o, Price(d));
    case SetStatus(o, status) =>
      UpdateStatusMirrors(w, actor, o, status);
      UndoStays(w.books, CallerOf(actor, 0), o, status == OrderCanceled);
    case DeleteOrder(o) =>
      DeleteMirrors(w, actor, o);
      UndoStays(w.books, CallerOf(actor, 0), o, false);
    case PlaceOrder(drafts) => NewOrderStays(w, actor.seller, drafts, h);
    case PublicOrder(store, lines) => PublicOrderStays(w, store, lines, h);
    case _ =>
  }

  lemma {:induction false} ChargeRequestStays(s: Billing.Books, step: Billing.Step)
    requires Billing.Shaped(s) && OnCharges(step.request) && !step.request.DeleteCharge?
    ensures ChargesStay(s, Billing.Next(s, step))
  {
    if step.request.SyncBillings? {
      Billing.SyncMirrors(s, step.request.ids, step.request.down);
    }
  }

  lemma {:induction false} NextStays(w: Shop, step: Step)
    requires Mirrors(w) && !DeletesCharge(step)
    ensures ChargesStay(w.books, Next(w, step).books)
  {
    match step.request
    case Charges(r) =>
      if OnCharges(r) {
        ChargeRequestStays(w.books, Billing.Step(CallerOf(step.actor, step.today), r));
      }
    case Orders(op, h) => NextOrderStays(w, step.actor, op, h);
  }

  lemma {:induction false} OrderNumbersAscend(s: State, step: LedgerSpec.Step)
    ensures var t := LedgerSpec.Next(s, step);
      s.nextOrder <= t.nextOrder && forall o <- t.orders :: o in s.orders || o == s.nextOrder
  {
  }

  predicate HasCharge(s: Billing.Books, o: nat, number: string) {
    exists id <- s.charges :: s.charges[id].order == o && s.charges[id].number == number
  }

  /** The step deletes the charge `number` of order `o`. */
  predicate Uncharges(w: Shop, step: Step, o: nat, number: string) {
    DeletesCharge(step) &&
    var id := step.request.request.id;
    && Billing.Visible(w.books, CallerOf(step.actor, step.today), id)
    && w.books.charges[id].order == o && w.books.charges[id].number == number
  }

  predicate SomeUncharges(w: Shop, steps: seq<Step>, o: nat, number: string) {
    steps != [] &&
    var n := |steps| - 1;
    SomeUncharges(w, steps[..n], o, number) || Uncharges(Run(w, steps[..n]), steps[n], o, number)
  }

  /** An order that has the charge `number`, or is gone. */
  predicate BilledOrGone(w: Shop, o: nat, number: string) {
    o < w.ledger.nextOrder && (o in w.ledger.orders ==> HasCharge(w.books, o, number))
  }

  lemma {:induction false} NextBilled(w: Shop, step: Step, o: nat, number: string)
    requires Mirrors(w) && BilledOrGone(w, o, number) && !Uncharges(w, step, o, number)
    ensures Mirrors(Next(w, step)) && BilledOrGone(Next(w, step), o, number)
  {
    var t := Next(w, step);
    NextParts(w, step);
    if t.ledger != w.ledger {
      OrderNumbersAscend(w.ledger, LedgerSpec.Step(step.actor, step.request.op));
    }
    if o in t.ledger.orders {
      var id :| id in w.books.charges && w.books.charges[id].order == o && w.books.charges[id].number == number;
      if !DeletesCharge(step) {
        NextStays(w, step);
      }
      assert t.books.charges[id].order == o;
    }
  }

  lemma {:induction false} RunBilled(w: Shop, steps: seq<Step>, o: nat, number: string)
    requires Mirrors(w) && BilledOrGone(w, o, number) && !SomeUncharges(w, steps, o, number)
    ensures Mirrors(Run(w, steps)) && BilledOrGone(Run(w, steps), o, number)
  {
    if steps != [] {
      RunBilled(w, steps[..|steps| - 1], o, number);
      NextBilled(Run(w, steps[..|steps| - 1]), steps[|steps| - 1], o, number);
    }
  }

  /** A per-sale order is never without its charge, in no state after its creation, until
      the order is deleted or somebody deletes that charge. */
  lemma {:induction false} SaleStaysBilled(
      w: Shop, seller: string, drafts: seq<Draft>, h: Head, placed: Placed, steps: seq<Step>)
    requires Mirrors(w) && h.perSale && Place(w, seller, drafts, h) == Success(placed)
    requires !SomeUncharges(placed.shop, steps, placed.order, Billing.Recoded(h.number))
    ensures BilledOrGone(Run(placed.shop, steps), placed.order, Billing.Recoded(h.number))
  {
    PlaceMirrors(w, seller, drafts, h, placed);
    assert placed.shop.books.charges[w.books.nextCharge].order == placed.order;
    RunBilled(placed.shop, steps, placed.order, Billing.Recoded(h.number));
  }

  /** Order numbers are the seller's own, charge numbers are not: while that order and its
      charge are there, no seller can place a per-sale order whose number becomes the same
      charge number. */
  lemma {:induction false} SharedNumberRefused(
      w: Shop, seller: string, drafts: seq<Draft>, h: Head, placed: Placed, steps: seq<Step>,
      other: string, more: seq<Draft>, k: Head)
    requires Mirrors(w) && h.perSale && Place(w, seller, drafts, h) == Success(placed)
    requires !SomeUncharges(placed.shop, steps, placed.order, Billing.Recoded(h.number))
    requires placed.order in Run(placed.shop, steps).ledger.orders
    requires k.perSale && Billing.Recoded(k.number) == Billing.Recoded(h.number)
    ensures Place(Run(placed.shop, steps), other, more, k).Failure?
  {
    SaleStaysBilled(w, seller, drafts, h, placed, steps);
    assert Billing.NumberTaken(Run(placed.shop, steps).books, Billing.Recoded(k.number));
  }

  /** Cancelling an order voids every charge it has, for good, and no other charge. */
  lemma {:induction false} CancelVoids(w: Shop, actor: Actor, o: nat, after: Shop, steps: seq<Step>)
    requires Mirrors(w) && UpdateStatus(w, actor, o, OrderCanceled) == Success(after)
    ensures after.books.charges == map id <- w.books.charges ::
      if w.books.charges[id].order == o then Billing.Voided(w.books.charges[id]) else w.books.charges[id]
    ensures var t := Run(after, steps);
      forall id <- t.books.charges | id in w.books.charges && w.books.charges[id].order == o ::
        t.books.charges[id].status == Billing.Void
  {
    UpdateStatusMirrors(w, actor, o, OrderCanceled);
    RunRefinesLedger(after, steps);
  }
}
