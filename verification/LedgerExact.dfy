/** When the pending owed units are exactly the deficit, and when a cancel keeps them so. */
module LedgerExact {
  import opened Seqs
  import opened Tables
  import opened LedgerSpec
  import opened LedgerBatch
  import opened LedgerAllocation
  import opened LedgerSound
  import opened LedgerOwed

  ghost predicate Exact(s: State) {
    Sound(s) && forall p :: Owed(s, p) == DeficitOf(s, p)
  }

  /** Requests that return nothing: sales, arrivals, adjustments, other status changes. */
  predicate SalesOnly(s: State, step: Step) {
    && Validated(step)
    && match step.op
       case SetStatus(_, status) => status != OrderCanceled
       case DeleteOrder(_) => false
       case MoveStock(m) => SparesReserve(s, m)
       case EditStock(_, _, _) => false
       case _ => true
  }

  lemma SellLineExact(s: State, o: nat, l: Line)
    requires Exact(s) && l.quantity > 0 && o in s.orders && AllOwned(s.products, s.orders[o].seller, [l])
    ensures Exact(SellLine(s, s.orders[o].seller, o, l))
  {
    var t := SellLine(s, s.orders[o].seller, o, l);
    SellLineSound(s, o, l);
    forall p ensures Owed(t, p) == DeficitOf(t, p) {
      SellLineSums(s, s.orders[o].seller, o, l, p, o);
      assert Owed(s, p) == DeficitOf(s, p);
    }
  }

  lemma {:induction false} SellLinesExact(s: State, o: nat, lines: seq<Line>)
    requires Exact(s) && forall l <- lines :: l.quantity > 0
    requires o in s.orders && AllOwned(s.products, s.orders[o].seller, lines)
    ensures Exact(SellLines(s, s.orders[o].seller, o, lines))
  {
    if lines != [] {
      var n := |lines| - 1;
      SellLinesExact(s, o, lines[..n]);
      SellLinesFrame(s, s.orders[o].seller, o, lines[..n]);
      assert lines[n] in lines;
      SellLineExact(SellLines(s, s.orders[o].seller, o, lines[..n]), o, lines[n]);
    }
  }

  lemma ExactElsewhere(s: State, t: State)
    requires Exact(s) && Sound(t) && t.stock == s.stock && t.backorders == s.backorders
    ensures Exact(t)
  {
    forall p ensures Owed(t, p) == DeficitOf(t, p) {
      assert Owed(s, p) == DeficitOf(s, p);
    }
  }

  lemma {:induction false} CreateExact(
      s: State, seller: string, lines: seq<Line>, subtotal: int, discount: int, total: int, created: Created)
    requires Exact(s) && forall l <- lines :: l.quantity > 0
    requires Create(s, seller, lines, subtotal, discount, total) == Success(created)
    ensures Exact(created.state)
  {
    var s0 := WithOrder(s, Order(seller, OrderPending, subtotal, discount, total));
    CreateIsSellLines(s, seller, lines, subtotal, discount, total);
    SoundElsewhere(s, s0);
    ExactElsewhere(s, s0);
    SellLinesExact(s0, s.nextOrder, lines);
  }

  /** An adjustment keeps a product exact precisely when it spares the reserve. */
  lemma MoveExactIff(s: State, actor: Actor, m: Movement)
    requires Exact(s) && m.quantity > 0
    ensures var r := Move(s, actor, m); r.Success? ==> (Exact(r.value.state) <==> SparesReserve(s, m))
  {
    var r := Move(s, actor, m);
    if r.Success? {
      var t := r.value.state;
      MoveSound(s, actor, m);
      SoundRows(s);
      assert Owed(s, m.product) == DeficitOf(s, m.product);
      ArrivalPlacesAll(s, m);
      forall p ensures p != m.product || SparesReserve(s, m) ==> Owed(t, p) == DeficitOf(t, p) {
        assert Owed(s, p) == DeficitOf(s, p);
        if p != m.product {
          ArrivalElsewhere(s.backorders, m, RowAt(s, m.product), p);
        }
      }
      if !SparesReserve(s, m) {
        assert Owed(t, m.product) != DeficitOf(t, m.product);
      }
    }
  }

  lemma {:induction false} PlaceExact(s: State, seller: string, drafts: seq<Draft>, placed: Created)
    requires Exact(s) && forall d <- drafts :: d.quantity > 0
    requires Place(s, seller, drafts) == Success(placed)
    ensures Exact(placed.state)
  {
    var lines, value := PriceAll(drafts), ValueOf(drafts);
    var discount := DiscountAll(lines);
    assert forall l <- lines :: l.quantity > 0 by {
      PricedQuantities(drafts);
    }
    CreateExact(s, seller, lines, value, discount, value - discount, placed);
  }

  lemma NextExact(s: State, step: Step)
    requires Exact(s) && SalesOnly(s, step)
    ensures Exact(Next(s, step))
  {
    NextSound(s, step);
    match step.op
    case PlaceOrder(drafts) =>
      var r := Place(s, step.actor.seller, drafts);
      if r.Success? {
        PlaceExact(s, step.actor.seller, drafts, r.value);
      }
    case AddLine(o, d) =>
      var r := AddItem(s, step.actor, o, Price(d));
      if r.Success? {
        SellLineExact(s, o, Price(d));
        ExactElsewhere(SellLine(s, s.orders[o].seller, o, Price(d)), r.value);
      }
    case SetStatus(o, status) => ExactElsewhere(s, Next(s, step));
    case DeleteOrder(_) =>
    case MoveStock(m) => MoveExactIff(s, step.actor, m);
    case PublicOrder(_, _) => ExactElsewhere(s, Next(s, step));
    case EditStock(_, _, _) =>
  }

  predicate SalesRun(s: State, steps: seq<Step>) {
    steps == [] ||
    (SalesRun(s, steps[..|steps| - 1]) && SalesOnly(Run(s, steps[..|steps| - 1]), steps[|steps| - 1]))
  }

  /** Over every run of sales, arrivals and adjustments the pending owed units of each
      product are exactly max(reserved - quantity, 0). */
  lemma {:induction false} RunExact(s: State, steps: seq<Step>)
    requires Exact(s) && SalesRun(s, steps)
    ensures Exact(Run(s, steps))
  {
    if steps != [] {
      var n := |steps| - 1;
      RunExact(s, steps[..n]);
      NextExact(Run(s, steps[..n]), steps[n]);
    }
  }

  // ---- Cancelling ----

  predicate OnlyOwing(s: State, o: nat, p: int) {
    forall b <- s.backorders :: b.PendingFor(p) ==> b.order == o
  }

  function RemainingElsewhere(o: nat, p: int): Backorder -> int {
    (b: Backorder) => if b.order != o && b.product == p then b.Remaining() else 0
  }

  lemma OnlyOwingIff(s: State, o: nat, p: int)
    requires Sound(s)
    ensures OnlyOwing(s, o, p) <==> PendingOf(s, o, p) == Owed(s, p)
  {
    var rows, f := s.backorders, RemainingElsewhere(o, p);
    SumSplit(rows, rows, f, RemainingOf(o, p), RemainingFor(p));
    forall b <- rows ensures f(b) >= 0 && (f(b) == 0 <==> b.PendingFor(p) ==> b.order == o) {
      assert BackorderSound(s, b);
    }
    if OnlyOwing(s, o, p) {
      SumZero(rows, f);
    } else if Sum(rows, f) == 0 {
      SumZeroEach(rows, f);
    }
  }

  /** Cancelling a live order keeps the equality for a product exactly when the product has
      no deficit, or the order still owes its whole quantity, or no other order owes any. */
  lemma CancelExactIff(s: State, actor: Actor, o: nat, p: int)
    requires Backed(s) && p in s.stock && Owed(s, p) == DeficitOf(s, p)
    requires o in s.orders && s.orders[o].status != OrderCanceled && actor.MayTouch(s.orders[o].seller)
    ensures var r := UpdateStatus(s, actor, o, OrderCanceled);
      && r.Success?
      && (Owed(r.value, p) == DeficitOf(r.value, p) <==>
            || DeficitOf(s, p) == 0
            || PendingOf(s, o, p) == QuantityOf(s, o, p)
            || OnlyOwing(s, o, p))
  {
    PutBackAt(s.stock, o, s.items);
    CancelSums(s, o, p, o);
    NonNegativeSums(s, o, p);
    OnlyOwingIff(s, o, p);
    assert PendingOf(s, o, p) <= QuantityOf(s, o, p);
  }

  /** Order 0 owes 5 units of product 7, of which 2 have arrived, and order 1 owes 4. */
  function PartlyFilled(): State {
    var order := Order("ana", OrderPending, 0, 0, 0);
    State(map[7 := Product("ana", true)], map[7 := Stock(-7, 0)], map[0 := order, 1 := order],
          [Item(0, 0, 7, 5, 0, 0), Item(1, 1, 7, 4, 0, 0)],
          [Backorder("ana", 0, 0, 7, 5, 2, Pending), Backorder("ana", 1, 1, 7, 4, 0, Pending)],
          [], 2, 2)
  }

  lemma PartlyFilledSums(o: nat, p: int)
    ensures var s := PartlyFilled();
      && Owed(s, p) == (if p == 7 then 7 else 0)
      && PendingOf(s, o, p) == (if p == 7 && o == 0 then 3 else if p == 7 && o == 1 then 4 else 0)
      && QuantityOf(s, o, p) == (if p == 7 && o == 0 then 5 else if p == 7 && o == 1 then 4 else 0)
  {
    var s := PartlyFilled();
    TwoRows(s.backorders, RemainingFor(p));
    TwoRows(s.backorders, RemainingOf(o, p));
    TwoRows(s.items, UnitsOf(o, p));
  }

  /** The limitation the source's comment admits: cancelling a partly filled backorder
      while another order owes leaves more owed than the stock row lacks. */
  lemma PartlyFilledCancelFails()
    ensures var s := PartlyFilled();
      Backed(s) && Exact(s) && Owed(Restore(s, 0), 7) == 4 && DeficitOf(Restore(s, 0), 7) == 2
  {
    var s := PartlyFilled();
    forall p ensures Owed(s, p) == DeficitOf(s, p) {
      PartlyFilledSums(0, p);
    }
    forall o: nat, p ensures PendingOf(s, o, p) <= QuantityOf(s, o, p) {
      PartlyFilledSums(o, p);
    }
    PartlyFilledSums(0, 7);
    CancelSums(s, 0, 7, 0);
    PutBackAt(s.stock, 0, s.items);
  }

  lemma TwoRows<T>(rows: seq<T>, f: T -> int)
    requires |rows| == 2
    ensures Sum(rows, f) == f(rows[0]) + f(rows[1])
  {
    SumPrefix(rows, 0, f);
    SumPrefix(rows, 1, f);
    assert rows[..2] == rows;
  }
}
