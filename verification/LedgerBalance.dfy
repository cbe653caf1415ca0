/** Stock against the movement table: conservation, and the exact inverse of a sale. */
module LedgerBalance {
  import opened Seqs
  import opened Tables
  import opened LedgerSpec
  import opened LedgerBatch
  import opened LedgerAllocation
  import opened LedgerSound
  import opened LedgerOwed

  // ---- Conservation ----

  lemma SellLineExplained(s: State, seller: string, o: nat, l: Line, p: int)
    ensures Unexplained(SellLine(s, seller, o, l), p) == Unexplained(s, p)
  {
    SumAppend(s.movements, SaleMove(o, l), SignedFor(p));
    if l.product !in s.stock {
      assert SellLine(s, seller, o, l).movements == s.movements;
    }
  }

  lemma {:induction false} SellLinesExplained(s: State, seller: string, o: nat, lines: seq<Line>, p: int)
    ensures Unexplained(SellLines(s, seller, o, lines), p) == Unexplained(s, p)
  {
    if lines != [] {
      var n := |lines| - 1;
      SellLinesExplained(s, seller, o, lines[..n], p);
      SellLineExplained(SellLines(s, seller, o, lines[..n]), seller, o, lines[n], p);
    }
  }

  /** The return movements of order `o` carry its stored quantities, for tracked products. */
  lemma {:induction false} ReturnMovesCarry(tracked: set<int>, o: nat, items: seq<Item>, x: nat, p: int)
    ensures var moves := ReturnMoves(tracked, o, items);
      var units := if p in tracked then Sum(items, UnitsOf(o, p)) else 0;
      && Sum(moves, SignedFor(p)) == units
      && Sum(moves, SignedOf(x, p)) == (if x == o then units else 0)
  {
    if items != [] {
      var n := |items| - 1;
      ReturnMovesCarry(tracked, o, items[..n], x, p);
      var front := ReturnMoves(tracked, o, items[..n]);
      SumAppend(front, ReturnMove(items[n]), SignedFor(p));
      SumAppend(front, ReturnMove(items[n]), SignedOf(x, p));
      if items[n].order != o || items[n].product !in tracked {
        assert ReturnMoves(tracked, o, items) == front;
      }
    }
  }

  lemma RestoreExplained(s: State, o: nat, p: int)
    ensures Unexplained(Restore(s, o), p) == Unexplained(s, p)
  {
    PutBackAt(s.stock, o, s.items);
    ReturnMovesCarry(s.stock.Keys, o, s.items, o, p);
    SumConcat(s.movements, ReturnMoves(s.stock.Keys, o, s.items), SignedFor(p));
  }

  predicate NoEdit(step: Step) { !step.op.EditStock? }

  lemma CreateExplained(s: State, seller: string, lines: seq<Line>, subtotal: int, discount: int, total: int, p: int)
    ensures var r := Create(s, seller, lines, subtotal, discount, total);
      r.Success? ==> Unexplained(r.value.state, p) == Unexplained(s, p)
  {
    var s0 := WithOrder(s, Order(seller, OrderPending, subtotal, discount, total));
    CreateIsSellLines(s, seller, lines, subtotal, discount, total);
    SellLinesExplained(s0, seller, s.nextOrder, lines, p);
  }

  lemma MoveExplained(s: State, actor: Actor, m: Movement, p: int)
    ensures var r := Move(s, actor, m); r.Success? ==> Unexplained(r.value.state, p) == Unexplained(s, p)
  {
    SumAppend(s.movements, m, SignedFor(p));
  }

  lemma AddItemExplained(s: State, actor: Actor, o: nat, l: Line, p: int)
    ensures var r := AddItem(s, actor, o, l); r.Success? ==> Unexplained(r.value, p) == Unexplained(s, p)
  {
    if o in s.orders {
      SellLineExplained(s, s.orders[o].seller, o, l, p);
    }
  }

  lemma {:induction false} PlaceExplained(s: State, seller: string, drafts: seq<Draft>, p: int)
    ensures var r := Place(s, seller, drafts); r.Success? ==> Unexplained(r.value.state, p) == Unexplained(s, p)
  {
    var lines := PriceAll(drafts);
    CreateExplained(s, seller, lines, ValueOf(drafts), DiscountAll(lines), ValueOf(drafts) - DiscountAll(lines), p);
  }

  lemma NextExplained(s: State, step: Step, p: int)
    requires NoEdit(step)
    ensures Unexplained(Next(s, step), p) == Unexplained(s, p)
  {
    match step.op
    case PlaceOrder(drafts) =>
      PlaceExplained(s, step.actor.seller, drafts, p);
    case AddLine(o, d) => AddItemExplained(s, step.actor, o, Price(d), p);
    case SetStatus(o, status) => RestoreExplained(s, o, p);
    case DeleteOrder(o) => RestoreExplained(s, o, p);
    case MoveStock(m) => MoveExplained(s, step.actor, m, p);
    case PublicOrder(_, _) =>
    case EditStock(_, _, _) =>
  }

  /** Conservation over every run without manual edits: units on hand are the opening
      units plus all movements in minus all movements out, for every product. */
  lemma {:induction false} RunExplained(s: State, steps: seq<Step>, p: int)
    requires forall step <- steps :: NoEdit(step)
    ensures Unexplained(Run(s, steps), p) == Unexplained(s, p)
  {
    if steps != [] {
      RunExplained(s, steps[..|steps| - 1], p);
      NextExplained(Run(s, steps[..|steps| - 1]), steps[|steps| - 1], p);
    }
  }

  // ---- A sale and its undoing ----

  predicate Live(s: State, o: nat) { o in s.orders && s.orders[o].status != OrderCanceled }

  /** What order `o` has moved of product `p`: out its whole quantity while it is live,
      nothing on balance once it is canceled or gone. */
  predicate Balanced(s: State, o: nat, p: int) {
    OrderNet(s, o, p) == if Live(s, o) then -QuantityOf(s, o, p) else 0
  }

  /** The order keeps out of three corners: it does not come back from canceled, it gains
      no line there, and no manual movement is entered under its number. */
  predicate Traceable(s: State, step: Step, o: nat) {
    match step.op
    case AddLine(x, _) => x == o && o in s.orders ==> Live(s, o)
    case SetStatus(x, status) => x == o && o in s.orders && !Live(s, o) ==> status == OrderCanceled
    case MoveStock(m) => (m.reference == Sale || m.reference == Return) ==> m.refId != o
    case _ => true
  }

  lemma SellLineNets(s: State, seller: string, x: nat, l: Line, o: nat, p: int)
    ensures OrderNet(SellLine(s, seller, x, l), o, p) ==
            OrderNet(s, o, p) - (if x == o && l.product == p && p in s.stock then l.quantity else 0)
  {
    if l.product in s.stock {
      SumAppend(s.movements, SaleMove(x, l), SignedOf(o, p));
    } else {
      assert SellLine(s, seller, x, l).movements == s.movements;
    }
  }

  /** The balance of any order and product, tracked or not: `untaken` units were put on the
      order while the product had no stock row, and undoing it left `over` units too many. */
  predicate Tallied(s: State, o: nat, p: int, untaken: int, over: int) {
    && o < s.nextOrder
    && OrderNet(s, o, p) == (if Live(s, o) then untaken - QuantityOf(s, o, p) else over)
    && (Live(s, o) && p !in s.stock ==> untaken == QuantityOf(s, o, p))
  }

  lemma {:induction false} SellLineTallied(
      s: State, seller: string, x: nat, l: Line, o: nat, p: int, untaken: int, over: int)
    requires Tallied(s, o, p, untaken, over) && (x == o ==> Live(s, o))
    ensures var more := if x == o && l.product == p && p !in s.stock then l.quantity else 0;
      Tallied(SellLine(s, seller, x, l), o, p, untaken + more, over)
  {
    SellLineSums(s, seller, x, l, p, o);
    SellLineNets(s, seller, x, l, o, p);
  }

  lemma {:induction false} SellLinesTallied(
      s: State, seller: string, x: nat, lines: seq<Line>, o: nat, p: int, untaken: int, over: int)
    requires Tallied(s, o, p, untaken, over) && (x == o ==> Live(s, o))
    ensures var more := if x == o && p !in s.stock then Sum(lines, UnitsFor(p)) else 0;
      Tallied(SellLines(s, seller, x, lines), o, p, untaken + more, over)
  {
    if lines != [] {
      var n := |lines| - 1;
      var more := if x == o && p !in s.stock then Sum(lines[..n], UnitsFor(p)) else 0;
      SellLinesTallied(s, seller, x, lines[..n], o, p, untaken, over);
      SellLinesFrame(s, seller, x, lines[..n]);
      SellLineTallied(SellLines(s, seller, x, lines[..n]), seller, x, lines[n], o, p, untaken + more, over);
    }
  }

  /** An order number not yet given out has no items. */
  lemma UnusedNumber(s: State, o: nat, p: int)
    requires Sound(s) && o !in s.orders
    ensures QuantityOf(s, o, p) == 0
  {
    forall it <- s.items ensures UnitsOf(o, p)(it) == 0 {
      assert ItemSound(s, it);
    }
    SumZero(s.items, UnitsOf(o, p));
  }

  lemma {:induction false} CreateTallied(
      s: State, seller: string, lines: seq<Line>, subtotal: int, discount: int, total: int, created: Created,
      o: nat, p: int, untaken: int, over: int)
    requires Create(s, seller, lines, subtotal, discount, total) == Success(created)
    requires Tallied(s, o, p, untaken, over)
    ensures Tallied(created.state, o, p, untaken, over)
  {
    var s0 := WithOrder(s, Order(seller, OrderPending, subtotal, discount, total));
    CreateIsSellLines(s, seller, lines, subtotal, discount, total);
    SellLinesTallied(s0, seller, s.nextOrder, lines, o, p, untaken, over);
  }

  /** The order itself: all its units are untaken if the product has no stock row. */
  lemma {:induction false} CreatedTallied(
      s: State, seller: string, lines: seq<Line>, subtotal: int, discount: int, total: int, created: Created, p: int)
    requires Sound(s) && OrderNet(s, s.nextOrder, p) == 0
    requires Create(s, seller, lines, subtotal, discount, total) == Success(created)
    ensures var untaken := if p in s.stock then 0 else Sum(lines, UnitsFor(p));
      Tallied(created.state, created.order, p, untaken, 0)
  {
    var s0 := WithOrder(s, Order(seller, OrderPending, subtotal, discount, total));
    CreateIsSellLines(s, seller, lines, subtotal, discount, total);
    UnusedNumber(s, s.nextOrder, p);
    SellLinesTallied(s0, seller, s.nextOrder, lines, s.nextOrder, p, 0, 0);
  }

  lemma RestoreNets(s: State, x: nat, o: nat, p: int)
    ensures OrderNet(Restore(s, x), o, p) ==
            OrderNet(s, o, p) + (if o == x && p in s.stock then QuantityOf(s, o, p) else 0)
    ensures QuantityOf(Restore(s, x), o, p) == QuantityOf(s, o, p)
  {
    var back := ReturnMoves(s.stock.Keys, x, s.items);
    ReturnMovesCarry(s.stock.Keys, x, s.items, o, p);
    SumConcat(s.movements, back, SignedOf(o, p));
  }

  lemma DropNets(s: State, x: nat, o: nat, p: int)
    ensures OrderNet(Drop(s, x), o, p) == OrderNet(s, o, p)
    ensures o != x ==> QuantityOf(Drop(s, x), o, p) == QuantityOf(s, o, p)
  {
    if o != x {
      SumFilter(s.items, KeepItem(x), UnitsOf(o, p));
    }
  }

  lemma CatalogOrderNets(s: State, store: string, lines: seq<Line>, o: nat, p: int)
    requires o != s.nextOrder
    ensures var r := CatalogOrder(s, store, lines); r.Success? ==> QuantityOf(r.value, o, p) == QuantityOf(s, o, p)
  {
    var added := NewItems(s.nextItem, s.nextOrder, lines);
    SumConcat(s.items, added, UnitsOf(o, p));
    SumZero(added, UnitsOf(o, p));
  }

  /** What an undone order is left with: units that it returned and never took. */
  function Over(s: State, t: State, o: nat, p: int, untaken: int, over: int): int {
    if Live(s, o) && !Live(t, o) then (if p in s.stock then untaken else 0) else over
  }

  lemma {:induction false} UpdateStatusTallied(
      s: State, actor: Actor, x: nat, status: OrderStatus, after: State, o: nat, p: int, untaken: int, over: int)
    requires UpdateStatus(s, actor, x, status) == Success(after) && Tallied(s, o, p, untaken, over)
    requires x == o && o in s.orders && !Live(s, o) ==> status == OrderCanceled
    ensures Tallied(after, o, p, untaken, Over(s, after, o, p, untaken, over))
  {
    PutBackAt(s.stock, x, s.items);
    RestoreNets(s, x, o, p);
  }

  lemma {:induction false} DeleteTallied(
      s: State, actor: Actor, x: nat, after: State, o: nat, p: int, untaken: int, over: int)
    requires Delete(s, actor, x) == Success(after) && Tallied(s, o, p, untaken, over)
    ensures Tallied(after, o, p, untaken, Over(s, after, o, p, untaken, over))
  {
    PutBackAt(s.stock, x, s.items);
    RestoreNets(s, x, o, p);
    DropNets(s, x, o, p);
    DropNets(Restore(s, x), x, o, p);
  }

  lemma {:induction false} MoveTallied(
      s: State, actor: Actor, m: Movement, moved: Moved, o: nat, p: int, untaken: int, over: int)
    requires Move(s, actor, m) == Success(moved) && Tallied(s, o, p, untaken, over)
    requires (m.reference == Sale || m.reference == Return) ==> m.refId != o
    ensures Tallied(moved.state, o, p, untaken, over)
  {
    SumAppend(s.movements, m, SignedOf(o, p));
  }

  lemma {:induction false} AddItemTallied(
      s: State, actor: Actor, x: nat, l: Line, after: State, o: nat, p: int, untaken: int, over: int)
    requires AddItem(s, actor, x, l) == Success(after) && Tallied(s, o, p, untaken, over)
    requires x == o ==> Live(s, o)
    ensures var more := if x == o && l.product == p && p !in s.stock then l.quantity else 0;
      Tallied(after, o, p, untaken + more, over)
  {
    SellLineTallied(s, s.orders[x].seller, x, l, o, p, untaken, over);
  }

  lemma {:induction false} PlaceTallied(
      s: State, seller: string, drafts: seq<Draft>, placed: Created, o: nat, p: int, untaken: int, over: int)
    requires Place(s, seller, drafts) == Success(placed) && Tallied(s, o, p, untaken, over)
    ensures Tallied(placed.state, o, p, untaken, over)
  {
    var lines, value := PriceAll(drafts), ValueOf(drafts);
    var discount := DiscountAll(lines);
    CreateTallied(s, seller, lines, value, discount, value - discount, placed, o, p, untaken, over);
  }

  /** Units of `p` that a step adds to the order while `p` has no stock row. */
  function Untaken(s: State, step: Step, o: nat, p: int): int {
    match step.op
    case AddLine(x, d) =>
      if x == o && d.product == p && p !in s.stock && AddItem(s, step.actor, x, Price(d)).Success? then d.quantity
      else 0
    case _ => 0
  }

  lemma {:induction false} UndoTallied(s: State, step: Step, o: nat, p: int, untaken: int, over: int)
    requires Tallied(s, o, p, untaken, over) && Traceable(s, step, o)
    requires step.op.SetStatus? || step.op.DeleteOrder?
    ensures var t := Next(s, step); Tallied(t, o, p, untaken, Over(s, t, o, p, untaken, over))
  {
    match step.op
    case SetStatus(x, status) =>
      var r := UpdateStatus(s, step.actor, x, status);
      if r.Success? {
        UpdateStatusTallied(s, step.actor, x, status, r.value, o, p, untaken, over);
      }
    case DeleteOrder(x) =>
      var r := Delete(s, step.actor, x);
      if r.Success? {
        DeleteTallied(s, step.actor, x, r.value, o, p, untaken, over);
      }
  }

  lemma {:induction false} SaleTallied(s: State, step: Step, o: nat, p: int, untaken: int, over: int)
    requires Tallied(s, o, p, untaken, over) && Traceable(s, step, o)
    requires !step.op.SetStatus? && !step.op.DeleteOrder?
    ensures Tallied(Next(s, step), o, p, untaken + Untaken(s, step, o, p), over)
  {
    match step.op
    case PlaceOrder(drafts) =>
      var r := Place(s, step.actor.seller, drafts);
      if r.Success? {
        PlaceTallied(s, step.actor.seller, drafts, r.value, o, p, untaken, over);
      }
    case AddLine(x, d) =>
      var r := AddItem(s, step.actor, x, Price(d));
      if r.Success? {
        AddItemTallied(s, step.actor, x, Price(d), r.value, o, p, untaken, over);
      }
    case MoveStock(m) =>
      var r := Move(s, step.actor, m);
      if r.Success? {
        MoveTallied(s, step.actor, m, r.value, o, p, untaken, over);
      }
    case PublicOrder(store, lines) => CatalogOrderNets(s, store, lines, o, p);
    case EditStock(_, _, _) =>
  }

  lemma {:induction false} LiveStays(s: State, step: Step, o: nat)
    requires !step.op.SetStatus? && !step.op.DeleteOrder? && o < s.nextOrder
    ensures Live(Next(s, step), o) == Live(s, o)
  {
    if step.op.PlaceOrder? {
      var lines := PriceAll(step.op.drafts);
      ValidateLength(s.products, s.stock, lines);
    }
  }

  lemma {:induction false} NextTallied(s: State, step: Step, o: nat, p: int, untaken: int, over: int)
    requires Tallied(s, o, p, untaken, over) && Traceable(s, step, o)
    ensures var t := Next(s, step);
      Tallied(t, o, p, untaken + Untaken(s, step, o, p), Over(s, t, o, p, untaken, over))
  {
    if step.op.SetStatus? || step.op.DeleteOrder? {
      UndoTallied(s, step, o, p, untaken, over);
    } else {
      LiveStays(s, step, o);
      SaleTallied(s, step, o, p, untaken, over);
    }
  }

  /** No request takes a stock row away. */
  lemma NextTracks(s: State, step: Step, p: int)
    requires p in s.stock
    ensures p in Next(s, step).stock
  {
    match step.op
    case PlaceOrder(drafts) =>
      SellLinesFrame(s, step.actor.seller, s.nextOrder, PriceAll(drafts));
    case AddLine(_, _) =>
    case SetStatus(o, _) => PutBackAt(s.stock, o, s.items);
    case DeleteOrder(o) => PutBackAt(s.stock, o, s.items);
    case MoveStock(_) =>
    case PublicOrder(_, _) =>
    case EditStock(_, _, _) =>
  }

  predicate TraceableRun(s: State, steps: seq<Step>, o: nat) {
    steps == [] ||
    (TraceableRun(s, steps[..|steps| - 1], o) && Traceable(Run(s, steps[..|steps| - 1]), steps[|steps| - 1], o))
  }

  /** Units put on the order while `p` had no stock row: `first` with the order itself, and
      those of every line added. */
  function UntakenSoFar(s: State, steps: seq<Step>, o: nat, p: int, first: int): int {
    if steps == [] then first
    else
      var n := |steps| - 1;
      UntakenSoFar(s, steps[..n], o, p, first) + Untaken(Run(s, steps[..n]), steps[n], o, p)
  }

  /** What undoing the order left over: the untaken units if `p` had a stock row by then. */
  function OverSoFar(s: State, steps: seq<Step>, o: nat, p: int, first: int): int {
    if steps == [] then 0
    else
      var n := |steps| - 1;
      var before := Run(s, steps[..n]);
      Over(before, Next(before, steps[n]), o, p,
           UntakenSoFar(s, steps[..n], o, p, first), OverSoFar(s, steps[..n], o, p, first))
  }

  lemma {:induction false} RunTallied(s: State, steps: seq<Step>, o: nat, p: int, first: int)
    requires Tallied(s, o, p, first, 0) && TraceableRun(s, steps, o)
    ensures Tallied(Run(s, steps), o, p, UntakenSoFar(s, steps, o, p, first), OverSoFar(s, steps, o, p, first))
  {
    if steps != [] {
      var n := |steps| - 1;
      RunTallied(s, steps[..n], o, p, first);
      NextTallied(Run(s, steps[..n]), steps[n], o, p,
                  UntakenSoFar(s, steps[..n], o, p, first), OverSoFar(s, steps[..n], o, p, first));
    }
  }

  /** With a stock row throughout nothing is untaken and nothing is left over. */
  lemma {:induction false} TrackedThroughout(s: State, steps: seq<Step>, o: nat, p: int)
    requires p in s.stock
    ensures p in Run(s, steps).stock && UntakenSoFar(s, steps, o, p, 0) == 0 && OverSoFar(s, steps, o, p, 0) == 0
  {
    if steps != [] {
      TrackedThroughout(s, steps[..|steps| - 1], o, p);
      NextTracks(Run(s, steps[..|steps| - 1]), steps[|steps| - 1], p);
    }
  }

  /** Undoing an order is the inverse of selling it, whatever is interleaved and for every
      product: the movements of a placed order add up to minus its quantity while it is live
      and to zero after it is canceled or deleted, but for the units put on it while the
      product had no stock row, which were never taken. A product that has a row when the
      order is placed has none of those. */
  lemma {:induction false} PlacedOrderBalances(
      s: State, seller: string, drafts: seq<Draft>, placed: Created, steps: seq<Step>, p: int)
    requires Sound(s) && OrderNet(s, s.nextOrder, p) == 0
    requires Place(s, seller, drafts) == Success(placed) && TraceableRun(placed.state, steps, placed.order)
    ensures var t, o := Run(placed.state, steps), placed.order;
      var first := if p in s.stock then 0 else Sum(PriceAll(drafts), UnitsFor(p));
      && OrderNet(t, o, p) == (if Live(t, o) then UntakenSoFar(placed.state, steps, o, p, first) - QuantityOf(t, o, p)
                               else OverSoFar(placed.state, steps, o, p, first))
      && (p in s.stock ==> Balanced(t, o, p))
  {
    var o, first := placed.order, if p in s.stock then 0 else Sum(PriceAll(drafts), UnitsFor(p));
    PlacedTallied(s, seller, drafts, placed, p, first);
    RunTallied(placed.state, steps, o, p, first);
    if p in s.stock {
      TrackedThroughout(placed.state, steps, o, p);
    }
  }

  lemma {:induction false} PlacedTallied(
      s: State, seller: string, drafts: seq<Draft>, placed: Created, p: int, first: int)
    requires Sound(s) && OrderNet(s, s.nextOrder, p) == 0 && Place(s, seller, drafts) == Success(placed)
    requires first == if p in s.stock then 0 else Sum(PriceAll(drafts), UnitsFor(p))
    ensures Tallied(placed.state, placed.order, p, first, 0)
    ensures p in s.stock ==> p in placed.state.stock
  {
    var lines, value := PriceAll(drafts), ValueOf(drafts);
    var discount := DiscountAll(lines);
    CreatedTallied(s, seller, lines, value, discount, value - discount, placed, p);
    SellLinesFrame(s, seller, placed.order, lines);
  }

  lemma {:induction false} ReopenedBalanceIff(s: State, actor: Actor, o: nat, status: OrderStatus, after: State, p: int)
    requires Balanced(s, o, p) && o in s.orders && !Live(s, o)
    requires UpdateStatus(s, actor, o, status) == Success(after)
    ensures Balanced(after, o, p) <==> status == OrderCanceled || QuantityOf(s, o, p) == 0
  {
  }

  lemma {:induction false} AddedToCanceledIff(s: State, actor: Actor, o: nat, l: Line, after: State, p: int)
    requires Balanced(s, o, p) && p in s.stock && o in s.orders && !Live(s, o) && l.quantity > 0
    requires AddItem(s, actor, o, l) == Success(after)
    ensures Balanced(after, o, p) <==> l.product != p
  {
    SellLineNets(s, s.orders[o].seller, o, l, o, p);
  }

  /** The two corners, exactly: a canceled order that is reopened balances a product only
      if it holds none of it, and one that gains a line only if the line is another product. */
  lemma {:induction false} CanceledOrderTouchedIff(
      s: State, actor: Actor, o: nat, status: OrderStatus, l: Line, p: int)
    requires Balanced(s, o, p) && p in s.stock && o in s.orders && !Live(s, o) && l.quantity > 0
    ensures var r := UpdateStatus(s, actor, o, status);
      r.Success? ==> (Balanced(r.value, o, p) <==> status == OrderCanceled || QuantityOf(s, o, p) == 0)
    ensures var r := AddItem(s, actor, o, l);
      r.Success? ==> (Balanced(r.value, o, p) <==> l.product != p)
  {
    var r, a := UpdateStatus(s, actor, o, status), AddItem(s, actor, o, l);
    if r.Success? {
      ReopenedBalanceIff(s, actor, o, status, r.value, p);
    }
    if a.Success? {
      AddedToCanceledIff(s, actor, o, l, a.value, p);
    }
  }

  /** For any live order and any product: a cancel leaves its movements at zero exactly when
      before they were minus what the cancel returns, the quantity of a tracked product. */
  lemma CancelNetsZeroIff(s: State, actor: Actor, o: nat, p: int)
    requires InTenant(s, actor, o) && Live(s, o)
    ensures var r := UpdateStatus(s, actor, o, OrderCanceled);
      && r.Success?
      && (OrderNet(r.value, o, p) == 0 <==>
            OrderNet(s, o, p) == -(if p in s.stock then QuantityOf(s, o, p) else 0))
  {
    RestoreNets(s, o, o, p);
  }

  lemma {:induction false} CatalogQuantity(s: State, store: string, lines: seq<Line>, p: int)
    requires Sound(s)
    ensures var r := CatalogOrder(s, store, lines);
      r.Success? ==> QuantityOf(r.value, s.nextOrder, p) == Sum(lines, UnitsFor(p))
  {
    var o, added := s.nextOrder, NewItems(s.nextItem, s.nextOrder, lines);
    UnusedNumber(s, o, p);
    SumConcat(s.items, added, UnitsOf(o, p));
    SumEqual(added, lines, UnitsOf(o, p), UnitsFor(p));
  }

  /** The order that fails this: a public order takes no stock, yet cancelling it returns
      every unit, so stock and movements end up above where they began by what it sold. */
  lemma {:induction false} PublicOrderOverReturns(
      s: State, store: string, lines: seq<Line>, placed: State, actor: Actor, p: int)
    requires Sound(s) && p in s.stock && OrderNet(s, s.nextOrder, p) == 0
    requires CatalogOrder(s, store, lines) == Success(placed) && actor.MayTouch(store)
    ensures var r, units := UpdateStatus(placed, actor, s.nextOrder, OrderCanceled), Sum(lines, UnitsFor(p));
      && r.Success? && p in r.value.stock
      && r.value.stock[p].quantity == s.stock[p].quantity + units
      && OrderNet(r.value, s.nextOrder, p) == units
  {
    CatalogQuantity(s, store, lines, p);
    RestoreNets(placed, s.nextOrder, s.nextOrder, p);
    PutBackAt(placed.stock, s.nextOrder, placed.items);
  }
}
