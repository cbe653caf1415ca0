/** What each ledger request does, column by column, and what it leaves alone. */
module LedgerEffects {
  import opened Seqs
  import opened Tables
  import opened LedgerSpec
  import opened LedgerBatch
  import opened LedgerAllocation
  import opened LedgerSound
  import opened LedgerOwed

  /** A line's discount is capped by what the line is worth. */
  lemma {:induction false} PriceEffects(d: Draft)
    ensures var value := d.unitPrice * d.quantity;
      var discount := if d.discount <= value then d.discount else value;
      Price(d) == Line(d.product, d.quantity, discount, value - discount)
  {
  }

  // ---- Selling ----

  /** A line can be sold unless its product is tracked, short of units that are not reserved,
      and not flagged for overselling. */
  lemma {:induction false} CanSellIff(s: State, l: Line)
    ensures CanSell(s, l) <==>
      || l.product !in s.stock
      || s.stock[l.product].quantity - s.stock[l.product].reserved >= l.quantity
      || (l.product in s.products && s.products[l.product].allowOversell)
  {
  }

  /** One line sold: its item, and for a tracked product its stock, its movement and, for what
      was not there to sell, one pending backorder. */
  lemma {:induction false} SellLineEffects(s: State, seller: string, o: nat, l: Line)
    ensures var t, p := SellLine(s, seller, o, l), l.product;
      var tracked := p in s.stock;
      var row := if tracked then s.stock[p] else Stock(0, 0);
      var available := row.quantity - row.reserved;
      var short := if tracked && available < l.quantity
                   then l.quantity - (if available > 0 then available else 0) else 0;
      && t.products == s.products && t.orders == s.orders && t.nextOrder == s.nextOrder
      && t.items == s.items + [Item(s.nextItem, o, p, l.quantity, l.discount, l.total)]
      && t.nextItem == s.nextItem + 1
      && t.stock == (if tracked then s.stock[p := Stock(row.quantity - l.quantity, row.reserved)] else s.stock)
      && t.movements == s.movements + (if tracked then [Movement(Out, Sale, o, p, l.quantity)] else [])
      && t.backorders == s.backorders +
           (if short > 0 then [Backorder(seller, o, s.nextItem, p, short, 0, Pending)] else [])
  {
  }

  /** The reports of a validated list: each line that found less than it asks for, with what
      the earlier lines left. */
  function ShortLines(s: State, seller: string, o: nat, lines: seq<Line>): seq<Oversold> {
    if lines == [] then []
    else
      var n := |lines| - 1;
      var t, l := SellLines(s, seller, o, lines[..n]), lines[n];
      ShortLines(s, seller, o, lines[..n]) +
      (if l.product in t.stock && t.stock[l.product].quantity - t.stock[l.product].reserved < l.quantity
       then [Oversold(l.product, t.stock[l.product].quantity - t.stock[l.product].reserved, l.quantity)]
       else [])
  }

  lemma {:induction false} OversoldMeans(s: State, seller: string, o: nat, lines: seq<Line>)
    ensures var r := Validate(s.products, s.stock, lines);
      r.Success? ==> r.value.oversold == ShortLines(s, seller, o, lines)
  {
    if lines != [] {
      var n := |lines| - 1;
      OversoldMeans(s, seller, o, lines[..n]);
      ValidateIsCanSellAll(s, seller, o, lines[..n]);
      SellLinesFrame(s, seller, o, lines[..n]);
    }
  }

  /** The first line that cannot be sold after those before it. */
  predicate FirstRefused(s: State, seller: string, o: nat, lines: seq<Line>, i: int) {
    0 <= i < |lines| && CanSellAll(s, seller, o, lines[..i]) &&
    !CanSell(SellLines(s, seller, o, lines[..i]), lines[i])
  }

  /** A refusal names the first line that cannot be sold, with what the earlier lines left. */
  lemma {:induction false} RefusalNames(s: State, seller: string, o: nat, lines: seq<Line>)
    returns (i: int)
    requires Validate(s.products, s.stock, lines).Failure?
    ensures FirstRefused(s, seller, o, lines, i)
    ensures var t, p := SellLines(s, seller, o, lines[..i]), lines[i].product;
      p in t.stock && Validate(s.products, s.stock, lines) ==
        Failure(InsufficientStock(p, t.stock[p].quantity - t.stock[p].reserved))
  {
    var n := |lines| - 1;
    ValidateIsCanSellAll(s, seller, o, lines[..n]);
    SellLinesFrame(s, seller, o, lines[..n]);
    var v := Validate(s.products, s.stock, lines[..n]);
    if v.Failure? {
      i := RefusalNames(s, seller, o, lines[..n]);
      assert lines[..n][..i] == lines[..i];
    } else {
      i := n;
      LineRefused(s.stock, v.value, SellLines(s, seller, o, lines[..n]), lines[n]);
    }
  }

  lemma {:induction false} LineRefused(before: map<int, Stock>, v: Validation, t: State, l: Line)
    requires Tracks(v, before, t.stock) && ValidateLine(t.products, before, v, l).Failure?
    ensures !CanSell(t, l) && l.product in t.stock
    ensures ValidateLine(t.products, before, v, l) ==
      Failure(InsufficientStock(l.product, t.stock[l.product].quantity - t.stock[l.product].reserved))
  {
    ValidateLineIsCanSell(before, v, t, l);
  }

  function UnitValue(): Draft -> int { (d: Draft) => d.unitPrice * d.quantity }

  function Granted(): Draft -> int {
    (d: Draft) => if d.discount <= d.unitPrice * d.quantity then d.discount else d.unitPrice * d.quantity
  }

  /** A created order: a pending row of the seller, and its lines sold to it in turn. */
  lemma {:induction false} CreateEffects(
      s: State, seller: string, lines: seq<Line>, subtotal: int, discount: int, total: int, created: Created)
    requires Create(s, seller, lines, subtotal, discount, total) == Success(created)
    ensures var row := Order(seller, OrderPending, subtotal, discount, total);
      var empty := s.(orders := s.orders[s.nextOrder := row], nextOrder := s.nextOrder + 1);
      && created.order == s.nextOrder && created.state == SellLines(empty, seller, s.nextOrder, lines)
  {
    CreateIsSellLines(s, seller, lines, subtotal, discount, total);
  }

  /** A placed order is created with the sums of its lines: what they are worth, the
      discounts granted, and the difference. */
  lemma {:induction false} PlaceEffects(s: State, seller: string, drafts: seq<Draft>)
    ensures var value, discount := Sum(drafts, UnitValue()), Sum(drafts, Granted());
      Place(s, seller, drafts) == Create(s, seller, PriceAll(drafts), value, discount, value - discount)
  {
    PricedSums(drafts, ValueOf(drafts), DiscountAll(PriceAll(drafts)));
  }

  /** An order is placed exactly for the caller's own products, and when all its lines can be
      sold in turn. */
  lemma {:induction false} PlaceAnswers(s: State, seller: string, drafts: seq<Draft>)
    ensures var r, lines := Place(s, seller, drafts), PriceAll(drafts);
      var own := forall d <- drafts :: d.product in s.products && s.products[d.product].seller == seller;
      && (r == Failure(NotFound) <==> !own)
      && (own ==> r.Success? == Validate(s.products, s.stock, lines).Success?)
  {
    OwnDrafts(s.products, seller, drafts);
    ValidateErrors(s.products, s.stock, PriceAll(drafts));
  }

  lemma {:induction false} OwnDrafts(products: map<int, Product>, seller: string, drafts: seq<Draft>)
    ensures AllOwned(products, seller, PriceAll(drafts)) <==>
      forall d <- drafts :: d.product in products && products[d.product].seller == seller
  {
    var lines := PriceAll(drafts);
    assert forall i | 0 <= i < |drafts| :: lines[i].product == drafts[i].product && lines[i] in lines;
  }

  lemma {:induction false} ValidateErrors(products: map<int, Product>, stock: map<int, Stock>, lines: seq<Line>)
    ensures var r := Validate(products, stock, lines); r.Failure? ==> r.error.InsufficientStock?
  {
    if lines != [] {
      ValidateErrors(products, stock, lines[..|lines| - 1]);
    }
  }

  lemma {:induction false} PricedSums(drafts: seq<Draft>, value: int, discount: int)
    requires value == ValueOf(drafts) && discount == DiscountAll(PriceAll(drafts))
    ensures value == Sum(drafts, UnitValue()) && discount == Sum(drafts, Granted())
  {
    SumEqual(drafts, drafts, Value(), UnitValue());
    SumEqual(PriceAll(drafts), drafts, Discount(), Granted());
  }

  function NetIn(o: nat): Item -> int { (it: Item) => if it.order == o then it.total else 0 }

  function GivenIn(o: nat): Item -> int { (it: Item) => if it.order == o then it.discount else 0 }

  /** Who may add a line and what is answered, in the order of the checks. */
  lemma {:induction false} AddItemAnswers(s: State, actor: Actor, o: nat, l: Line)
    ensures var r := AddItem(s, actor, o, l);
      if o !in s.orders || !(actor.admin || s.orders[o].seller == actor.seller) then r == Failure(BadRequest)
      else if l.product !in s.products || s.products[l.product].seller != s.orders[o].seller then r == Failure(NotFound)
      else if CanSell(s, l) then r.Success?
      else
        l.product in s.stock &&
        r == Failure(InsufficientStock(l.product, s.stock[l.product].quantity - s.stock[l.product].reserved))
  {
    assert l in [l];
  }

  /** An added line is sold, and the order's money columns are written anew. */
  lemma {:induction false} AddItemEffects(s: State, actor: Actor, o: nat, l: Line, t: State)
    requires AddItem(s, actor, o, l) == Success(t)
    ensures o in s.orders
    ensures var sold, x := SellLine(s, s.orders[o].seller, o, l), s.orders[o];
      var net, discounts := Sum(sold.items, NetIn(o)), Sum(sold.items, GivenIn(o));
      t == sold.(orders := s.orders[o := Order(x.seller, x.status, net, discounts, net - discounts)])
  {
    RetotalMeans(SellLine(s, s.orders[o].seller, o, l), o);
  }

  lemma {:induction false} RetotalMeans(s: State, o: nat)
    requires o in s.orders
    ensures var x, net, discounts := s.orders[o], Sum(s.items, NetIn(o)), Sum(s.items, GivenIn(o));
      Retotal(s, o) == s.(orders := s.orders[o := Order(x.seller, x.status, net, discounts, net - discounts)])
  {
    SumEqual(s.items, s.items, TotalOf(o), NetIn(o));
    SumEqual(s.items, s.items, DiscountOf(o), GivenIn(o));
  }

  // ---- Undoing ----

  predicate Returns(tracked: set<int>, o: nat, it: Item) { it.order == o && it.product in tracked }

  /** The return movements: one per tracked item of the order, in item order. */
  lemma {:induction false} ReturnMovesAre(tracked: set<int>, o: nat, items: seq<Item>)
    ensures var back := Filter(items, (it: Item) => Returns(tracked, o, it));
      && |ReturnMoves(tracked, o, items)| == |back|
      && forall i | 0 <= i < |back| ::
           ReturnMoves(tracked, o, items)[i] == Movement(In, Return, o, back[i].product, back[i].quantity)
  {
    if items != [] {
      var n := |items| - 1;
      var mine := (it: Item) => Returns(tracked, o, it);
      ReturnMovesAre(tracked, o, items[..n]);
      assert Filter(items, mine) == Filter(items[..n], mine) + (if mine(items[n]) then [items[n]] else []);
    }
  }

  /** Undoing an order: each of its pending backorders is canceled, each tracked product gets
      back the order's units and keeps its reserve, and the returns are recorded. */
  lemma {:induction false} RestoreEffects(s: State, o: nat)
    ensures var t := Restore(s, o);
      && t.products == s.products && t.orders == s.orders && t.items == s.items
      && t.nextOrder == s.nextOrder && t.nextItem == s.nextItem
      && t.stock.Keys == s.stock.Keys && |t.backorders| == |s.backorders|
      && (forall p <- s.stock ::
            t.stock[p] == Stock(s.stock[p].quantity + Sum(s.items, UnitsOf(o, p)), s.stock[p].reserved))
      && (forall i | 0 <= i < |s.backorders| ::
            var b := s.backorders[i];
            t.backorders[i] ==
              if b.order == o && b.status == Pending
              then Backorder(b.seller, b.order, b.item, b.product, b.quantity, b.fulfilled, Canceled)
              else b)
      && t.movements == s.movements + ReturnMoves(s.stock.Keys, o, s.items)
  {
    PutBackAt(s.stock, o, s.items);
  }

  /** The units an item counts for. */
  lemma {:induction false} UnitsMean(o: nat, p: int, it: Item, l: Line)
    ensures UnitsOf(o, p)(it) == if it.order == o && it.product == p then it.quantity else 0
    ensures UnitsFor(p)(l) == if l.product == p then l.quantity else 0
  {
  }

  /** The status asked for is stored, whichever it is; stock comes back only on the way into
      canceled. */
  lemma {:induction false} UpdateStatusEffects(s: State, actor: Actor, o: nat, status: OrderStatus)
    ensures var r := UpdateStatus(s, actor, o, status);
      if o in s.orders && (actor.admin || s.orders[o].seller == actor.seller) then
        var x := s.orders[o];
        var row := Order(x.seller, status, x.subtotal, x.discount, x.total);
        var from := if status == OrderCanceled && x.status != OrderCanceled then Restore(s, o) else s;
        r == Success(from.(orders := s.orders[o := row]))
      else r == Failure(NotFound)
  {
  }

  /** Deleting an order takes its row, items and backorders, and nothing else, after undoing
      it unless it was canceled. */
  lemma {:induction false} DeleteEffects(s: State, actor: Actor, o: nat)
    ensures var r := Delete(s, actor, o);
      if o in s.orders && (actor.admin || s.orders[o].seller == actor.seller) then
        var from := if s.orders[o].status != OrderCanceled then Restore(s, o) else s;
        && r.Success?
        && r.value == from.(orders := s.orders - {o}, items := r.value.items, backorders := r.value.backorders)
        && (forall it :: it in r.value.items <==> it in s.items && it.order != o)
        && (forall b :: b in r.value.backorders <==> b in from.backorders && b.order != o)
      else r == Failure(NotFound)
  {
    var from := if o in s.orders && s.orders[o].status != OrderCanceled then Restore(s, o) else s;
    forall it ensures it in Filter(s.items, KeepItem(o)) <==> it in s.items && it.order != o {
      FilterMember(s.items, KeepItem(o), it);
    }
    forall b ensures b in Filter(from.backorders, KeepBackorder(o)) <==> b in from.backorders && b.order != o {
      FilterMember(from.backorders, KeepBackorder(o), b);
    }
  }

  // ---- Adjusting stock ----

  /** An adjustment is refused to strangers, and when it would take more than there is. */
  lemma {:induction false} MoveAnswers(s: State, actor: Actor, m: Movement)
    ensures var r := Move(s, actor, m);
      var quantity := if m.product in s.stock then s.stock[m.product].quantity else 0;
      && (r.Success? <==>
            && m.product in s.products && (actor.admin || s.products[m.product].seller == actor.seller)
            && (m.kind == Out ==> quantity >= m.quantity))
      && (r.Failure? ==> r.error == BadRequest)
  {
  }

  /** It writes the quantity of its product, one movement, and backorders of its product;
      reserves, other products, orders and items stay. */
  lemma {:induction false} MoveEffects(s: State, actor: Actor, m: Movement, moved: Moved)
    requires Move(s, actor, m) == Success(moved)
    ensures var t, row := moved.state, if m.product in s.stock then s.stock[m.product] else Stock(0, 0);
      && t.products == s.products && t.orders == s.orders && t.items == s.items
      && t.nextOrder == s.nextOrder && t.nextItem == s.nextItem
      && t.stock == s.stock[m.product :=
           Stock(if m.kind == In then row.quantity + m.quantity else row.quantity - m.quantity, row.reserved)]
      && t.movements == s.movements + [m]
      && |t.backorders| == |s.backorders|
      && (m.kind == Out ==> t.backorders == s.backorders && moved.done == [])
  {
  }

  /** What a backorder row gets of an arrival of `n` deliverable units. */
  function Gets(rows: seq<Backorder>, p: int, n: int, i: nat): int
    requires i < |rows|
  {
    var older := Sum(rows[..i], ShortOf(p));
    var left := if n > older then n - older else 0;
    if rows[i].product != p || rows[i].status != Pending then 0
    else if rows[i].quantity - rows[i].fulfilled <= left then rows[i].quantity - rows[i].fulfilled
    else left
  }

  /** An arrival covers what the stock lacks: each pending row gets, oldest first, as much as
      it lacks and the older ones leave, and is fulfilled once it lacks nothing. */
  lemma {:induction false} ArrivalEffects(s: State, actor: Actor, m: Movement, moved: Moved, i: nat)
    requires RowsShape(s.backorders) && m.kind == In && m.quantity > 0 && i < |s.backorders|
    requires Move(s, actor, m) == Success(moved)
    ensures |moved.state.backorders| == |s.backorders|
    ensures var row := if m.product in s.stock then s.stock[m.product] else Stock(0, 0);
      var lacked := if row.reserved > row.quantity then row.reserved - row.quantity else 0;
      var n := if lacked <= m.quantity then lacked else m.quantity;
      var b, take := s.backorders[i], Gets(s.backorders, m.product, n, i);
      moved.state.backorders[i] ==
        Backorder(b.seller, b.order, b.item, b.product, b.quantity, b.fulfilled + take,
                  if take > 0 && b.fulfilled + take >= b.quantity then Fulfilled else b.status)
  {
    var row := RowAt(s, m.product);
    var n := Covered(row, row.quantity + m.quantity);
    ArrivalIsAllocate(s.backorders, m, row, n);
    AllocateShare(s.backorders, m.product, n, i);
    GetsIsShare(s.backorders, m.product, n, i);
    assert RowShape(s.backorders[i]);
  }

  lemma {:induction false} GetsIsShare(rows: seq<Backorder>, p: int, n: int, i: nat)
    requires RowsShape(rows) && n >= 0 && i < |rows|
    ensures Gets(rows, p, n, i) == Share(rows, p, n, i)
  {
    assert RowShape(rows[i]);
    SumEqual(rows[..i], rows[..i], ShortOf(p), RemainingFor(p));
  }

  function ShortOf(p: int): Backorder -> int {
    (b: Backorder) => if b.product == p && b.status == Pending then b.quantity - b.fulfilled else 0
  }

  /** What the backed runs compare, row by row: the units that pending backorders still lack,
      and the units by which a stock row's reserve exceeds its quantity. */
  lemma {:induction false} RunOwesLack(s: State, steps: seq<Step>, p: int)
    requires Backed(s) && DisciplinedRun(s, steps)
    ensures var t := Run(s, steps); Sum(t.backorders, ShortOf(p)) >= 0
    ensures var t := Run(s, steps);
      p in t.stock ==> Sum(t.backorders, ShortOf(p)) >= t.stock[p].reserved - t.stock[p].quantity
  {
    RunBacked(s, steps);
    var t := Run(s, steps);
    SumEqual(t.backorders, t.backorders, RemainingFor(p), ShortOf(p));
    assert Owed(t, p) >= DeficitOf(t, p);
  }

  function ReservedOf(s: State, p: int): int { if p in s.stock then s.stock[p].reserved else 0 }

  lemma {:induction false} NextReserve(s: State, step: Step, p: int)
    requires !step.op.EditStock?
    ensures ReservedOf(Next(s, step), p) == ReservedOf(s, p)
  {
    match step.op
    case PlaceOrder(drafts) => TakeOutReserve(s.stock, PriceAll(drafts), p);
    case SetStatus(o, _) => PutBackAt(s.stock, o, s.items);
    case DeleteOrder(o) => PutBackAt(s.stock, o, s.items);
    case _ =>
  }

  lemma {:induction false} TakeOutReserve(stock: map<int, Stock>, lines: seq<Line>, p: int)
    ensures var t := TakeOutAll(stock, lines);
      t.Keys == stock.Keys && (p in stock ==> t[p].reserved == stock[p].reserved)
  {
    if lines != [] {
      TakeOutReserve(stock, lines[..|lines| - 1], p);
    }
  }

  /** In every run without manual edits no product's reserve ever changes; a row that comes
      up reserves nothing. */
  lemma {:induction false} RunReserve(s: State, steps: seq<Step>, p: int)
    requires forall step <- steps :: !step.op.EditStock?
    ensures ReservedOf(Run(s, steps), p) == ReservedOf(s, p)
  {
    if steps != [] {
      RunReserve(s, steps[..|steps| - 1], p);
      NextReserve(Run(s, steps[..|steps| - 1]), steps[|steps| - 1], p);
    }
  }

  // ---- The other writers ----

  /** A manual edit writes the named columns of one stock row. */
  lemma {:induction false} PatchEffects(s: State, actor: Actor, p: int, quantity: Option<int>, reserved: Option<int>)
    ensures var r := PatchStock(s, actor, p, quantity, reserved);
      if p in s.products && (actor.admin || s.products[p].seller == actor.seller) then
        var row := if p in s.stock then s.stock[p] else Stock(0, 0);
        r == Success(s.(stock := s.stock[p :=
          Stock(if quantity.Some? then quantity.value else row.quantity,
                if reserved.Some? then reserved.value else row.reserved)]))
      else r == Failure(NotFound)
  {
  }

  /** A public order is taken when every line is the store's and in stock on its own; it
      writes its row and its items, and no stock. */
  lemma {:induction false} CatalogOrderEffects(s: State, store: string, lines: seq<Line>)
    ensures var r := CatalogOrder(s, store, lines);
      && (r.Success? <==>
            && lines != []
            && (forall l <- lines :: l.product in s.products && s.products[l.product].seller == store)
            && (forall l <- lines :: l.product in s.stock ==>
                  s.stock[l.product].quantity - s.stock[l.product].reserved >= l.quantity))
      && (r.Failure? ==> r.error == BadRequest)
      && (r.Success? ==>
            var total := Sum(lines, (l: Line) => l.total);
            && r.value == s.(orders := s.orders[s.nextOrder := Order(store, OrderPending, total, 0, total)],
                             nextOrder := s.nextOrder + 1, nextItem := s.nextItem + |lines|, items := r.value.items)
            && |r.value.items| == |s.items| + |lines| && r.value.items[..|s.items|] == s.items
            && forall i | 0 <= i < |lines| ::
                 r.value.items[|s.items| + i] ==
                   Item(s.nextItem + i, s.nextOrder, lines[i].product, lines[i].quantity, lines[i].discount,
                        lines[i].total))
  {
    SumEqual(lines, lines, NetTotal(), (l: Line) => l.total);
  }
}
