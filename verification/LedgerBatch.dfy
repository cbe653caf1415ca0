/** The batch transaction that creates an order against one-by-one addItem. */
module LedgerBatch {
  import opened Seqs
  import opened Tables
  import opened LedgerSpec

  function SellLines(s: State, seller: string, o: nat, lines: seq<Line>): State {
    if lines == [] then s
    else SellLine(SellLines(s, seller, o, lines[..|lines| - 1]), seller, o, lines[|lines| - 1])
  }

  predicate CanSellAll(s: State, seller: string, o: nat, lines: seq<Line>) {
    lines == [] ||
    (CanSellAll(s, seller, o, lines[..|lines| - 1]) &&
     CanSell(SellLines(s, seller, o, lines[..|lines| - 1]), lines[|lines| - 1]))
  }

  lemma {:induction false} SellLinesFrame(s: State, seller: string, o: nat, lines: seq<Line>)
    ensures var t := SellLines(s, seller, o, lines);
      && t.products == s.products && t.orders == s.orders && t.nextOrder == s.nextOrder
      && t.stock == TakeOutAll(s.stock, lines) && t.stock.Keys == s.stock.Keys
      && t.movements == s.movements + SaleMoves(s.stock.Keys, o, lines)
      && t.items == s.items + NewItems(s.nextItem, o, lines) && t.nextItem == s.nextItem + |lines|
  {
    if lines != [] {
      var n := |lines| - 1;
      SellLinesFrame(s, seller, o, lines[..n]);
      assert NewItems(s.nextItem, o, lines) ==
             NewItems(s.nextItem, o, lines[..n]) + [NewItem(s.nextItem + n, o, lines[n])];
    }
  }

  /** The running map is the stock that the earlier lines would have left. */
  ghost predicate Tracks(v: Validation, before: map<int, Stock>, after: map<int, Stock>) {
    && before.Keys == after.Keys
    && (forall p <- v.running :: p in after && v.running[p] == after[p].Available())
    && (forall p <- after :: p in v.running || after[p] == before[p])
  }

  lemma ValidateLineIsCanSell(before: map<int, Stock>, v: Validation, t: State, l: Line)
    requires Tracks(v, before, t.stock)
    ensures var r := ValidateLine(t.products, before, v, l);
      && (r.Success? <==> CanSell(t, l))
      && (r.Success? ==>
            && r.value.owed == v.owed + [OwedBy(t, l)]
            && Tracks(r.value, before, TakeOut(t.stock, l.product, l.quantity)))
  {
  }

  lemma {:induction false} ValidateIsCanSellAll(s: State, seller: string, o: nat, lines: seq<Line>)
    ensures var r := Validate(s.products, s.stock, lines);
      && (r.Success? <==> CanSellAll(s, seller, o, lines))
      && (r.Success? ==>
            && |r.value.owed| == |lines|
            && Tracks(r.value, s.stock, SellLines(s, seller, o, lines).stock)
            && SellLines(s, seller, o, lines).backorders ==
               s.backorders + NewBackorders(seller, s.nextItem, o, lines, r.value.owed))
  {
    if lines != [] {
      var n := |lines| - 1;
      ValidateIsCanSellAll(s, seller, o, lines[..n]);
      var v := Validate(s.products, s.stock, lines[..n]);
      if v.Success? {
        ValidateLineIsCanSell(s.stock, v.value, SellLines(s, seller, o, lines[..n]), lines[n]);
        SellLinesFrame(s, seller, o, lines[..n]);
        SellsBackorder(s, seller, o, lines, v.value.owed);
      }
    }
  }

  lemma {:induction false} SellsBackorder(s: State, seller: string, o: nat, lines: seq<Line>, owed: seq<int>)
    requires |lines| == |owed| + 1
    requires SellLines(s, seller, o, lines[..|owed|]).backorders ==
             s.backorders + NewBackorders(seller, s.nextItem, o, lines[..|owed|], owed)
    ensures var x := OwedBy(SellLines(s, seller, o, lines[..|owed|]), lines[|owed|]);
      SellLines(s, seller, o, lines).backorders ==
        s.backorders + NewBackorders(seller, s.nextItem, o, lines, owed + [x])
  {
    var n := |owed|;
    var t := SellLines(s, seller, o, lines[..n]);
    var x := OwedBy(t, lines[n]);
    SellLinesFrame(s, seller, o, lines[..n]);
    assert (owed + [x])[..n] == owed;
  }

  /** Once a prefix fails, so does the whole list, with the same error. */
  lemma {:induction false} FailsForGood(products: map<int, Product>, stock: map<int, Stock>, lines: seq<Line>, i: nat)
    requires i <= |lines| && Validate(products, stock, lines[..i]).Failure?
    ensures Validate(products, stock, lines) == Validate(products, stock, lines[..i])
  {
    if i < |lines| {
      var n := |lines| - 1;
      assert lines[..n][..i] == lines[..i];
      FailsForGood(products, stock, lines[..n], i);
    } else {
      assert lines[..i] == lines;
    }
  }

  function WithOrder(s: State, order: Order): State {
    s.(orders := s.orders[s.nextOrder := order], nextOrder := s.nextOrder + 1)
  }

  /** Creating an order sells its lines one after another to the empty order. */
  lemma CreateIsSellLines(s: State, seller: string, lines: seq<Line>, subtotal: int, discount: int, total: int)
    ensures var r := Create(s, seller, lines, subtotal, discount, total);
      var s0 := WithOrder(s, Order(seller, OrderPending, subtotal, discount, total));
      && (r.Success? <==> AllOwned(s.products, seller, lines) && CanSellAll(s0, seller, s.nextOrder, lines))
      && (r.Success? ==> r.value.order == s.nextOrder && r.value.state == SellLines(s0, seller, s.nextOrder, lines))
  {
    var s0 := WithOrder(s, Order(seller, OrderPending, subtotal, discount, total));
    ValidateIsCanSellAll(s0, seller, s.nextOrder, lines);
    SellLinesFrame(s0, seller, s.nextOrder, lines);
  }

  function AddAll(s: State, actor: Actor, o: nat, lines: seq<Line>): Result<State> {
    if lines == [] then Success(s)
    else
      match AddAll(s, actor, o, lines[..|lines| - 1])
      case Failure(e) => Failure(e)
      case Success(t) => AddItem(t, actor, o, lines[|lines| - 1])
  }

  /** Equal in every table, the money columns of order `o` aside. */
  ghost predicate SameButTotals(s: State, t: State, o: nat) {
    && o in s.orders && o in t.orders
    && s.orders[o].seller == t.orders[o].seller && s.orders[o].status == t.orders[o].status
    && s == t.(orders := t.orders[o := s.orders[o]])
  }

  lemma AddItemIsSellLine(s: State, t: State, actor: Actor, o: nat, l: Line)
    requires SameButTotals(s, t, o) && actor.MayTouch(s.orders[o].seller)
    ensures var r := AddItem(t, actor, o, l);
      && (r.Success? <==> AllOwned(s.products, s.orders[o].seller, [l]) && CanSell(s, l))
      && (r.Success? ==> SameButTotals(SellLine(s, s.orders[o].seller, o, l), r.value, o))
  {
    var r := AddItem(t, actor, o, l);
    if r.Success? {
      var s1 := SellLine(s, s.orders[o].seller, o, l);
      assert r.value.orders[o := s1.orders[o]] == t.orders[o := s.orders[o]];
    }
  }

  lemma {:induction false} AddAllIsSellLines(s: State, t: State, actor: Actor, o: nat, lines: seq<Line>)
    requires SameButTotals(s, t, o) && actor.MayTouch(s.orders[o].seller)
    ensures var r := AddAll(t, actor, o, lines);
      var seller := s.orders[o].seller;
      && (r.Success? <==> AllOwned(s.products, seller, lines) && CanSellAll(s, seller, o, lines))
      && (r.Success? ==> SameButTotals(SellLines(s, seller, o, lines), r.value, o))
  {
    if lines != [] {
      var n := |lines| - 1;
      var seller := s.orders[o].seller;
      AddAllIsSellLines(s, t, actor, o, lines[..n]);
      SellLinesFrame(s, seller, o, lines[..n]);
      assert lines == lines[..n] + [lines[n]];
      assert AllOwned(s.products, seller, lines) <==>
             AllOwned(s.products, seller, lines[..n]) && AllOwned(s.products, seller, [lines[n]]);
      var r := AddAll(t, actor, o, lines[..n]);
      if r.Success? {
        AddItemIsSellLine(SellLines(s, seller, o, lines[..n]), r.value, actor, o, lines[n]);
      }
    }
  }

  /** The main result: for any line list, repeated products included, `create` succeeds
      exactly when adding the lines one at a time to an empty order does, and then both
      leave the same stock, items, backorders and movements. */
  lemma BatchRefinesAddItem(s: State, actor: Actor, lines: seq<Line>, subtotal: int, discount: int, total: int)
    ensures var batch := Create(s, actor.seller, lines, subtotal, discount, total);
      var empty := Create(s, actor.seller, [], 0, 0, 0);
      && empty.Success?
      && var single := AddAll(empty.value.state, actor, empty.value.order, lines);
      && (batch.Success? <==> single.Success?)
      && (batch.Success? ==> SameButTotals(batch.value.state, single.value, batch.value.order))
  {
    var o := s.nextOrder;
    CreateIsSellLines(s, actor.seller, lines, subtotal, discount, total);
    CreateIsSellLines(s, actor.seller, [], 0, 0, 0);
    var s0 := WithOrder(s, Order(actor.seller, OrderPending, subtotal, discount, total));
    var s1 := Create(s, actor.seller, [], 0, 0, 0).value.state;
    assert s1.orders[o := s0.orders[o]] == s0.orders;
    AddAllIsSellLines(s0, s1, actor, o, lines);
  }

  // ---- What is reported and what is owed ----

  function Shortfall(): Oversold -> int { (x: Oversold) => x.requested - Max(x.available, 0) }

  function Units(): int -> int { (n: int) => n }

  /** The shortfalls reported to the seller add up to the units recorded as owed. */
  lemma {:induction false} OversoldIsOwed(products: map<int, Product>, stock: map<int, Stock>, lines: seq<Line>)
    ensures var r := Validate(products, stock, lines);
      r.Success? ==> Sum(r.value.oversold, Shortfall()) == Sum(r.value.owed, Units())
  {
    if lines != [] {
      var n := |lines| - 1;
      OversoldIsOwed(products, stock, lines[..n]);
      var v, r := Validate(products, stock, lines[..n]), Validate(products, stock, lines);
      if r.Success? {
        ValidateLength(products, stock, lines[..n]);
        ValidateLength(products, stock, lines);
        SumAppend(v.value.owed, r.value.owed[n], Units());
        if r.value.oversold != v.value.oversold {
          SumAppend(v.value.oversold, r.value.oversold[|v.value.oversold|], Shortfall());
        }
      }
    }
  }

  lemma PricedQuantities(drafts: seq<Draft>)
    requires forall d <- drafts :: d.quantity > 0
    ensures forall l <- PriceAll(drafts) :: l.quantity > 0
  {
    forall i | 0 <= i < |drafts| ensures PriceAll(drafts)[i].quantity > 0 {
      assert drafts[i] in drafts;
    }
  }
}
