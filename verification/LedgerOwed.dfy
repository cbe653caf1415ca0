/** The units that pending backorders owe against the deficit the stock row shows:
    owed = max(reserved - quantity, 0). */
module LedgerOwed {
  import opened Seqs
  import opened Tables
  import opened LedgerSpec
  import opened LedgerBatch
  import opened LedgerAllocation
  import opened LedgerSound

  predicate OpenOwner(s: State, b: Backorder) {
    b.status == Pending && b.order in s.orders ==> s.orders[b.order].status != OrderCanceled
  }

  ghost predicate Backed(s: State) {
    && Sound(s)
    && (forall p :: Owed(s, p) >= DeficitOf(s, p))
    && (forall o: nat, p :: PendingOf(s, o, p) <= QuantityOf(s, o, p))
    && (forall b <- s.backorders :: OpenOwner(s, b))
  }

  /** An `out` adjustment that is carried out does not dip into reserved units. */
  predicate SparesReserve(s: State, m: Movement) {
    var row := RowAt(s, m.product);
    m.kind == In || row.quantity < m.quantity || row.reserved <= row.quantity - m.quantity
  }

  predicate Disciplined(s: State, step: Step) {
    && Validated(step)
    && match step.op
       case AddLine(o, _) => o in s.orders ==> s.orders[o].status != OrderCanceled
       case MoveStock(m) => SparesReserve(s, m)
       case EditStock(_, _, _) => false
       case _ => true
  }

  // ---- How each write moves the three sums ----

  lemma SellLineSums(s: State, seller: string, o: nat, l: Line, p: int, x: nat)
    ensures var t := SellLine(s, seller, o, l);
      var owed := Max(OwedBy(s, l), 0);
      && Owed(t, p) == Owed(s, p) + (if l.product == p then owed else 0)
      && PendingOf(t, x, p) == PendingOf(s, x, p) + (if x == o && l.product == p then owed else 0)
      && QuantityOf(t, x, p) == QuantityOf(s, x, p) + (if x == o && l.product == p then l.quantity else 0)
  {
    var b := Backorder(seller, o, s.nextItem, l.product, OwedBy(s, l), 0, Pending);
    SumAppend(s.backorders, b, RemainingFor(p));
    SumAppend(s.backorders, b, RemainingOf(x, p));
    SumAppend(s.items, NewItem(s.nextItem, o, l), UnitsOf(x, p));
    if OwedBy(s, l) <= 0 {
      assert SellLine(s, seller, o, l).backorders == s.backorders;
    }
  }

  lemma CancelSums(s: State, o: nat, p: int, x: nat)
    ensures var t := Restore(s, o);
      && Owed(t, p) + PendingOf(s, o, p) == Owed(s, p)
      && PendingOf(t, x, p) == (if x == o then 0 else PendingOf(s, x, p))
      && QuantityOf(t, x, p) == QuantityOf(s, x, p)
  {
    var t := Restore(s, o);
    SumSplit(t.backorders, s.backorders, RemainingFor(p), RemainingOf(o, p), RemainingFor(p));
    if x == o {
      SumZero(t.backorders, RemainingOf(o, p));
    } else {
      SumEqual(t.backorders, s.backorders, RemainingOf(x, p), RemainingOf(x, p));
    }
  }

  lemma DropSums(s: State, o: nat, p: int, x: nat)
    requires forall b <- s.backorders :: b.order != o || b.status != Pending
    ensures var t := Drop(s, o);
      && Owed(t, p) == Owed(s, p)
      && PendingOf(t, x, p) == PendingOf(s, x, p)
      && QuantityOf(t, x, p) == (if x == o then 0 else QuantityOf(s, x, p))
  {
    var t := Drop(s, o);
    SumFilter(s.backorders, KeepBackorder(o), RemainingFor(p));
    SumFilter(s.backorders, KeepBackorder(o), RemainingOf(x, p));
    if x == o {
      forall it <- t.items ensures UnitsOf(o, p)(it) == 0 {
        FilterMember(s.items, KeepItem(o), it);
      }
      SumZero(t.items, UnitsOf(o, p));
    } else {
      SumFilter(s.items, KeepItem(o), UnitsOf(x, p));
    }
  }

  lemma {:induction false} PutBackAt(stock: map<int, Stock>, o: nat, items: seq<Item>)
    ensures var t := PutBackAll(stock, o, items);
      && t.Keys == stock.Keys
      && forall p <- stock :: t[p] == Stock(stock[p].quantity + Sum(items, UnitsOf(o, p)), stock[p].reserved)
  {
    if items != [] {
      PutBackAt(stock, o, items[..|items| - 1]);
    }
  }

  lemma NonNegativeSums(s: State, o: nat, p: int)
    requires Sound(s)
    ensures 0 <= PendingOf(s, o, p) <= Owed(s, p)
    ensures QuantityOf(s, o, p) >= 0
  {
    forall b <- s.backorders ensures 0 <= RemainingOf(o, p)(b) <= RemainingFor(p)(b) {
      assert BackorderSound(s, b);
    }
    SumNonNegative(s.backorders, RemainingOf(o, p));
    SumAtMost(s.backorders, s.backorders, RemainingOf(o, p), RemainingFor(p));
    forall it <- s.items ensures UnitsOf(o, p)(it) >= 0 {
      assert ItemSound(s, it);
    }
    SumNonNegative(s.items, UnitsOf(o, p));
  }

  // ---- Owed never falls behind the deficit ----

  lemma SellLineBacked(s: State, o: nat, l: Line)
    requires Backed(s) && l.quantity > 0
    requires o in s.orders && s.orders[o].status != OrderCanceled && AllOwned(s.products, s.orders[o].seller, [l])
    ensures Backed(SellLine(s, s.orders[o].seller, o, l))
  {
    var t := SellLine(s, s.orders[o].seller, o, l);
    SellLineSound(s, o, l);
    forall p ensures Owed(t, p) >= DeficitOf(t, p) {
      SellLineSums(s, s.orders[o].seller, o, l, p, o);
      assert Owed(s, p) >= DeficitOf(s, p);
    }
    forall x: nat, p ensures PendingOf(t, x, p) <= QuantityOf(t, x, p) {
      SellLineSums(s, s.orders[o].seller, o, l, p, x);
      assert PendingOf(s, x, p) <= QuantityOf(s, x, p);
    }
    forall b <- t.backorders ensures OpenOwner(t, b) {
      assert b in s.backorders || b in OwedRow(s.orders[o].seller, o, s.nextItem, l.product, OwedBy(s, l));
    }
  }

  lemma {:induction false} SellLinesBacked(s: State, o: nat, lines: seq<Line>)
    requires Backed(s) && forall l <- lines :: l.quantity > 0
    requires o in s.orders && s.orders[o].status != OrderCanceled && AllOwned(s.products, s.orders[o].seller, lines)
    ensures Backed(SellLines(s, s.orders[o].seller, o, lines))
  {
    if lines != [] {
      var n := |lines| - 1;
      SellLinesBacked(s, o, lines[..n]);
      SellLinesFrame(s, s.orders[o].seller, o, lines[..n]);
      assert lines[n] in lines;
      SellLineBacked(SellLines(s, s.orders[o].seller, o, lines[..n]), o, lines[n]);
    }
  }

  /** Rewriting order rows, or inserting items, leaves every sum at least as backed. */
  lemma BackedElsewhere(s: State, t: State)
    requires Backed(s) && Sound(t) && t.stock == s.stock && t.backorders == s.backorders
    requires forall o: nat, p :: QuantityOf(s, o, p) <= QuantityOf(t, o, p)
    requires forall o <- s.orders ::
      o in t.orders && (t.orders[o].status == OrderCanceled ==> s.orders[o].status == OrderCanceled)
    ensures Backed(t)
  {
    forall p ensures Owed(t, p) >= DeficitOf(t, p) {
      assert Owed(s, p) >= DeficitOf(s, p);
    }
    forall o: nat, p ensures PendingOf(t, o, p) <= QuantityOf(t, o, p) {
      assert PendingOf(s, o, p) <= QuantityOf(s, o, p);
    }
    forall b <- t.backorders ensures OpenOwner(t, b) {
      assert OpenOwner(s, b) && BackorderSound(s, b);
    }
  }

  lemma {:induction false} CreateBacked(
      s: State, seller: string, lines: seq<Line>, subtotal: int, discount: int, total: int, created: Created)
    requires Backed(s) && forall l <- lines :: l.quantity > 0
    requires Create(s, seller, lines, subtotal, discount, total) == Success(created)
    ensures Backed(created.state)
  {
    var s0 := WithOrder(s, Order(seller, OrderPending, subtotal, discount, total));
    CreateIsSellLines(s, seller, lines, subtotal, discount, total);
    SoundElsewhere(s, s0);
    BackedElsewhere(s, s0);
    SellLinesBacked(s0, s.nextOrder, lines);
  }

  lemma AddItemBacked(s: State, actor: Actor, o: nat, l: Line)
    requires Backed(s) && l.quantity > 0 && (o in s.orders ==> s.orders[o].status != OrderCanceled)
    ensures var r := AddItem(s, actor, o, l); r.Success? ==> Backed(r.value)
  {
    var r := AddItem(s, actor, o, l);
    if r.Success? {
      AddItemSound(s, actor, o, l);
      SellLineBacked(s, o, l);
      BackedElsewhere(SellLine(s, s.orders[o].seller, o, l), r.value);
    }
  }

  /** A cancel may return more than it stops owing, never less. */
  lemma RestoreBacked(s: State, o: nat)
    requires Backed(s)
    ensures Backed(Restore(s, o))
    ensures forall b <- Restore(s, o).backorders :: b.order != o || b.status != Pending
  {
    var t := Restore(s, o);
    RestoreSound(s, o);
    PutBackAt(s.stock, o, s.items);
    forall p ensures Owed(t, p) >= DeficitOf(t, p) {
      CancelSums(s, o, p, o);
      NonNegativeSums(t, o, p);
      NonNegativeSums(s, o, p);
      assert Owed(s, p) >= DeficitOf(s, p) && PendingOf(s, o, p) <= QuantityOf(s, o, p);
    }
    forall x: nat, p ensures PendingOf(t, x, p) <= QuantityOf(t, x, p) {
      CancelSums(s, o, p, x);
      NonNegativeSums(s, x, p);
      assert PendingOf(s, x, p) <= QuantityOf(s, x, p);
    }
    forall i | 0 <= i < |t.backorders| ensures OpenOwner(t, t.backorders[i]) {
      assert OpenOwner(s, s.backorders[i]);
    }
  }

  lemma UpdateStatusBacked(s: State, actor: Actor, o: nat, status: OrderStatus)
    requires Backed(s)
    ensures var r := UpdateStatus(s, actor, o, status); r.Success? ==> Backed(r.value)
  {
    var r := UpdateStatus(s, actor, o, status);
    if r.Success? {
      UpdateStatusSound(s, actor, o, status);
      RestoreBacked(s, o);
      if status == OrderCanceled && s.orders[o].status != OrderCanceled {
        var t := r.value;
        var s1 := Restore(s, o);
        assert forall x: nat, p ::
          PendingOf(s1, x, p) <= QuantityOf(s1, x, p) ==> PendingOf(t, x, p) <= QuantityOf(t, x, p);
        assert forall p :: Owed(s1, p) >= DeficitOf(s1, p) ==> Owed(t, p) >= DeficitOf(t, p);
        forall b <- t.backorders ensures OpenOwner(t, b) {
          assert OpenOwner(s1, b);
        }
      } else {
        BackedElsewhere(s, r.value);
      }
    }
  }

  lemma DropBacked(s: State, o: nat)
    requires Backed(s) && forall b <- s.backorders :: b.order != o || b.status != Pending
    ensures Backed(Drop(s, o))
  {
    var t := Drop(s, o);
    DropSound(s, o);
    forall p ensures Owed(t, p) >= DeficitOf(t, p) {
      DropSums(s, o, p, o);
      assert Owed(s, p) >= DeficitOf(s, p);
    }
    forall x: nat, p ensures PendingOf(t, x, p) <= QuantityOf(t, x, p) {
      DropSums(s, o, p, x);
      assert PendingOf(s, x, p) <= QuantityOf(s, x, p);
      if x == o {
        SumZero(s.backorders, RemainingOf(o, p));
      }
    }
    forall b <- t.backorders ensures OpenOwner(t, b) {
      FilterMember(s.backorders, KeepBackorder(o), b);
      assert OpenOwner(s, b);
    }
  }

  lemma DeleteBacked(s: State, actor: Actor, o: nat)
    requires Backed(s)
    ensures var r := Delete(s, actor, o); r.Success? ==> Backed(r.value)
  {
    if InTenant(s, actor, o) {
      if s.orders[o].status != OrderCanceled {
        RestoreBacked(s, o);
        DropBacked(Restore(s, o), o);
      } else {
        forall b <- s.backorders ensures b.order != o || b.status != Pending {
          assert OpenOwner(s, b);
        }
        DropBacked(s, o);
      }
    }
  }

  lemma {:induction false} ArrivalElsewhere(rows: seq<Backorder>, m: Movement, row: Stock, p: int)
    requires RowsShape(rows) && p != m.product
    ensures Sum(AllocateArrival(rows, m, row).rows, RemainingFor(p)) == Sum(rows, RemainingFor(p))
  {
    var after := AllocateArrival(rows, m, row).rows;
    ArrivalKeeps(rows, m, row);
    forall i | 0 <= i < |rows| ensures RemainingFor(p)(after[i]) == RemainingFor(p)(rows[i]) {
    }
    SumEqual(after, rows, RemainingFor(p), RemainingFor(p));
  }

  /** The pending rows always hold enough to place every unit of an arrival. */
  lemma {:induction false} ArrivalPlacesAll(s: State, m: Movement)
    requires RowsShape(s.backorders) && m.quantity > 0
    requires Owed(s, m.product) >= RowAt(s, m.product).Deficit()
    ensures var row := RowAt(s, m.product);
      var a := AllocateArrival(s.backorders, m, row);
      && (m.kind == In ==> a.left == 0)
      && Sum(a.rows, RemainingFor(m.product)) ==
         Owed(s, m.product) - (if m.kind == In then Covered(row, row.quantity + m.quantity) else 0)
  {
    var row := RowAt(s, m.product);
    if m.kind == In {
      var n := Covered(row, row.quantity + m.quantity);
      ArrivalIsAllocate(s.backorders, m, row, n);
      AllocateLeft(s.backorders, m.product, n);
    }
  }

  lemma MoveBacked(s: State, actor: Actor, m: Movement)
    requires Backed(s) && m.quantity > 0 && SparesReserve(s, m)
    ensures var r := Move(s, actor, m); r.Success? ==> Backed(r.value.state)
  {
    var r := Move(s, actor, m);
    if r.Success? {
      var t := r.value.state;
      MoveSound(s, actor, m);
      SoundRows(s);
      ArrivalKeeps(s.backorders, m, RowAt(s, m.product));
      forall p ensures Owed(t, p) >= DeficitOf(t, p) {
        assert Owed(s, p) >= DeficitOf(s, p) && Owed(s, m.product) >= DeficitOf(s, m.product);
        NonNegativeSums(t, 0, p);
        if p == m.product {
          ArrivalPlacesAll(s, m);
        } else {
          ArrivalElsewhere(s.backorders, m, RowAt(s, m.product), p);
        }
      }
      forall o: nat, p ensures PendingOf(t, o, p) <= QuantityOf(t, o, p) {
        assert PendingOf(s, o, p) <= QuantityOf(s, o, p);
        SumAtMost(t.backorders, s.backorders, RemainingOf(o, p), RemainingOf(o, p));
      }
      forall b <- t.backorders ensures OpenOwner(t, b) {
        var i :| 0 <= i < |t.backorders| && t.backorders[i] == b;
        assert OpenOwner(s, s.backorders[i]);
      }
    }
  }

  lemma CatalogOrderBacked(s: State, store: string, lines: seq<Line>)
    requires Backed(s) && forall l <- lines :: l.quantity > 0
    ensures var r := CatalogOrder(s, store, lines); r.Success? ==> Backed(r.value)
  {
    var r := CatalogOrder(s, store, lines);
    if r.Success? {
      CatalogOrderSound(s, store, lines);
      forall o: nat, p ensures QuantityOf(s, o, p) <= QuantityOf(r.value, o, p) {
        var added := NewItems(s.nextItem, s.nextOrder, lines);
        SumConcat(s.items, added, UnitsOf(o, p));
        forall it <- added ensures UnitsOf(o, p)(it) >= 0 {
          assert it in r.value.items && ItemSound(r.value, it);
        }
        SumNonNegative(added, UnitsOf(o, p));
      }
      BackedElsewhere(s, r.value);
    }
  }

  lemma {:induction false} PlaceBacked(s: State, seller: string, drafts: seq<Draft>, placed: Created)
    requires Backed(s) && forall d <- drafts :: d.quantity > 0
    requires Place(s, seller, drafts) == Success(placed)
    ensures Backed(placed.state)
  {
    var lines, value := PriceAll(drafts), ValueOf(drafts);
    var discount := DiscountAll(lines);
    assert forall l <- lines :: l.quantity > 0 by {
      PricedQuantities(drafts);
    }
    CreateBacked(s, seller, lines, value, discount, value - discount, placed);
  }

  lemma NextBacked(s: State, step: Step)
    requires Backed(s) && Disciplined(s, step)
    ensures Backed(Next(s, step))
  {
    match step.op
    case PlaceOrder(drafts) =>
      var r := Place(s, step.actor.seller, drafts);
      if r.Success? {
        PlaceBacked(s, step.actor.seller, drafts, r.value);
      }
    case AddLine(o, d) => AddItemBacked(s, step.actor, o, Price(d));
    case SetStatus(o, status) => UpdateStatusBacked(s, step.actor, o, status);
    case DeleteOrder(o) => DeleteBacked(s, step.actor, o);
    case MoveStock(m) => MoveBacked(s, step.actor, m);
    case PublicOrder(store, lines) => CatalogOrderBacked(s, store, lines);
    case EditStock(_, _, _) =>
  }

  predicate DisciplinedRun(s: State, steps: seq<Step>) {
    steps == [] ||
    (DisciplinedRun(s, steps[..|steps| - 1]) && Disciplined(Run(s, steps[..|steps| - 1]), steps[|steps| - 1]))
  }

  lemma {:induction false} ArrivalsPlaced(s: State)
    requires Backed(s)
    ensures forall m: Movement :: m.kind == In && m.quantity > 0 ==>
      AllocateArrival(s.backorders, m, RowAt(s, m.product)).left == 0
  {
    SoundRows(s);
    forall m: Movement | m.kind == In && m.quantity > 0
      ensures AllocateArrival(s.backorders, m, RowAt(s, m.product)).left == 0
    {
      assert Owed(s, m.product) >= DeficitOf(s, m.product);
      ArrivalPlacesAll(s, m);
    }
  }

  /** Over every run of order, status, delete, catalog and stock requests, the pending
      owed units of a product are at least what its stock row lacks, so every arrival
      finds pending rows for all the units it covers. */
  lemma {:induction false} RunBacked(s: State, steps: seq<Step>)
    requires Backed(s) && DisciplinedRun(s, steps)
    ensures Backed(Run(s, steps))
    ensures forall m: Movement :: m.kind == In && m.quantity > 0 ==>
      AllocateArrival(Run(s, steps).backorders, m, RowAt(Run(s, steps), m.product)).left == 0
  {
    if steps != [] {
      var n := |steps| - 1;
      RunBacked(s, steps[..n]);
      NextBacked(Run(s, steps[..n]), steps[n]);
    }
    ArrivalsPlaced(Run(s, steps));
  }

  // ---- Lines added to canceled orders ----

  /** Deleting a canceled order drops what it still owes and returns nothing: owed stays at or
      above the deficit exactly when the order owes no more than the two differ by. */
  lemma {:induction false} DeleteCanceledIff(s: State, actor: Actor, o: nat, p: int)
    requires InTenant(s, actor, o) && s.orders[o].status == OrderCanceled
    ensures var r := Delete(s, actor, o);
      && r.Success?
      && (Owed(r.value, p) >= DeficitOf(r.value, p) <==> PendingOf(s, o, p) <= Owed(s, p) - DeficitOf(s, p))
  {
    DroppedOwed(s, o, p);
  }

  lemma {:induction false} CanceledOwesNothing(s: State, o: nat, p: int)
    requires Backed(s) && o in s.orders && s.orders[o].status == OrderCanceled
    ensures PendingOf(s, o, p) == 0
  {
    forall b <- s.backorders ensures RemainingOf(o, p)(b) == 0 {
      assert OpenOwner(s, b);
    }
    SumZero(s.backorders, RemainingOf(o, p));
  }

  lemma {:induction false} AddedSums(s: State, actor: Actor, o: nat, l: Line, sold: State)
    requires AddItem(s, actor, o, l) == Success(sold) && l.quantity > 0
    ensures var p, owed := l.product, OwedBy(s, l);
      && owed >= 0 && o in sold.orders && sold.orders[o].status == s.orders[o].status
      && sold.orders[o].seller == s.orders[o].seller
      && Owed(sold, p) == Owed(s, p) + owed
      && PendingOf(sold, o, p) == PendingOf(s, o, p) + owed
      && DeficitOf(sold, p) == DeficitOf(s, p) + owed
  {
    var t := SellLine(s, s.orders[o].seller, o, l);
    SellLineSums(s, s.orders[o].seller, o, l, l.product, o);
    SellLineDeficit(s, s.orders[o].seller, o, l);
    assert sold.backorders == t.backorders && sold.stock == t.stock;
  }

  lemma {:induction false} SellLineDeficit(s: State, seller: string, o: nat, l: Line)
    requires l.quantity > 0
    ensures OwedBy(s, l) >= 0
    ensures DeficitOf(SellLine(s, seller, o, l), l.product) == DeficitOf(s, l.product) + OwedBy(s, l)
  {
  }

  /** What a line added to a canceled order leaves owed is lost when that order is deleted:
      the stock row goes on lacking the units, and no row owes them. */
  lemma {:induction false} SoldOnCanceledIsLost(s: State, actor: Actor, o: nat, l: Line, sold: State)
    requires Backed(s) && o in s.orders && s.orders[o].status == OrderCanceled && l.quantity > 0
    requires Owed(s, l.product) == DeficitOf(s, l.product) && AddItem(s, actor, o, l) == Success(sold)
    ensures var r := Delete(sold, actor, o);
      && r.Success?
      && Owed(sold, l.product) == DeficitOf(sold, l.product)
      && Owed(r.value, l.product) == DeficitOf(r.value, l.product) - OwedBy(s, l)
  {
    CanceledOwesNothing(s, o, l.product);
    AddedSums(s, actor, o, l, sold);
    DroppedOwed(sold, o, l.product);
  }

  lemma {:induction false} DroppedOwed(s: State, o: nat, p: int)
    ensures Owed(Drop(s, o), p) == Owed(s, p) - PendingOf(s, o, p) && DeficitOf(Drop(s, o), p) == DeficitOf(s, p)
  {
    SumFilterSplit(s.backorders, KeepBackorder(o), RemainingFor(p), RemainingOf(o, p));
  }

  /** Such a run: one unit of a sold-out product is sold on a canceled order, and the order is
      deleted. Nothing is owed any more, and a unit is lacking. */
  lemma {:induction false} CanceledOrderSellsAndGoes(ana: Actor, p: int)
    ensures var s := State(map[p := Product(ana.seller, true)], map[p := Stock(0, 0)],
                           map[0 := Order(ana.seller, OrderCanceled, 0, 0, 0)], [], [], [], 1, 0);
      var sold := AddItem(s, ana, 0, Line(p, 1, 0, 0));
      && Backed(s) && sold.Success?
      && var gone := Delete(sold.value, ana, 0);
      && gone.Success? && Owed(gone.value, p) == 0 && DeficitOf(gone.value, p) == 1
  {
    var s := State(map[p := Product(ana.seller, true)], map[p := Stock(0, 0)],
                   map[0 := Order(ana.seller, OrderCanceled, 0, 0, 0)], [], [], [], 1, 0);
    var l := Line(p, 1, 0, 0);
    assert AllOwned(s.products, ana.seller, [l]) && OwedBy(s, l) == 1;
    SoldOnCanceledIsLost(s, ana, 0, l, AddItem(s, ana, 0, l).value);
  }
}
