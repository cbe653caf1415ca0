/** What every request keeps true of the rows: their columns, their owners and their
    first-in-first-out order. */
module LedgerSound {
  import opened Seqs
  import opened Tables
  import opened LedgerSpec
  import opened LedgerBatch
  import opened LedgerAllocation

  /** Requests that pass the input schemas: quantities are positive. */
  predicate Validated(step: Step) {
    match step.op
    case PlaceOrder(drafts) => forall d <- drafts :: d.quantity > 0
    case AddLine(_, d) => d.quantity > 0
    case MoveStock(m) => m.quantity > 0
    case PublicOrder(_, lines) => forall l <- lines :: l.quantity > 0
    case _ => true
  }

  predicate ItemSound(s: State, it: Item) {
    && it.order in s.orders && it.quantity > 0
    && it.product in s.products && s.products[it.product].seller == s.orders[it.order].seller
  }

  predicate BackorderSound(s: State, b: Backorder) {
    && RowShape(b) && b.order in s.orders && b.seller == s.orders[b.order].seller
    && b.product in s.products && s.products[b.product].seller == b.seller
  }

  predicate Sound(s: State) {
    && (forall o <- s.orders :: o < s.nextOrder)
    && (forall it <- s.items :: ItemSound(s, it))
    && (forall b <- s.backorders :: BackorderSound(s, b))
    && Fifo(s.backorders)
  }

  lemma SoundRows(s: State)
    requires Sound(s)
    ensures RowsShape(s.backorders)
  {
    forall b <- s.backorders ensures RowShape(b) {
      assert BackorderSound(s, b);
    }
  }

  /** Orders may change status and totals; none loses its seller. */
  predicate SameSellers(s: State, t: State) {
    && s.products == t.products
    && (forall o <- s.orders :: o in t.orders && t.orders[o].seller == s.orders[o].seller)
  }

  lemma SoundElsewhere(s: State, t: State)
    requires Sound(s) && SameSellers(s, t)
    ensures forall it <- s.items :: ItemSound(t, it)
    ensures forall b <- s.backorders :: BackorderSound(t, b)
  {
    forall b <- s.backorders ensures BackorderSound(t, b) {
      assert BackorderSound(s, b);
    }
    forall it <- s.items ensures ItemSound(t, it) {
      assert ItemSound(s, it);
    }
  }

  lemma SellLineSound(s: State, o: nat, l: Line)
    requires Sound(s) && o in s.orders && l.quantity > 0
    requires AllOwned(s.products, s.orders[o].seller, [l])
    ensures Sound(SellLine(s, s.orders[o].seller, o, l))
  {
    var t := SellLine(s, s.orders[o].seller, o, l);
    SoundElsewhere(s, t);
    assert l in [l];
    forall b <- t.backorders ensures BackorderSound(t, b) {
      if b !in s.backorders {
        assert b in OwedRow(s.orders[o].seller, o, s.nextItem, l.product, OwedBy(s, l));
      }
    }
    forall it <- t.items ensures ItemSound(t, it) {
      assert it in s.items || it == NewItem(s.nextItem, o, l);
    }
  }

  lemma {:induction false} SellLinesSound(s: State, o: nat, lines: seq<Line>)
    requires Sound(s) && o in s.orders && forall l <- lines :: l.quantity > 0
    requires AllOwned(s.products, s.orders[o].seller, lines)
    ensures Sound(SellLines(s, s.orders[o].seller, o, lines))
  {
    if lines != [] {
      var n := |lines| - 1;
      SellLinesSound(s, o, lines[..n]);
      SellLinesFrame(s, s.orders[o].seller, o, lines[..n]);
      assert lines[n] in lines;
      SellLineSound(SellLines(s, s.orders[o].seller, o, lines[..n]), o, lines[n]);
    }
  }

  lemma CreateSound(s: State, seller: string, lines: seq<Line>, subtotal: int, discount: int, total: int)
    requires Sound(s) && forall l <- lines :: l.quantity > 0
    ensures var r := Create(s, seller, lines, subtotal, discount, total); r.Success? ==> Sound(r.value.state)
  {
    var s0 := WithOrder(s, Order(seller, OrderPending, subtotal, discount, total));
    CreateIsSellLines(s, seller, lines, subtotal, discount, total);
    SoundElsewhere(s, s0);
    if AllOwned(s.products, seller, lines) {
      SellLinesSound(s0, s.nextOrder, lines);
    }
  }

  lemma AddItemSound(s: State, actor: Actor, o: nat, l: Line)
    requires Sound(s) && l.quantity > 0
    ensures var r := AddItem(s, actor, o, l); r.Success? ==> Sound(r.value)
  {
    var r := AddItem(s, actor, o, l);
    if r.Success? {
      SellLineSound(s, o, l);
      SoundElsewhere(SellLine(s, s.orders[o].seller, o, l), r.value);
    }
  }

  lemma RestoreSound(s: State, o: nat)
    requires Sound(s)
    ensures Sound(Restore(s, o))
  {
    var t := Restore(s, o);
    SoundElsewhere(s, t);
    forall b <- t.backorders ensures BackorderSound(t, b) {
      var i :| 0 <= i < |t.backorders| && t.backorders[i] == b;
      assert BackorderSound(s, s.backorders[i]);
    }
  }

  lemma UpdateStatusSound(s: State, actor: Actor, o: nat, status: OrderStatus)
    requires Sound(s)
    ensures var r := UpdateStatus(s, actor, o, status); r.Success? ==> Sound(r.value)
  {
    var r := UpdateStatus(s, actor, o, status);
    if r.Success? {
      RestoreSound(s, o);
      var s1 := if status == OrderCanceled && s.orders[o].status != OrderCanceled then Restore(s, o) else s;
      SoundElsewhere(s1, r.value);
    }
  }

  lemma {:induction false} FilterFifo(rows: seq<Backorder>, keep: Backorder -> bool)
    requires Fifo(rows)
    ensures Fifo(Filter(rows, keep))
  {
    if rows != [] {
      var n := |rows| - 1;
      FilterFifo(rows[..n], keep);
      var front := Filter(rows[..n], keep);
      forall i | 0 <= i < |front| ensures front[i] in rows[..n] {
        FilterMember(rows[..n], keep, front[i]);
      }
    }
  }

  lemma DropSound(s: State, o: nat)
    requires Sound(s)
    ensures Sound(Drop(s, o))
  {
    var t := Drop(s, o);
    FilterFifo(s.backorders, KeepBackorder(o));
    forall b <- t.backorders ensures BackorderSound(t, b) {
      FilterMember(s.backorders, KeepBackorder(o), b);
      assert BackorderSound(s, b);
    }
    forall it <- t.items ensures ItemSound(t, it) {
      FilterMember(s.items, KeepItem(o), it);
      assert ItemSound(s, it);
    }
  }

  lemma MoveSound(s: State, actor: Actor, m: Movement)
    requires Sound(s) && m.quantity > 0
    ensures var r := Move(s, actor, m); r.Success? ==> Sound(r.value.state)
  {
    var r := Move(s, actor, m);
    if r.Success? {
      var t := r.value.state;
      SoundRows(s);
      SoundElsewhere(s, t);
      ArrivalKeeps(s.backorders, m, RowAt(s, m.product));
      forall b <- t.backorders ensures BackorderSound(t, b) {
        var i :| 0 <= i < |t.backorders| && t.backorders[i] == b;
        assert BackorderSound(s, s.backorders[i]);
      }
    }
  }

  lemma ArrivalKeeps(rows: seq<Backorder>, m: Movement, row: Stock)
    requires RowsShape(rows)
    ensures var after := AllocateArrival(rows, m, row).rows;
      && |after| == |rows| && RowsShape(after) && (Fifo(rows) ==> Fifo(after))
      && (forall i | 0 <= i < |rows| :: SameOwner(rows[i], after[i]) && after[i].Remaining() <= rows[i].Remaining())
      && (forall i | 0 <= i < |rows| && rows[i].product != m.product :: after[i] == rows[i])
  {
    var n := Covered(row, row.quantity + m.Signed());
    if n > 0 {
      AllocateKeeps(rows, m.product, n);
    }
  }

  lemma CatalogOrderSound(s: State, store: string, lines: seq<Line>)
    requires Sound(s) && forall l <- lines :: l.quantity > 0
    ensures var r := CatalogOrder(s, store, lines); r.Success? ==> Sound(r.value)
  {
    var r := CatalogOrder(s, store, lines);
    if r.Success? {
      SoundElsewhere(s, r.value);
      forall it <- r.value.items ensures ItemSound(r.value, it) {
        if it !in s.items {
          var i :| 0 <= i < |lines| && it == NewItems(s.nextItem, s.nextOrder, lines)[i];
          assert lines[i] in lines;
        }
      }
    }
  }

  lemma {:induction false} PlaceSound(s: State, seller: string, drafts: seq<Draft>)
    requires Sound(s) && forall d <- drafts :: d.quantity > 0
    ensures var r := Place(s, seller, drafts); r.Success? ==> Sound(r.value.state)
  {
    var lines := PriceAll(drafts);
    PricedQuantities(drafts);
    CreateSound(s, seller, lines, ValueOf(drafts), DiscountAll(lines), ValueOf(drafts) - DiscountAll(lines));
  }

  lemma NextSound(s: State, step: Step)
    requires Sound(s) && Validated(step)
    ensures Sound(Next(s, step))
  {
    match step.op
    case PlaceOrder(drafts) =>
      PlaceSound(s, step.actor.seller, drafts);
    case AddLine(o, d) => AddItemSound(s, step.actor, o, Price(d));
    case SetStatus(o, status) => UpdateStatusSound(s, step.actor, o, status);
    case DeleteOrder(o) =>
      RestoreSound(s, o);
      DropSound(s, o);
      DropSound(Restore(s, o), o);
    case MoveStock(m) => MoveSound(s, step.actor, m);
    case PublicOrder(store, lines) => CatalogOrderSound(s, store, lines);
    case EditStock(p, q, r) =>
      SoundElsewhere(s, Next(s, step));
  }

  /** Over every run, manual stock edits included: a pending row is short of its quantity
      and a fulfilled one is not, rows belong to the seller of their order and product,
      and of the pending rows of a product only the oldest may be partly filled. */
  lemma {:induction false} RunSound(s: State, steps: seq<Step>)
    requires Sound(s) && forall step <- steps :: Validated(step)
    ensures Sound(Run(s, steps))
  {
    if steps != [] {
      RunSound(s, steps[..|steps| - 1]);
      NextSound(Run(s, steps[..|steps| - 1]), steps[|steps| - 1]);
    }
  }
}
