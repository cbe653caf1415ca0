/** What a seller's request leaves alone: every row of every other seller. */
module LedgerTenants {
  import opened Seqs
  import opened Tables
  import opened LedgerSpec
  import opened LedgerBatch
  import opened LedgerAllocation
  import opened LedgerSound
  import opened LedgerOwed

  datatype View = View(
    stock: map<int, Stock>, orders: map<nat, Order>,
    items: seq<Item>, backorders: seq<Backorder>, movements: seq<Movement>)

  predicate Owns(products: map<int, Product>, t: string, p: int) {
    p in products && products[p].seller == t
  }

  function ItemsOf(products: map<int, Product>, t: string): Item -> bool {
    (it: Item) => Owns(products, t, it.product)
  }

  function BackordersOf(t: string): Backorder -> bool { (b: Backorder) => b.seller == t }

  function MovementsOf(products: map<int, Product>, t: string): Movement -> bool {
    (m: Movement) => Owns(products, t, m.product)
  }

  /** The part of the tables that belongs to seller `t`. */
  function ViewOf(s: State, t: string): View {
    View(map p <- s.stock | Owns(s.products, t, p) :: s.stock[p],
         map o <- s.orders | s.orders[o].seller == t :: s.orders[o],
         Filter(s.items, ItemsOf(s.products, t)),
         Filter(s.backorders, BackordersOf(t)),
         Filter(s.movements, MovementsOf(s.products, t)))
  }

  /** Equal views, table by table. */
  lemma {:induction false} SameView(s: State, u: State, t: string)
    requires u.products == s.products && s.stock.Keys == u.stock.Keys
    requires forall p <- s.stock :: Owns(s.products, t, p) ==> u.stock[p] == s.stock[p]
    requires forall o | o in s.orders || o in u.orders ::
      var mine := o in s.orders && s.orders[o].seller == t;
      && (mine <==> o in u.orders && u.orders[o].seller == t)
      && (mine ==> u.orders[o] == s.orders[o])
    requires Filter(u.items, ItemsOf(s.products, t)) == Filter(s.items, ItemsOf(s.products, t))
    requires Filter(u.backorders, BackordersOf(t)) == Filter(s.backorders, BackordersOf(t))
    requires Filter(u.movements, MovementsOf(s.products, t)) == Filter(s.movements, MovementsOf(s.products, t))
    ensures ViewOf(u, t) == ViewOf(s, t)
  {
    assert ViewOf(u, t).stock == ViewOf(s, t).stock;
    assert ViewOf(u, t).orders == ViewOf(s, t).orders;
  }

  lemma {:induction false} SellLineRows(s: State, seller: string, o: nat, l: Line, t: string, u: State)
    requires seller != t && !Owns(s.products, t, l.product) && u == SellLine(s, seller, o, l)
    ensures Filter(u.items, ItemsOf(s.products, t)) == Filter(s.items, ItemsOf(s.products, t))
    ensures Filter(u.backorders, BackordersOf(t)) == Filter(s.backorders, BackordersOf(t))
    ensures Filter(u.movements, MovementsOf(s.products, t)) == Filter(s.movements, MovementsOf(s.products, t))
  {
    FilterAppend(s.items, NewItem(s.nextItem, o, l), ItemsOf(s.products, t));
    FilterAppend(s.movements, SaleMove(o, l), MovementsOf(s.products, t));
    FilterAppend(s.backorders, Backorder(seller, o, s.nextItem, l.product, OwedBy(s, l), 0, Pending), BackordersOf(t));
    assert s.backorders + [] == s.backorders && s.movements + [] == s.movements;
  }

  lemma {:induction false} SellLineFrame(s: State, o: nat, l: Line, t: string)
    requires o in s.orders && s.orders[o].seller != t && AllOwned(s.products, s.orders[o].seller, [l])
    ensures ViewOf(SellLine(s, s.orders[o].seller, o, l), t) == ViewOf(s, t)
  {
    assert l in [l];
    var u := SellLine(s, s.orders[o].seller, o, l);
    SellLineRows(s, s.orders[o].seller, o, l, t, u);
    SameView(s, u, t);
  }

  lemma {:induction false} SellLinesFrameOthers(s: State, o: nat, lines: seq<Line>, t: string)
    requires o in s.orders && s.orders[o].seller != t && AllOwned(s.products, s.orders[o].seller, lines)
    ensures ViewOf(SellLines(s, s.orders[o].seller, o, lines), t) == ViewOf(s, t)
  {
    if lines != [] {
      var n := |lines| - 1;
      SellLinesFrameOthers(s, o, lines[..n], t);
      SellLinesFrame(s, s.orders[o].seller, o, lines[..n]);
      assert lines[n] in lines;
      SellLineFrame(SellLines(s, s.orders[o].seller, o, lines[..n]), o, lines[n], t);
    }
  }

  lemma OrderRowFrame(s: State, o: nat, order: Order, t: string)
    requires order.seller != t && (o in s.orders ==> s.orders[o].seller != t)
    ensures ViewOf(s.(orders := s.orders[o := order]), t) == ViewOf(s, t)
  {
    assert ViewOf(s.(orders := s.orders[o := order]), t).orders == ViewOf(s, t).orders;
  }

  lemma {:induction false} ReturnMovesFrame(s: State, o: nat, items: seq<Item>, t: string)
    requires o in s.orders && s.orders[o].seller != t && forall it <- items :: ItemSound(s, it)
    ensures PutBackAll(s.stock, o, items).Keys == s.stock.Keys
    ensures forall p <- s.stock :: Owns(s.products, t, p) ==> PutBackAll(s.stock, o, items)[p] == s.stock[p]
    ensures Filter(ReturnMoves(s.stock.Keys, o, items), MovementsOf(s.products, t)) == []
  {
    if items != [] {
      var n := |items| - 1;
      ReturnMovesFrame(s, o, items[..n], t);
      assert ItemSound(s, items[n]);
      var front := ReturnMoves(s.stock.Keys, o, items[..n]);
      FilterAppend(front, ReturnMove(items[n]), MovementsOf(s.products, t));
      assert front + [] == front;
    }
  }

  lemma {:induction false} FilterConcat<T>(a: seq<T>, b: seq<T>, keep: T -> bool)
    ensures Filter(a + b, keep) == Filter(a, keep) + Filter(b, keep)
  {
    if b == [] {
      assert a + b == a;
    } else {
      var n := |b| - 1;
      FilterConcat(a, b[..n], keep);
      assert a + b == (a + b[..n]) + [b[n]];
      FilterAppend(a + b[..n], b[n], keep);
    }
  }

  /** Rests on every item of an order being a product of the order's seller. */
  lemma RestoreFrame(s: State, o: nat, t: string)
    requires Sound(s) && o in s.orders && s.orders[o].seller != t
    ensures ViewOf(Restore(s, o), t) == ViewOf(s, t)
  {
    var u := Restore(s, o);
    ReturnMovesFrame(s, o, s.items, t);
    FilterConcat(s.movements, ReturnMoves(s.stock.Keys, o, s.items), MovementsOf(s.products, t));
    forall i | 0 <= i < |s.backorders| && s.backorders[i].seller == t ensures u.backorders[i] == s.backorders[i] {
      assert BackorderSound(s, s.backorders[i]);
    }
    FilterRewritten(s.backorders, u.backorders, BackordersOf(t));
    assert ViewOf(u, t).stock == ViewOf(s, t).stock;
  }

  lemma DropFrame(s: State, o: nat, t: string)
    requires Sound(s) && o in s.orders && s.orders[o].seller != t
    ensures ViewOf(Drop(s, o), t) == ViewOf(s, t)
  {
    forall it <- s.items ensures KeepItem(o)(it) || !ItemsOf(s.products, t)(it) {
      assert ItemSound(s, it);
    }
    FilterDropped(s.items, KeepItem(o), ItemsOf(s.products, t));
    forall b <- s.backorders ensures KeepBackorder(o)(b) || !BackordersOf(t)(b) {
      assert BackorderSound(s, b);
    }
    FilterDropped(s.backorders, KeepBackorder(o), BackordersOf(t));
    assert ViewOf(Drop(s, o), t).orders == ViewOf(s, t).orders;
  }

  lemma MoveFrame(s: State, actor: Actor, m: Movement, t: string)
    requires Sound(s) && !actor.admin && actor.seller != t && m.quantity > 0
    ensures var r := Move(s, actor, m); r.Success? ==> ViewOf(r.value.state, t) == ViewOf(s, t)
  {
    var r := Move(s, actor, m);
    if r.Success? {
      var u := r.value.state;
      SoundRows(s);
      ArrivalKeeps(s.backorders, m, RowAt(s, m.product));
      forall i | 0 <= i < |s.backorders| && s.backorders[i].seller == t ensures u.backorders[i] == s.backorders[i] {
        assert BackorderSound(s, s.backorders[i]);
      }
      FilterRewritten(s.backorders, u.backorders, BackordersOf(t));
      FilterAppend(s.movements, m, MovementsOf(s.products, t));
      assert ViewOf(u, t).stock == ViewOf(s, t).stock;
    }
  }

  lemma {:induction false} NewItemsFrame(products: map<int, Product>, id: nat, o: nat, lines: seq<Line>, t: string)
    requires forall l <- lines :: !Owns(products, t, l.product)
    ensures Filter(NewItems(id, o, lines), ItemsOf(products, t)) == []
  {
    if lines != [] {
      var n := |lines| - 1;
      NewItemsFrame(products, id, o, lines[..n], t);
      assert NewItems(id, o, lines) == NewItems(id, o, lines[..n]) + [NewItem(id + n, o, lines[n])];
      FilterAppend(NewItems(id, o, lines[..n]), NewItem(id + n, o, lines[n]), ItemsOf(products, t));
    }
  }

  lemma CatalogOrderFrame(s: State, store: string, lines: seq<Line>, t: string)
    requires Sound(s) && store != t
    ensures var r := CatalogOrder(s, store, lines); r.Success? ==> ViewOf(r.value, t) == ViewOf(s, t)
  {
    var r := CatalogOrder(s, store, lines);
    if r.Success? {
      NewItemsFrame(s.products, s.nextItem, s.nextOrder, lines, t);
      FilterConcat(s.items, NewItems(s.nextItem, s.nextOrder, lines), ItemsOf(s.products, t));
      assert ViewOf(r.value, t).orders == ViewOf(s, t).orders;
    }
  }

  lemma {:induction false} CreateFrame(
      s: State, seller: string, lines: seq<Line>, subtotal: int, discount: int, total: int, created: Created, t: string)
    requires Sound(s) && seller != t && Create(s, seller, lines, subtotal, discount, total) == Success(created)
    ensures ViewOf(created.state, t) == ViewOf(s, t)
  {
    var order := Order(seller, OrderPending, subtotal, discount, total);
    CreateIsSellLines(s, seller, lines, subtotal, discount, total);
    OrderRowFrame(s, s.nextOrder, order, t);
    SellLinesFrameOthers(WithOrder(s, order), s.nextOrder, lines, t);
  }

  lemma AddItemFrame(s: State, actor: Actor, o: nat, l: Line, t: string)
    requires !actor.admin && actor.seller != t
    ensures var r := AddItem(s, actor, o, l); r.Success? ==> ViewOf(r.value, t) == ViewOf(s, t)
  {
    var r := AddItem(s, actor, o, l);
    if r.Success? {
      SellLineFrame(s, o, l, t);
      OrderRowFrame(SellLine(s, s.orders[o].seller, o, l), o, r.value.orders[o], t);
    }
  }

  lemma UpdateStatusFrame(s: State, actor: Actor, o: nat, status: OrderStatus, t: string)
    requires Sound(s) && !actor.admin && actor.seller != t
    ensures var r := UpdateStatus(s, actor, o, status); r.Success? ==> ViewOf(r.value, t) == ViewOf(s, t)
  {
    if InTenant(s, actor, o) {
      RestoreFrame(s, o, t);
      var u := if status == OrderCanceled && s.orders[o].status != OrderCanceled then Restore(s, o) else s;
      OrderRowFrame(u, o, s.orders[o].(status := status), t);
    }
  }

  lemma DeleteFrame(s: State, actor: Actor, o: nat, t: string)
    requires Sound(s) && !actor.admin && actor.seller != t
    ensures var r := Delete(s, actor, o); r.Success? ==> ViewOf(r.value, t) == ViewOf(s, t)
  {
    if InTenant(s, actor, o) {
      RestoreFrame(s, o, t);
      RestoreSound(s, o);
      DropFrame(s, o, t);
      DropFrame(Restore(s, o), o, t);
    }
  }

  lemma PatchFrame(s: State, actor: Actor, p: int, quantity: Option<int>, reserved: Option<int>, t: string)
    requires !actor.admin && actor.seller != t
    ensures var r := PatchStock(s, actor, p, quantity, reserved); r.Success? ==> ViewOf(r.value, t) == ViewOf(s, t)
  {
    var r := PatchStock(s, actor, p, quantity, reserved);
    if r.Success? {
      assert ViewOf(r.value, t).stock == ViewOf(s, t).stock;
    }
  }

  /** The store a request works for: its caller's, or the one a public order names. */
  function SellerOf(step: Step): string {
    match step.op
    case PublicOrder(store, _) => store
    case _ => step.actor.seller
  }

  lemma {:induction false} PlaceFrame(s: State, seller: string, drafts: seq<Draft>, placed: Created, t: string)
    requires Sound(s) && seller != t && Place(s, seller, drafts) == Success(placed)
    ensures ViewOf(placed.state, t) == ViewOf(s, t)
  {
    var lines, value := PriceAll(drafts), ValueOf(drafts);
    var discount := DiscountAll(lines);
    CreateFrame(s, seller, lines, value, discount, value - discount, placed, t);
  }

  /** Tenant isolation: no request of a non-admin touches another seller's stock, orders,
      items, backorders or movements. */
  lemma NextFrame(s: State, step: Step, t: string)
    requires Sound(s) && Validated(step) && !step.actor.admin && SellerOf(step) != t
    ensures ViewOf(Next(s, step), t) == ViewOf(s, t)
  {
    match step.op
    case PlaceOrder(drafts) =>
      var r := Place(s, step.actor.seller, drafts);
      if r.Success? {
        PlaceFrame(s, step.actor.seller, drafts, r.value, t);
      }
    case AddLine(o, d) => AddItemFrame(s, step.actor, o, Price(d), t);
    case SetStatus(o, status) => UpdateStatusFrame(s, step.actor, o, status, t);
    case DeleteOrder(o) => DeleteFrame(s, step.actor, o, t);
    case MoveStock(m) => MoveFrame(s, step.actor, m, t);
    case PublicOrder(store, lines) => CatalogOrderFrame(s, store, lines, t);
    case EditStock(p, q, r) => PatchFrame(s, step.actor, p, q, r, t);
  }

  lemma {:induction false} RunFrame(s: State, steps: seq<Step>, t: string)
    requires Sound(s) && forall step <- steps :: Validated(step) && !step.actor.admin && SellerOf(step) != t
    ensures ViewOf(Run(s, steps), t) == ViewOf(s, t)
  {
    if steps != [] {
      var n := |steps| - 1;
      RunFrame(s, steps[..n], t);
      RunSound(s, steps[..n]);
      NextFrame(Run(s, steps[..n]), steps[n], t);
    }
  }
}
