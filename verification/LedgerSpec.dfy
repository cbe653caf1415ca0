/** What each ledger transaction does to the tables, as functions on values. */
module LedgerSpec {
  import opened Seqs
  import opened Tables

  // ---- Row weights and the sums the properties speak of ----

  function RemainingFor(p: int): Backorder -> int {
    (b: Backorder) => if b.product == p then b.Remaining() else 0
  }

  function RemainingOf(o: nat, p: int): Backorder -> int {
    (b: Backorder) => if b.order == o && b.product == p then b.Remaining() else 0
  }

  function UnitsOf(o: nat, p: int): Item -> int {
    (it: Item) => if it.order == o && it.product == p then it.quantity else 0
  }

  function UnitsFor(p: int): Line -> int {
    (l: Line) => if l.product == p then l.quantity else 0
  }

  function SignedFor(p: int): Movement -> int {
    (m: Movement) => if m.product == p then m.Signed() else 0
  }

  /** Movements that a sale or a return of order `o` wrote for product `p`. */
  function SignedOf(o: nat, p: int): Movement -> int {
    (m: Movement) =>
      if (m.reference == Sale || m.reference == Return) && m.refId == o && m.product == p then m.Signed() else 0
  }

  function Owed(s: State, p: int): int { Sum(s.backorders, RemainingFor(p)) }

  function PendingOf(s: State, o: nat, p: int): int { Sum(s.backorders, RemainingOf(o, p)) }

  function QuantityOf(s: State, o: nat, p: int): int { Sum(s.items, UnitsOf(o, p)) }

  function OrderNet(s: State, o: nat, p: int): int { Sum(s.movements, SignedOf(o, p)) }

  /** Units on hand minus everything the movement table explains. */
  function Unexplained(s: State, p: int): int {
    (if p in s.stock then s.stock[p].quantity else 0) - Sum(s.movements, SignedFor(p))
  }

  function DeficitOf(s: State, p: int): int {
    if p in s.stock then s.stock[p].Deficit() else 0
  }

  // ---- Order creation, phase by phase ----

  function Price(d: Draft): Line {
    var value := d.unitPrice * d.quantity;
    var discount := Min(d.discount, value);
    Line(d.product, d.quantity, discount, value - discount)
  }

  function PriceAll(drafts: seq<Draft>): seq<Line> {
    seq(|drafts|, i requires 0 <= i < |drafts| => Price(drafts[i]))
  }

  predicate AllOwned(products: map<int, Product>, seller: string, lines: seq<Line>) {
    forall l <- lines :: l.product in products && products[l.product].seller == seller
  }

  predicate MayOversell(products: map<int, Product>, p: int) {
    p in products && products[p].allowOversell
  }

  datatype Validation = Validation(owed: seq<int>, running: map<int, int>, oversold: seq<Oversold>)

  /** The validation loop: each line sees what earlier lines of its product left. */
  function Validate(products: map<int, Product>, stock: map<int, Stock>, lines: seq<Line>): Result<Validation> {
    if lines == [] then Success(Validation([], map[], []))
    else
      match Validate(products, stock, lines[..|lines| - 1])
      case Failure(e) => Failure(e)
      case Success(v) => ValidateLine(products, stock, v, lines[|lines| - 1])
  }

  function ValidateLine(products: map<int, Product>, stock: map<int, Stock>, v: Validation, l: Line)
    : Result<Validation>
  {
    if l.product !in stock then Success(v.(owed := v.owed + [0]))
    else
      var available := if l.product in v.running then v.running[l.product] else stock[l.product].Available();
      var running := v.running[l.product := available - l.quantity];
      if available >= l.quantity then Success(Validation(v.owed + [0], running, v.oversold))
      else if !MayOversell(products, l.product) then Failure(InsufficientStock(l.product, available))
      else Success(Validation(v.owed + [l.quantity - Max(available, 0)], running,
                              v.oversold + [Oversold(l.product, available, l.quantity)]))
  }

  function TakeOut(stock: map<int, Stock>, p: int, n: int): map<int, Stock> {
    if p in stock then stock[p := stock[p].(quantity := stock[p].quantity - n)] else stock
  }

  function TakeOutAll(stock: map<int, Stock>, lines: seq<Line>): map<int, Stock> {
    if lines == [] then stock
    else
      var last := lines[|lines| - 1];
      TakeOut(TakeOutAll(stock, lines[..|lines| - 1]), last.product, last.quantity)
  }

  function SaleMove(o: nat, l: Line): Movement { Movement(Out, Sale, o, l.product, l.quantity) }

  function SaleMoves(tracked: set<int>, o: nat, lines: seq<Line>): seq<Movement> {
    if lines == [] then []
    else
      var last := lines[|lines| - 1];
      SaleMoves(tracked, o, lines[..|lines| - 1]) + (if last.product in tracked then [SaleMove(o, last)] else [])
  }

  function NewItem(id: nat, o: nat, l: Line): Item {
    Item(id, o, l.product, l.quantity, l.discount, l.total)
  }

  function NewItems(id: nat, o: nat, lines: seq<Line>): seq<Item> {
    seq(|lines|, i requires 0 <= i < |lines| => NewItem(id + i, o, lines[i]))
  }

  /** At most one backorder per line, for the units `owed[i]` beyond what was on hand. */
  function NewBackorders(seller: string, id: nat, o: nat, lines: seq<Line>, owed: seq<int>): seq<Backorder>
    requires |owed| == |lines|
  {
    if lines == [] then []
    else
      var n := |lines| - 1;
      NewBackorders(seller, id, o, lines[..n], owed[..n]) + OwedRow(seller, o, id + n, lines[n].product, owed[n])
  }

  function OwedRow(seller: string, o: nat, item: nat, p: int, owed: int): seq<Backorder> {
    if owed > 0 then [Backorder(seller, o, item, p, owed, 0, Pending)] else []
  }

  lemma {:induction false} ValidateLength(products: map<int, Product>, stock: map<int, Stock>, lines: seq<Line>)
    ensures var r := Validate(products, stock, lines); r.Success? ==> |r.value.owed| == |lines|
  {
    if lines != [] {
      ValidateLength(products, stock, lines[..|lines| - 1]);
    }
  }

  datatype Created = Created(state: State, order: nat, oversold: seq<Oversold>)

  /** Everything the transaction writes once its lines are validated. */
  function Written(s: State, seller: string, lines: seq<Line>, row: Order, owed: seq<int>): State
    requires |owed| == |lines|
  {
    var o := s.nextOrder;
    s.(stock := TakeOutAll(s.stock, lines),
       orders := s.orders[o := row],
       items := s.items + NewItems(s.nextItem, o, lines),
       backorders := s.backorders + NewBackorders(seller, s.nextItem, o, lines, owed),
       movements := s.movements + SaleMoves(s.stock.Keys, o, lines),
       nextOrder := o + 1,
       nextItem := s.nextItem + |lines|)
  }

  function Create(s: State, seller: string, lines: seq<Line>, subtotal: int, discount: int, total: int)
    : Result<Created>
  {
    if !AllOwned(s.products, seller, lines) then Failure(NotFound)
    else
      ValidateLength(s.products, s.stock, lines);
      match Validate(s.products, s.stock, lines)
      case Failure(e) => Failure(e)
      case Success(v) =>
        var row := Order(seller, OrderPending, subtotal, discount, total);
        Success(Created(Written(s, seller, lines, row, v.owed), s.nextOrder, v.oversold))
  }

  // ---- Adding one line to an order ----

  predicate CanSell(s: State, l: Line) {
    l.product in s.stock && s.stock[l.product].Available() < l.quantity ==> MayOversell(s.products, l.product)
  }

  function OwedBy(s: State, l: Line): int {
    if l.product in s.stock && s.stock[l.product].Available() < l.quantity
    then l.quantity - Max(s.stock[l.product].Available(), 0)
    else 0
  }

  /** Everything selling one line writes, order totals aside. */
  function SellLine(s: State, seller: string, o: nat, l: Line): State {
    s.(stock := TakeOut(s.stock, l.product, l.quantity),
       items := s.items + [NewItem(s.nextItem, o, l)],
       backorders := s.backorders + OwedRow(seller, o, s.nextItem, l.product, OwedBy(s, l)),
       movements := s.movements + (if l.product in s.stock then [SaleMove(o, l)] else []),
       nextItem := s.nextItem + 1)
  }

  function TotalOf(o: nat): Item -> int { (it: Item) => if it.order == o then it.total else 0 }

  function DiscountOf(o: nat): Item -> int { (it: Item) => if it.order == o then it.discount else 0 }

  /** The order row as addItem rewrites it: both sums over the stored items. */
  function Retotal(s: State, o: nat): State
    requires o in s.orders
  {
    var subtotal := Sum(s.items, TotalOf(o));
    var discount := Sum(s.items, DiscountOf(o));
    s.(orders := s.orders[o := s.orders[o].(subtotal := subtotal, discount := discount, total := subtotal - discount)])
  }

  function AddItem(s: State, actor: Actor, o: nat, l: Line): Result<State> {
    if o !in s.orders || !actor.MayTouch(s.orders[o].seller) then Failure(BadRequest)
    else if !AllOwned(s.products, s.orders[o].seller, [l]) then Failure(NotFound)
    else if !CanSell(s, l) then Failure(InsufficientStock(l.product, s.stock[l.product].Available()))
    else Success(Retotal(SellLine(s, s.orders[o].seller, o, l), o))
  }

  // ---- Undoing an order ----

  function CancelRow(o: nat, b: Backorder): Backorder {
    if b.order == o && b.status == Pending then b.(status := Canceled) else b
  }

  function CancelPending(rows: seq<Backorder>, o: nat): seq<Backorder> {
    seq(|rows|, i requires 0 <= i < |rows| => CancelRow(o, rows[i]))
  }

  function PutBackAll(stock: map<int, Stock>, o: nat, items: seq<Item>): map<int, Stock> {
    if items == [] then stock
    else
      var last := items[|items| - 1];
      var front := PutBackAll(stock, o, items[..|items| - 1]);
      if last.order == o then TakeOut(front, last.product, -last.quantity) else front
  }

  function ReturnMove(it: Item): Movement { Movement(In, Return, it.order, it.product, it.quantity) }

  function ReturnMoves(tracked: set<int>, o: nat, items: seq<Item>): seq<Movement> {
    if items == [] then []
    else
      var last := items[|items| - 1];
      ReturnMoves(tracked, o, items[..|items| - 1]) +
      (if last.order == o && last.product in tracked then [ReturnMove(last)] else [])
  }

  function Restore(s: State, o: nat): State {
    s.(backorders := CancelPending(s.backorders, o),
       stock := PutBackAll(s.stock, o, s.items),
       movements := s.movements + ReturnMoves(s.stock.Keys, o, s.items))
  }

  predicate InTenant(s: State, actor: Actor, o: nat) {
    o in s.orders && actor.MayTouch(s.orders[o].seller)
  }

  function UpdateStatus(s: State, actor: Actor, o: nat, status: OrderStatus): Result<State> {
    if !InTenant(s, actor, o) then Failure(NotFound)
    else
      var s1 := if status == OrderCanceled && s.orders[o].status != OrderCanceled then Restore(s, o) else s;
      Success(s1.(orders := s.orders[o := s.orders[o].(status := status)]))
  }

  function KeepItem(o: nat): Item -> bool { (it: Item) => it.order != o }

  function KeepBackorder(o: nat): Backorder -> bool { (b: Backorder) => b.order != o }

  /** Deleting the order row takes its items and backorders with it. */
  function Drop(s: State, o: nat): State {
    s.(orders := s.orders - {o},
       items := Filter(s.items, KeepItem(o)),
       backorders := Filter(s.backorders, KeepBackorder(o)))
  }

  function Delete(s: State, actor: Actor, o: nat): Result<State> {
    if !InTenant(s, actor, o) then Failure(NotFound)
    else Success(Drop(if s.orders[o].status != OrderCanceled then Restore(s, o) else s, o))
  }

  // ---- Stock movements and backorder allocation ----

  /** The units row `b` takes when `left` units are still to place. */
  function Take(b: Backorder, p: int, left: int): int {
    if b.PendingFor(p) && left > 0 then Max(Min(b.Remaining(), left), 0) else 0
  }

  function Cover(b: Backorder, take: int): Backorder {
    if take <= 0 then b
    else
      var fulfilled := b.fulfilled + take;
      b.(fulfilled := fulfilled, status := if fulfilled >= b.quantity then Fulfilled else b.status)
  }

  datatype Allocation = Allocation(rows: seq<Backorder>, left: int, done: seq<Backorder>)

  function AllocateRow(a: Allocation, b: Backorder, p: int): Allocation {
    var take := Take(b, p, a.left);
    var c := Cover(b, take);
    Allocation(a.rows + [c], a.left - take, if take > 0 && c.status == Fulfilled then a.done + [c] else a.done)
  }

  /** Oldest row first; `done` lists the rows this arrival completed. */
  function Allocate(rows: seq<Backorder>, p: int, n: int): (a: Allocation)
    ensures |a.rows| == |rows|
  {
    if rows == [] then Allocation([], n, [])
    else AllocateRow(Allocate(rows[..|rows| - 1], p, n), rows[|rows| - 1], p)
  }

  function RowAt(s: State, p: int): Stock {
    if p in s.stock then s.stock[p] else Stock(0, 0)
  }

  /** The part of the deficit that a change of quantity covers. */
  function Covered(row: Stock, next: int): int {
    row.Deficit() - row.(quantity := next).Deficit()
  }

  datatype Moved = Moved(state: State, done: seq<Backorder>)

  /** Who gets the units: the drop in the deficit, and only from an `in` movement. */
  function AllocateArrival(rows: seq<Backorder>, m: Movement, row: Stock): Allocation {
    var n := Covered(row, row.quantity + m.Signed());
    if m.kind == In && n > 0 then Allocate(rows, m.product, n) else Allocation(rows, n, [])
  }

  function Move(s: State, actor: Actor, m: Movement): Result<Moved> {
    if m.product !in s.products || !actor.MayTouch(s.products[m.product].seller) then Failure(BadRequest)
    else
      var row := RowAt(s, m.product);
      if m.kind == Out && row.quantity + m.Signed() < 0 then Failure(BadRequest)
      else Success(WriteMove(s, m, row, AllocateArrival(s.backorders, m, row)))
  }

  function WriteMove(s: State, m: Movement, row: Stock, a: Allocation): Moved {
    Moved(s.(stock := s.stock[m.product := row.(quantity := row.quantity + m.Signed())],
             movements := s.movements + [m],
             backorders := a.rows),
          a.done)
  }

  // ---- The other writers of these tables ----

  /** A public catalog order: it checks stock line by line and inserts rows only. */
  function CatalogOrder(s: State, store: string, lines: seq<Line>): Result<State> {
    if lines == [] then Failure(BadRequest)
    else if !AllOwned(s.products, store, lines) then Failure(BadRequest)
    else if exists l <- lines :: l.product in s.stock && s.stock[l.product].Available() < l.quantity
    then Failure(BadRequest)
    else
      var o := s.nextOrder;
      var total := Sum(lines, NetTotal());
      Success(s.(orders := s.orders[o := Order(store, OrderPending, total, 0, total)],
                 items := s.items + NewItems(s.nextItem, o, lines),
                 nextOrder := o + 1,
                 nextItem := s.nextItem + |lines|))
  }

  /** The manual stock edit writes both columns freely. */
  function PatchStock(s: State, actor: Actor, p: int, quantity: Option<int>, reserved: Option<int>): Result<State> {
    if p !in s.products || !actor.MayTouch(s.products[p].seller) then Failure(NotFound)
    else
      var row := RowAt(s, p);
      Success(s.(stock := s.stock[p := Stock(
                   if quantity.Some? then quantity.value else row.quantity,
                   if reserved.Some? then reserved.value else row.reserved)]))
  }

  // ---- Runs ----

  datatype Op =
    | PlaceOrder(drafts: seq<Draft>)
    | AddLine(order: nat, draft: Draft)
    | SetStatus(order: nat, status: OrderStatus)
    | DeleteOrder(order: nat)
    | MoveStock(move: Movement)
    | PublicOrder(store: string, lines: seq<Line>)
    | EditStock(product: int, quantity: Option<int>, reserved: Option<int>)

  datatype Step = Step(actor: Actor, op: Op)

  function Value(): Draft -> int { (d: Draft) => d.unitPrice * d.quantity }

  function Discount(): Line -> int { (l: Line) => l.discount }

  function NetTotal(): Line -> int { (l: Line) => l.total }

  function ValueOf(drafts: seq<Draft>): int { Sum(drafts, Value()) }

  function DiscountAll(lines: seq<Line>): int { Sum(lines, Discount()) }

  function Place(s: State, seller: string, drafts: seq<Draft>): Result<Created> {
    var lines := PriceAll(drafts);
    Create(s, seller, lines, ValueOf(drafts), DiscountAll(lines), ValueOf(drafts) - DiscountAll(lines))
  }

  /** One request. A failed transaction leaves the tables as they were. */
  function Next(s: State, step: Step): State {
    match step.op
    case PlaceOrder(drafts) =>
      var r := Place(s, step.actor.seller, drafts);
      if r.Success? then r.value.state else s
    case AddLine(o, d) => OrElse(AddItem(s, step.actor, o, Price(d)), s)
    case SetStatus(o, status) => OrElse(UpdateStatus(s, step.actor, o, status), s)
    case DeleteOrder(o) => OrElse(Delete(s, step.actor, o), s)
    case MoveStock(m) =>
      var r := Move(s, step.actor, m);
      if r.Success? then r.value.state else s
    case PublicOrder(store, lines) => OrElse(CatalogOrder(s, store, lines), s)
    case EditStock(p, q, r) => OrElse(PatchStock(s, step.actor, p, q, r), s)
  }

  function OrElse(r: Result<State>, s: State): State { if r.Success? then r.value else s }

  function Run(s: State, steps: seq<Step>): State {
    if steps == [] then s else Next(Run(s, steps[..|steps| - 1]), steps[|steps| - 1])
  }
}
