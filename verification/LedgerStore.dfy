/** The repositories over mutable tables. Each method is one transaction; a query and the
    loop over its rows are one loop over the table that skips the rows the query omits. */
module LedgerStore {
  import opened Seqs
  import opened Tables
  import opened LedgerSpec
  import opened LedgerBatch

  class Ledger {
    var products: map<int, Product>
    var stock: map<int, Stock>
    var orders: map<nat, Order>
    var items: seq<Item>
    var backorders: seq<Backorder>
    var movements: seq<Movement>
    var nextOrder: nat
    var nextItem: nat

    ghost function Contents(): State
      reads this
    {
      State(products, stock, orders, items, backorders, movements, nextOrder, nextItem)
    }

    constructor (products: map<int, Product>)
      ensures Contents() == State(products, map[], map[], [], [], [], 0, 0)
    {
      this.products, stock, orders, items, backorders, movements := products, map[], map[], [], [], [];
      nextOrder, nextItem := 0, 0;
    }

    /** What a transaction that fails later on goes back to. */
    method Save() returns (s: State)
      ensures s == Contents()
    {
      s := State(products, stock, orders, items, backorders, movements, nextOrder, nextItem);
    }

    method Rollback(s: State)
      modifies this
      ensures Contents() == s
    {
      products, stock, orders, items := s.products, s.stock, s.orders, s.items;
      backorders, movements, nextOrder, nextItem := s.backorders, s.movements, s.nextOrder, s.nextItem;
    }

    /** Counts the seller's products among the referenced ones, as the query does. */
    method OwnsAll(seller: string, lines: seq<Line>) returns (ok: bool)
      ensures ok <==> AllOwned(products, seller, lines)
    {
      var uniqueIds := set l <- lines :: l.product;
      var owned := set p <- uniqueIds | p in products && products[p].seller == seller;
      ok := |owned| == |uniqueIds|;
      SubsetOfEqualSize(owned, uniqueIds);
      forall l <- lines ensures l.product in uniqueIds {
      }
    }

    method ValidateLines(lines: seq<Line>) returns (r: Result<seq<Oversold>>, owedByIndex: array<int>)
      ensures fresh(owedByIndex) && owedByIndex.Length == |lines|
      ensures match Validate(products, stock, lines)
        case Failure(e) => r == Failure(e)
        case Success(v) =>
          r == Success(v.oversold) && owedByIndex[..] == v.owed
    {
      owedByIndex := new int[|lines|](_ => 0);
      var oversold: seq<Oversold> := [];
      var runningAvailable: map<int, int> := map[];
      for i := 0 to |lines|
        invariant |owedByIndex[..i]| == i
        invariant Validate(products, stock, lines[..i]) ==
                  Success(Validation(owedByIndex[..i], runningAvailable, oversold))
        invariant forall k | i <= k < |lines| :: owedByIndex[k] == 0
      {
        var item := lines[i];
        ghost var seen, running := owedByIndex[..i], runningAvailable;
        assert lines[..i + 1][..i] == lines[..i];
        if item.product !in stock {
          assert owedByIndex[..i + 1] == seen + [0];
          continue;
        }
        if item.product !in runningAvailable {
          runningAvailable := runningAvailable[item.product := stock[item.product].Available()];
        }
        var available := runningAvailable[item.product];
        if available < item.quantity {
          if !(item.product in products && products[item.product].allowOversell) {
            FailsForGood(products, stock, lines, i + 1);
            r := Failure(InsufficientStock(item.product, available));
            return;
          }
          owedByIndex[i] := item.quantity - Max(available, 0);
          oversold := oversold + [Oversold(item.product, available, item.quantity)];
        }
        runningAvailable := runningAvailable[item.product := available - item.quantity];
        assert runningAvailable == running[item.product := available - item.quantity];
        assert owedByIndex[..i + 1] == seen + [owedByIndex[i]];
      }
      assert lines[..|lines|] == lines && owedByIndex[..] == owedByIndex[..|lines|];
      r := Success(oversold);
    }

    /** Lowers the stock of each tracked line and records its movement. */
    method DecrementStock(o: nat, lines: seq<Line>)
      modifies this`stock, this`movements
      ensures stock == TakeOutAll(old(stock), lines)
      ensures movements == old(movements) + SaleMoves(old(stock).Keys, o, lines)
    {
      for i := 0 to |lines|
        invariant stock == TakeOutAll(old(stock), lines[..i]) && stock.Keys == old(stock).Keys
        invariant movements == old(movements) + SaleMoves(old(stock).Keys, o, lines[..i])
      {
        var item := lines[i];
        assert lines[..i + 1][..i] == lines[..i];
        if item.product in stock {
          var row := stock[item.product];
          stock := stock[item.product := row.(quantity := row.quantity - item.quantity)];
          movements := movements + [Movement(Out, Sale, o, item.product, item.quantity)];
        }
      }
      assert lines[..|lines|] == lines;
    }

    method InsertBackorders(seller: string, o: nat, firstItem: nat, lines: seq<Line>, owedByIndex: array<int>)
      requires owedByIndex.Length == |lines|
      modifies this`backorders
      ensures backorders == old(backorders) + NewBackorders(seller, firstItem, o, lines, owedByIndex[..])
    {
      for i := 0 to |lines|
        invariant backorders == old(backorders) + NewBackorders(seller, firstItem, o, lines[..i], owedByIndex[..i])
      {
        var owed := owedByIndex[i];
        assert lines[..i + 1][..i] == lines[..i] && owedByIndex[..i + 1][..i] == owedByIndex[..i];
        if owed <= 0 {
          continue;
        }
        backorders := backorders + [Backorder(seller, o, firstItem + i, lines[i].product, owed, 0, Pending)];
      }
      assert lines[..|lines|] == lines && owedByIndex[..|lines|] == owedByIndex[..];
    }

    /** Inserts the order, its items and backorders, and lowers the stock. */
    method InsertOrder(row: Order, lines: seq<Line>, owedByIndex: array<int>) returns (o: nat)
      requires owedByIndex.Length == |lines|
      modifies this
      ensures o == old(nextOrder)
      ensures Contents() == Written(old(Contents()), row.seller, lines, row, owedByIndex[..])
    {
      o := nextOrder;
      var firstItem := nextItem;
      orders := orders[o := row];
      items := items + NewItems(firstItem, o, lines);
      nextOrder, nextItem := o + 1, firstItem + |lines|;
      InsertBackorders(row.seller, o, firstItem, lines, owedByIndex);
      DecrementStock(o, lines);
    }

    method Create(seller: string, lines: seq<Line>, subtotal: int, discount: int, total: int)
      returns (r: Result<(nat, seq<Oversold>)>)
      modifies this
      ensures match LedgerSpec.Create(old(Contents()), seller, lines, subtotal, discount, total)
        case Failure(e) => r == Failure(e) && Contents() == old(Contents())
        case Success(c) => r == Success((c.order, c.oversold)) && Contents() == c.state
    {
      var owned := OwnsAll(seller, lines);
      if !owned {
        return Failure(NotFound);
      }
      var v, owedByIndex := ValidateLines(lines);
      if v.Failure? {
        return Failure(v.error);
      }
      var o := InsertOrder(Order(seller, OrderPending, subtotal, discount, total), lines, owedByIndex);
      r := Success((o, v.value));
    }

    /** Sums one money column over the items of an order. */
    method SumItems(o: nat) returns (subtotal: int, discount: int)
      ensures subtotal == Sum(items, TotalOf(o)) && discount == Sum(items, DiscountOf(o))
    {
      subtotal, discount := 0, 0;
      for i := 0 to |items|
        invariant subtotal == Sum(items[..i], TotalOf(o)) && discount == Sum(items[..i], DiscountOf(o))
      {
        SumPrefix(items, i, TotalOf(o));
        SumPrefix(items, i, DiscountOf(o));
        if items[i].order == o {
          subtotal, discount := subtotal + items[i].total, discount + items[i].discount;
        }
      }
      assert items[..|items|] == items;
    }

    /** Takes one line out of stock and says how many units it leaves owed. */
    method TakeStock(o: nat, line: Line) returns (r: Result<int>)
      requires line.product in products
      modifies this`stock, this`movements
      ensures r == if CanSell(old(Contents()), line) then Success(OwedBy(old(Contents()), line))
                   else Failure(InsufficientStock(line.product, old(stock)[line.product].Available()))
      ensures r.Failure? ==> Contents() == old(Contents())
      ensures r.Success? ==>
        && stock == TakeOut(old(stock), line.product, line.quantity)
        && movements == old(movements) + (if line.product in old(stock) then [SaleMove(o, line)] else [])
    {
      var owed := 0;
      if line.product in stock {
        var row := stock[line.product];
        if row.Available() < line.quantity {
          if !products[line.product].allowOversell {
            return Failure(InsufficientStock(line.product, row.Available()));
          }
          owed := line.quantity - Max(row.Available(), 0);
        }
        stock := stock[line.product := row.(quantity := row.quantity - line.quantity)];
        movements := movements + [Movement(Out, Sale, o, line.product, line.quantity)];
      }
      r := Success(owed);
    }

    /** Inserts the item and, if it leaves units owed, its backorder. */
    method InsertItem(seller: string, o: nat, line: Line, owed: int) returns (id: nat)
      modifies this`items, this`nextItem, this`backorders
      ensures id == old(nextItem) && nextItem == id + 1
      ensures items == old(items) + [NewItem(id, o, line)]
      ensures backorders == old(backorders) + OwedRow(seller, o, id, line.product, owed)
    {
      id := nextItem;
      items := items + [Item(id, o, line.product, line.quantity, line.discount, line.total)];
      nextItem := id + 1;
      if owed > 0 {
        backorders := backorders + [Backorder(seller, o, id, line.product, owed, 0, Pending)];
      }
    }

    method RewriteTotals(o: nat)
      requires o in orders
      modifies this`orders
      ensures Contents() == Retotal(old(Contents()), o)
    {
      var subtotal, discount := SumItems(o);
      orders := orders[o := orders[o].(subtotal := subtotal, discount := discount, total := subtotal - discount)];
    }

    method AddItem(actor: Actor, o: nat, line: Line) returns (r: Result<nat>)
      modifies this
      ensures match LedgerSpec.AddItem(old(Contents()), actor, o, line)
        case Failure(e) => r == Failure(e) && Contents() == old(Contents())
        case Success(s) => r == Success(old(nextItem)) && Contents() == s
    {
      if o !in orders || !(actor.admin || orders[o].seller == actor.seller) {
        return Failure(BadRequest);
      }
      var seller := orders[o].seller;
      if !(line.product in products && products[line.product].seller == seller) {
        return Failure(NotFound);
      }
      var taken := TakeStock(o, line);
      if taken.Failure? {
        return Failure(taken.error);
      }
      var id := InsertItem(seller, o, line, taken.value);
      RewriteTotals(o);
      r := Success(id);
    }

    /** Cancels what the order owes, then returns every item's quantity. */
    method RestoreStock(o: nat)
      modifies this`backorders, this`stock, this`movements
      ensures Contents() == Restore(old(Contents()), o)
    {
      CancelPendingRows(o);
      for i := 0 to |items|
        invariant stock == PutBackAll(old(stock), o, items[..i]) && stock.Keys == old(stock).Keys
        invariant movements == old(movements) + ReturnMoves(old(stock).Keys, o, items[..i])
        invariant backorders == CancelPending(old(backorders), o)
      {
        var item := items[i];
        assert items[..i + 1][..i] == items[..i];
        if item.order != o || item.product !in stock {
          continue;
        }
        var row := stock[item.product];
        stock := stock[item.product := row.(quantity := row.quantity + item.quantity)];
        movements := movements + [Movement(In, Return, o, item.product, item.quantity)];
      }
      assert items[..|items|] == items;
    }

    method CancelPendingRows(o: nat)
      modifies this`backorders
      ensures backorders == CancelPending(old(backorders), o)
    {
      for i := 0 to |backorders|
        invariant |backorders| == |old(backorders)|
        invariant forall k | 0 <= k < i :: backorders[k] == CancelRow(o, old(backorders)[k])
        invariant forall k | i <= k < |backorders| :: backorders[k] == old(backorders)[k]
      {
        if backorders[i].order == o && backorders[i].status == Pending {
          backorders := backorders[i := backorders[i].(status := Canceled)];
        }
      }
    }

    method UpdateStatus(actor: Actor, o: nat, status: OrderStatus) returns (r: Result<Order>)
      modifies this
      ensures match LedgerSpec.UpdateStatus(old(Contents()), actor, o, status)
        case Failure(e) => r == Failure(e) && Contents() == old(Contents())
        case Success(s) => Contents() == s && o in orders && r == Success(orders[o])
    {
      if o !in orders || !(actor.admin || orders[o].seller == actor.seller) {
        return Failure(NotFound);
      }
      if status == OrderCanceled && orders[o].status != OrderCanceled {
        RestoreStock(o);
      }
      orders := orders[o := orders[o].(status := status)];
      r := Success(orders[o]);
    }

    method Delete(actor: Actor, o: nat) returns (r: Result<Order>)
      modifies this
      ensures match LedgerSpec.Delete(old(Contents()), actor, o)
        case Failure(e) => r == Failure(e) && Contents() == old(Contents())
        case Success(s) => Contents() == s && o in old(orders) && r == Success(old(orders)[o])
    {
      if o !in orders || !(actor.admin || orders[o].seller == actor.seller) {
        return Failure(NotFound);
      }
      r := Success(orders[o]);
      if orders[o].status != OrderCanceled {
        RestoreStock(o);
      }
      orders := orders - {o};
      items := Filter(items, KeepItem(o));
      backorders := Filter(backorders, KeepBackorder(o));
    }

    /** What one pending row takes of the units still to place. */
    method CoverRow(bo: Backorder, p: int, toAllocate: int) returns (row: Backorder, take: int)
      requires toAllocate > 0
      ensures take == Take(bo, p, toAllocate) && row == Cover(bo, take)
    {
      row, take := bo, 0;
      if bo.status != Pending || bo.product != p {
        return;
      }
      var units := Min(bo.quantity - bo.fulfilled, toAllocate);
      if units <= 0 {
        return;
      }
      take := units;
      var newFulfilled := bo.fulfilled + take;
      var fullyCovered := newFulfilled >= bo.quantity;
      row := bo.(fulfilled := newFulfilled, status := if fullyCovered then Fulfilled else bo.status);
    }

    /** Covers pending rows oldest first until the units are used up. */
    method PlaceUnits(p: int, n: int) returns (fulfilled: seq<Backorder>)
      modifies this`backorders
      ensures var a := Allocate(old(backorders), p, n); backorders == a.rows && fulfilled == a.done
    {
      var rows, toAllocate, i := backorders, n, 0;
      fulfilled := [];
      ghost var a := Allocation([], n, []);
      while i < |rows| && toAllocate > 0
        invariant 0 <= i <= |rows| && a == AllocateTo(rows, p, n, i)
        invariant |a.rows| == i && Spliced(backorders, a.rows, rows)
        invariant toAllocate == a.left && fulfilled == a.done
      {
        var row, take := CoverRow(rows[i], p, toAllocate);
        SplicedNext(backorders, a.rows, rows, row);
        a := AllocateRow(a, rows[i], p);
        backorders := backorders[i := row];
        toAllocate := toAllocate - take;
        if take > 0 && row.status == Fulfilled {
          fulfilled := fulfilled + [row];
        }
        i := i + 1;
      }
      NothingLeft(rows, p, n, i);
      assert backorders == a.rows + rows[i..];
    }

    /** Only the drop in the deficit is handed out. */
    method AllocateBackorders(p: int, prevQty: int, nextQty: int, reserved: int) returns (fulfilled: seq<Backorder>)
      modifies this`backorders
      ensures var n := Max(reserved - prevQty, 0) - Max(reserved - nextQty, 0);
        var a := if n > 0 then Allocate(old(backorders), p, n) else Allocation(old(backorders), n, []);
        backorders == a.rows && fulfilled == a.done
    {
      fulfilled := [];
      var toAllocate := Max(reserved - prevQty, 0) - Max(reserved - nextQty, 0);
      if toAllocate > 0 {
        fulfilled := PlaceUnits(p, toAllocate);
      }
    }

    method Move(actor: Actor, m: Movement) returns (r: Result<seq<Backorder>>)
      modifies this
      ensures match LedgerSpec.Move(old(Contents()), actor, m)
        case Failure(e) => r == Failure(e) && Contents() == old(Contents())
        case Success(moved) => r == Success(moved.done) && Contents() == moved.state
    {
      if m.product !in products || !(actor.admin || products[m.product].seller == actor.seller) {
        return Failure(BadRequest);
      }
      var row := if m.product in stock then stock[m.product] else Stock(0, 0);
      var nextQty := row.quantity + (if m.kind == In then m.quantity else -m.quantity);
      if m.kind == Out && nextQty < 0 {
        return Failure(BadRequest);
      }
      var fulfilled := ApplyMove(m, row, nextQty);
      r := Success(fulfilled);
    }

    /** Writes the stock row and the movement; an arrival goes to the rows that wait. */
    method ApplyMove(m: Movement, row: Stock, nextQty: int) returns (fulfilled: seq<Backorder>)
      requires nextQty == row.quantity + m.Signed()
      modifies this
      ensures Moved(Contents(), fulfilled) ==
              WriteMove(old(Contents()), m, row, AllocateArrival(old(backorders), m, row))
    {
      stock := stock[m.product := row.(quantity := nextQty)];
      movements := movements + [m];
      fulfilled := [];
      if m.kind == In {
        fulfilled := AllocateBackorders(m.product, row.quantity, nextQty, row.reserved);
      }
    }

    /** Pending units and distinct waiting orders per product. */
    method SummaryByProductIds(productIds: set<int>, owner: Option<string>)
      returns (owed: map<int, int>, waiting: map<int, set<nat>>)
      ensures Tally(owed, waiting) == TallyAll(productIds, owner, backorders)
    {
      owed, waiting := map[], map[];
      for i := 0 to |backorders|
        invariant Tally(owed, waiting) == TallyAll(productIds, owner, backorders[..i])
      {
        var row := backorders[i];
        assert backorders[..i + 1][..i] == backorders[..i];
        if row.product !in productIds || row.status != Pending || (owner.Some? && row.seller != owner.value) {
          continue;
        }
        var units := row.quantity - row.fulfilled;
        if units <= 0 {
          continue;
        }
        var current := if row.product in owed then owed[row.product] else 0;
        owed := owed[row.product := current + units];
        var orders := if row.product in waiting then waiting[row.product] else {};
        waiting := waiting[row.product := orders + {row.order}];
      }
      assert backorders[..|backorders|] == backorders;
    }
  }

  // ---- The backorder summary ----

  datatype Tally = Tally(owed: map<int, int>, waiting: map<int, set<nat>>)

  /** The rows a summary sees: pending, short, and in the caller's tenant. */
  predicate Seen(owner: Option<string>, p: int, b: Backorder) {
    b.PendingFor(p) && b.Remaining() > 0 && (owner.Some? ==> b.seller == owner.value)
  }

  function SeenUnits(owner: Option<string>, p: int): Backorder -> int {
    (b: Backorder) => if Seen(owner, p, b) then b.Remaining() else 0
  }

  function TallyRow(ids: set<int>, owner: Option<string>, t: Tally, b: Backorder): Tally {
    if b.product !in ids || !Seen(owner, b.product, b) then t
    else
      Tally(t.owed[b.product := (if b.product in t.owed then t.owed[b.product] else 0) + b.Remaining()],
            t.waiting[b.product := (if b.product in t.waiting then t.waiting[b.product] else {}) + {b.order}])
  }

  function TallyAll(ids: set<int>, owner: Option<string>, rows: seq<Backorder>): Tally {
    if rows == [] then Tally(map[], map[])
    else TallyRow(ids, owner, TallyAll(ids, owner, rows[..|rows| - 1]), rows[|rows| - 1])
  }

  /** A product appears exactly when some visible row of it is short; its figures are the
      units all its visible rows lack and the orders they belong to, each once. */
  lemma {:induction false} TallyMeans(ids: set<int>, owner: Option<string>, rows: seq<Backorder>, p: int)
    ensures var t := TallyAll(ids, owner, rows);
      && (p in t.owed <==> p in ids && exists b <- rows :: Seen(owner, p, b))
      && (p in t.waiting <==> p in t.owed)
      && (p in t.owed ==>
            && t.owed[p] == Sum(rows, SeenUnits(owner, p)) > 0
            && t.waiting[p] == set b <- rows | Seen(owner, p, b) :: b.order)
      && (p in ids && p !in t.owed ==> Sum(rows, SeenUnits(owner, p)) == 0)
  {
    if rows != [] {
      var n := |rows| - 1;
      TallyMeans(ids, owner, rows[..n], p);
      SeenLast(owner, rows, p);
    }
  }

  lemma {:induction false} SeenLast(owner: Option<string>, rows: seq<Backorder>, p: int)
    requires rows != []
    ensures var n := |rows| - 1;
      && ((exists b <- rows :: Seen(owner, p, b)) <==>
            (exists b <- rows[..n] :: Seen(owner, p, b)) || Seen(owner, p, rows[n]))
      && (set b <- rows | Seen(owner, p, b) :: b.order) ==
         (set b <- rows[..n] | Seen(owner, p, b) :: b.order) +
         (if Seen(owner, p, rows[n]) then {rows[n].order} else {})
  {
    var n := |rows| - 1;
    assert rows == rows[..n] + [rows[n]];
  }

  /** Without a tenant filter and on sound rows the summary is the owed sum itself. */
  lemma SummaryIsOwed(s: State, ids: set<int>, p: int)
    requires p in ids && forall b <- s.backorders :: b.status == Pending ==> b.fulfilled < b.quantity
    ensures var t := TallyAll(ids, None, s.backorders);
      Owed(s, p) == (if p in t.owed then t.owed[p] else 0)
  {
    TallyMeans(ids, None, s.backorders, p);
    SumEqual(s.backorders, s.backorders, SeenUnits(None, p), RemainingFor(p));
  }

  lemma SubsetOfEqualSize<T>(a: set<T>, b: set<T>)
    requires a <= b
    ensures |a| == |b| <==> a == b
  {
    if a != b {
      assert b == a + (b - a);
      assert |b| == |a| + |b - a|;
      var x :| x in b - a;
      assert |b - a| > 0;
    }
  }

  /** The rows of `front` with those of `rows` after them. */
  ghost predicate Spliced<T(!new)>(all: seq<T>, front: seq<T>, rows: seq<T>) {
    && |front| <= |rows| == |all|
    && (forall k | 0 <= k < |front| :: all[k] == front[k])
    && (forall k | |front| <= k < |rows| :: all[k] == rows[k])
  }

  lemma {:induction false} SplicedNext<T(!new)>(all: seq<T>, front: seq<T>, rows: seq<T>, x: T)
    requires Spliced(all, front, rows) && |front| < |rows|
    ensures Spliced(all[|front| := x], front + [x], rows)
  {
  }

  /** The allocation once the first `i` rows have been offered their share. */
  function AllocateTo(rows: seq<Backorder>, p: int, n: int, i: nat): Allocation
    requires i <= |rows|
    decreases i
  {
    if i <= 0 then Allocation([], n, []) else AllocateRow(AllocateTo(rows, p, n, i - 1), rows[i - 1], p)
  }

  lemma {:induction false} AllocateToPrefix(rows: seq<Backorder>, p: int, n: int, i: nat)
    requires i <= |rows|
    ensures AllocateTo(rows, p, n, i) == Allocate(rows[..i], p, n)
    decreases i
  {
    if i > 0 {
      AllocateToPrefix(rows, p, n, i - 1);
      assert rows[..i][..i - 1] == rows[..i - 1];
    }
  }

  /** With no units or no rows left the remaining rows stay as they are. */
  lemma {:induction false} NothingLeft(rows: seq<Backorder>, p: int, n: int, i: nat)
    requires i <= |rows| && (AllocateTo(rows, p, n, i).left <= 0 || i == |rows|)
    ensures var a := AllocateTo(rows, p, n, i);
      Allocate(rows, p, n) == Allocation(a.rows + rows[i..], a.left, a.done)
  {
    AllocateToPrefix(rows, p, n, |rows|);
    assert rows[..|rows|] == rows;
    RestStays(rows, p, n, i, |rows|);
  }

  lemma {:induction false} RestStays(rows: seq<Backorder>, p: int, n: int, i: nat, j: nat)
    requires i <= j <= |rows| && (AllocateTo(rows, p, n, i).left <= 0 || i == j)
    ensures var a := AllocateTo(rows, p, n, i);
      AllocateTo(rows, p, n, j) == Allocation(a.rows + rows[i..j], a.left, a.done)
    decreases j
  {
    if i < j {
      RestStays(rows, p, n, i, j - 1);
      assert rows[i..j - 1] + [rows[j - 1]] == rows[i..j];
    }
  }
}
