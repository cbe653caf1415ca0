/** First-in-first-out allocation of an arrival to pending backorders. */
module LedgerAllocation {
  import opened Seqs
  import opened Tables
  import opened LedgerSpec

  /** The rows that went from pending to fulfilled, in order. */
  function Completed(before: seq<Backorder>, after: seq<Backorder>): seq<Backorder>
    requires |before| == |after|
  {
    if before == [] then []
    else
      var n := |before| - 1;
      Completed(before[..n], after[..n]) +
      (if before[n].status == Pending && after[n].status == Fulfilled then [after[n]] else [])
  }

  /** What the columns of one row may say. */
  predicate RowShape(b: Backorder) {
    && 0 <= b.fulfilled <= b.quantity
    && (b.status == Pending ==> b.fulfilled < b.quantity)
    && (b.status == Fulfilled ==> b.fulfilled == b.quantity)
  }

  predicate RowsShape(rows: seq<Backorder>) {
    forall b <- rows :: RowShape(b)
  }

  /** Of two pending rows of one product only the older may be partly filled. */
  predicate Fifo(rows: seq<Backorder>) {
    forall i, j | 0 <= i < j < |rows| ::
      rows[i].status == Pending && rows[j].status == Pending && rows[i].product == rows[j].product
      ==> rows[j].fulfilled == 0
  }

  function Before(rows: seq<Backorder>, p: int, i: nat): int
    requires i <= |rows|
  {
    Sum(rows[..i], RemainingFor(p))
  }

  /** What row `i` gets: its remainder, as far as the older rows leave units. */
  function Share(rows: seq<Backorder>, p: int, n: int, i: nat): int
    requires i < |rows|
  {
    if rows[i].PendingFor(p) then Min(rows[i].Remaining(), Max(n - Before(rows, p, i), 0)) else 0
  }

  lemma OwedNonNegative(rows: seq<Backorder>, p: int)
    requires RowsShape(rows)
    ensures Sum(rows, RemainingFor(p)) >= 0
  {
    SumNonNegative(rows, RemainingFor(p));
  }

  /** Covering `take` of a row's remainder keeps the row sound and lowers the remainder by it. */
  lemma CoverShape(b: Backorder, take: int)
    requires RowShape(b) && 0 <= take && (take > 0 ==> take <= b.Remaining())
    ensures var c := Cover(b, take);
      && RowShape(c) && c.Remaining() == b.Remaining() - take && c.fulfilled == b.fulfilled + take
      && c.product == b.product && c.order == b.order && c.seller == b.seller && c.item == b.item
      && (c.status == Pending <==> b.status == Pending && take < b.Remaining())
      && (take > 0 ==> (c.status == Fulfilled <==> take == b.Remaining()))
  {
  }

  lemma TakeBounds(b: Backorder, p: int, left: int)
    requires RowShape(b) && left >= 0
    ensures var take := Take(b, p, left);
      && take == (if b.PendingFor(p) then Min(b.Remaining(), left) else 0)
      && 0 <= take <= left && (take > 0 ==> take <= b.Remaining())
  {
  }

  lemma RowLeft(a: Allocation, b: Backorder, p: int)
    requires a.left >= 0 && RowShape(b)
    ensures var c, units := AllocateRow(a, b, p), RemainingFor(p)(b);
      && c.left == Max(a.left - units, 0)
      && Sum(c.rows, RemainingFor(p)) == Sum(a.rows, RemainingFor(p)) + units - (a.left - c.left)
  {
    var take := Take(b, p, a.left);
    TakeBounds(b, p, a.left);
    CoverShape(b, take);
    SumAppend(a.rows, Cover(b, take), RemainingFor(p));
  }

  lemma {:induction false} AllocateLeft(rows: seq<Backorder>, p: int, n: int)
    requires n >= 0 && RowsShape(rows)
    ensures var a := Allocate(rows, p, n);
      && a.left == Max(n - Sum(rows, RemainingFor(p)), 0)
      && Sum(a.rows, RemainingFor(p)) == Sum(rows, RemainingFor(p)) - (n - a.left)
  {
    if rows != [] {
      var m := |rows| - 1;
      AllocateLeft(rows[..m], p, n);
      OwedNonNegative(rows, p);
      OwedNonNegative(rows[..m], p);
      RowLeft(Allocate(rows[..m], p, n), rows[m], p);
    }
  }

  lemma {:induction false} LastShare(rows: seq<Backorder>, p: int, n: int)
    requires n >= 0 && RowsShape(rows) && rows != []
    ensures var m := |rows| - 1;
      Take(rows[m], p, Allocate(rows[..m], p, n).left) == Share(rows, p, n, m)
  {
    var m := |rows| - 1;
    AllocateLeft(rows[..m], p, n);
    assert rows[m] in rows && RowShape(rows[m]);
    TakeBounds(rows[m], p, Allocate(rows[..m], p, n).left);
  }

  lemma {:induction false} AllocateShare(rows: seq<Backorder>, p: int, n: int, i: nat)
    requires n >= 0 && RowsShape(rows) && i < |rows|
    ensures Allocate(rows, p, n).rows[i] == Cover(rows[i], Share(rows, p, n, i))
  {
    var m := |rows| - 1;
    if i < m {
      AllocateShare(rows[..m], p, n, i);
      ShareOfPrefix(rows, p, n, i, m);
    } else {
      LastShare(rows, p, n);
    }
  }

  lemma {:induction false} AllocateShares(rows: seq<Backorder>, p: int, n: int)
    requires n >= 0 && RowsShape(rows)
    ensures forall i | 0 <= i < |rows| :: Allocate(rows, p, n).rows[i] == Cover(rows[i], Share(rows, p, n, i))
  {
    forall i | 0 <= i < |rows| ensures Allocate(rows, p, n).rows[i] == Cover(rows[i], Share(rows, p, n, i)) {
      AllocateShare(rows, p, n, i);
    }
  }

  /** An arrival reports exactly the backorders it completed. */
  lemma {:induction false} DoneAreCompleted(rows: seq<Backorder>, p: int, n: int)
    requires n >= 0 && RowsShape(rows)
    ensures Allocate(rows, p, n).done == Completed(rows, Allocate(rows, p, n).rows)
  {
    if rows != [] {
      var m := |rows| - 1;
      DoneAreCompleted(rows[..m], p, n);
      AllocateLeft(rows[..m], p, n);
      var front := Allocate(rows[..m], p, n);
      assert Allocate(rows, p, n).rows[..m] == front.rows;
      TakeBounds(rows[m], p, front.left);
      CoverShape(rows[m], Take(rows[m], p, front.left));
    }
  }

  lemma ShareOfPrefix(rows: seq<Backorder>, p: int, n: int, i: nat, m: nat)
    requires i < m <= |rows|
    ensures Share(rows[..m], p, n, i) == Share(rows, p, n, i)
  {
    assert rows[..m][..i] == rows[..i];
  }

  lemma ShareBounds(rows: seq<Backorder>, p: int, n: int, i: nat)
    requires i < |rows| && RowsShape(rows)
    ensures 0 <= Share(rows, p, n, i) && (Share(rows, p, n, i) > 0 ==> Share(rows, p, n, i) <= rows[i].Remaining())
  {
    assert RowShape(rows[i]);
  }

  /** Allocation keeps every row sound, moves no row to another order or product, and keeps
      the first-in-first-out rule. */
  lemma {:induction false} AllocateKeeps(rows: seq<Backorder>, p: int, n: int)
    requires n >= 0 && RowsShape(rows)
    ensures var after := Allocate(rows, p, n).rows;
      && RowsShape(after)
      && (forall i | 0 <= i < |rows| :: SameOwner(rows[i], after[i]) && after[i].Remaining() <= rows[i].Remaining())
      && (forall i | 0 <= i < |rows| && rows[i].product != p :: after[i] == rows[i])
      && (Fifo(rows) ==> Fifo(after))
  {
    AllocateShares(rows, p, n);
    var after := Allocate(rows, p, n).rows;
    forall i | 0 <= i < |rows|
      ensures RowShape(after[i]) && SameOwner(rows[i], after[i]) && after[i].Remaining() <= rows[i].Remaining()
    {
      ShareBounds(rows, p, n, i);
      assert RowShape(rows[i]);
      CoverShape(rows[i], Share(rows, p, n, i));
    }
    if Fifo(rows) {
      AllocateFifo(rows, p, n);
    }
  }

  predicate SameOwner(b: Backorder, c: Backorder) {
    && b.seller == c.seller && b.order == c.order && b.item == c.item && b.product == c.product
    && b.quantity == c.quantity && (c.status == Pending ==> b.status == Pending)
  }

  lemma {:induction false} BeforeGrows(rows: seq<Backorder>, p: int, i: nat, j: nat)
    requires i < j <= |rows| && RowsShape(rows)
    ensures Before(rows, p, i) + (if rows[i].product == p then rows[i].Remaining() else 0) <= Before(rows, p, j)
  {
    SumPrefix(rows, j - 1, RemainingFor(p));
    assert RowShape(rows[j - 1]);
    if i < j - 1 {
      BeforeGrows(rows, p, i, j - 1);
    }
  }

  lemma {:induction false} AllocateFifo(rows: seq<Backorder>, p: int, n: int)
    requires n >= 0 && RowsShape(rows) && Fifo(rows)
    ensures Fifo(Allocate(rows, p, n).rows)
  {
    AllocateShares(rows, p, n);
    var after := Allocate(rows, p, n).rows;
    forall i, j | 0 <= i < j < |rows| &&
      after[i].status == Pending && after[j].status == Pending && after[i].product == after[j].product
      ensures after[j].fulfilled == 0
    {
      AllocateFifoPair(rows, p, n, i, j);
    }
  }

  lemma AllocateFifoPair(rows: seq<Backorder>, p: int, n: int, i: nat, j: nat)
    requires i < j < |rows| && n >= 0 && RowsShape(rows) && Fifo(rows)
    requires var b, c := Cover(rows[i], Share(rows, p, n, i)), Cover(rows[j], Share(rows, p, n, j));
      b.status == Pending && c.status == Pending && b.product == c.product
    ensures Cover(rows[j], Share(rows, p, n, j)).fulfilled == 0
  {
    assert RowShape(rows[i]) && RowShape(rows[j]);
    ShareBounds(rows, p, n, i);
    ShareBounds(rows, p, n, j);
    CoverShape(rows[i], Share(rows, p, n, i));
    CoverShape(rows[j], Share(rows, p, n, j));
    BeforeGrows(rows, p, i, j);
  }

  lemma {:induction false} AllocateNothing(rows: seq<Backorder>, p: int)
    ensures Allocate(rows, p, 0) == Allocation(rows, 0, [])
  {
    if rows != [] {
      AllocateNothing(rows[..|rows| - 1], p);
    }
  }

  lemma CoverTwice(b: Backorder, p: int, x: int, y: int)
    requires RowShape(b) && x >= 0 && y >= 0
    ensures var t := Take(b, p, x);
      var c := Cover(b, t);
      var u := Take(c, p, y);
      var w := Take(b, p, x + y);
      && w == t + u && Cover(c, u) == Cover(b, w) && 0 <= t <= x && 0 <= u <= y
      && (u > 0 ==> t == x)
      && ((t > 0 && c.status == Fulfilled) ==> u == 0 && w > 0 && Cover(b, w) == c)
      && ((u > 0 && Cover(c, u).status == Fulfilled) <==>
            w > 0 && Cover(b, w).status == Fulfilled && !(t > 0 && c.status == Fulfilled))
  {
  }

  /** Two passes, `a` then `b`, and one pass `c` have come to the same rows. */
  ghost predicate Together(a: Allocation, b: Allocation, c: Allocation) {
    && b.rows == c.rows && a.left + b.left == c.left && a.done + b.done == c.done
    && a.left >= 0 && b.left >= 0 && (a.left > 0 ==> b.done == [])
  }

  lemma RowTwice(a: Allocation, b: Allocation, c: Allocation, row: Backorder, p: int)
    requires Together(a, b, c) && RowShape(row)
    ensures var mid := Cover(row, Take(row, p, a.left));
      Together(AllocateRow(a, row, p), AllocateRow(b, mid, p), AllocateRow(c, row, p))
  {
    CoverTwice(row, p, a.left, b.left);
    var mid := Cover(row, Take(row, p, a.left));
    assert c.done + [mid] == a.done + [mid] + b.done || b.done != [];
  }

  lemma {:induction false} AllocateTwice(rows: seq<Backorder>, p: int, x: int, y: int)
    requires x >= 0 && y >= 0 && RowsShape(rows)
    ensures var a := Allocate(rows, p, x);
      Together(a, Allocate(a.rows, p, y), Allocate(rows, p, x + y))
  {
    if rows != [] {
      var m := |rows| - 1;
      AllocateTwice(rows[..m], p, x, y);
      var front := Allocate(rows[..m], p, x);
      var a := Allocate(rows, p, x);
      assert a.rows[..m] == front.rows;
      RowTwice(front, Allocate(front.rows, p, y), Allocate(rows[..m], p, x + y), rows[m], p);
    }
  }

  /** Splitting a restock does not matter: arrivals of `x` and then `y` units leave the
      same stock and backorders, and report the same completed orders, as one of `x + y`. */
  lemma {:induction false} SplitRestock(s: State, actor: Actor, m: Movement, x: int, y: int)
    requires RowsShape(s.backorders) && m.kind == In && x >= 0 && y >= 0
    ensures var whole := Move(s, actor, m.(quantity := x + y));
      var first := Move(s, actor, m.(quantity := x));
      && (whole.Success? <==> first.Success?)
      && (whole.Success? ==>
            var second := Move(first.value.state, actor, m.(quantity := y));
            && second.Success?
            && second.value.state.(movements := whole.value.state.movements) == whole.value.state
            && first.value.done + second.value.done == whole.value.done)
  {
    var row := RowAt(s, m.product);
    var a, b, c := SplitArrival(s.backorders, row, m, x, y);
    var first := Move(s, actor, m.(quantity := x));
    if first.Success? {
      var s1 := first.value.state;
      assert RowAt(s1, m.product) == row.(quantity := row.quantity + x);
      assert s1.backorders == AllocateArrival(s.backorders, m.(quantity := x), row).rows;
      var second := Move(s1, actor, m.(quantity := y));
      assert second.Success?;
    }
  }

  lemma {:induction false} CoveredSplit(row: Stock, x: int, y: int) returns (n: int, k: int, whole: int)
    requires x >= 0 && y >= 0
    ensures n == Covered(row, row.quantity + x) >= 0
    ensures var row1 := row.(quantity := row.quantity + x); k == Covered(row1, row1.quantity + y) >= 0
    ensures n + k == whole == Covered(row, row.quantity + (x + y))
  {
    var row1 := row.(quantity := row.quantity + x);
    n, k := Covered(row, row.quantity + x), Covered(row1, row1.quantity + y);
    whole := n + k;
  }

  lemma {:induction false} ArrivalIsAllocate(rows: seq<Backorder>, m: Movement, row: Stock, n: int)
    requires m.kind == In && n == Covered(row, row.quantity + m.quantity) >= 0
    ensures AllocateArrival(rows, m, row) == Allocate(rows, m.product, n)
  {
    if n == 0 {
      AllocateNothing(rows, m.product);
    }
  }

  lemma {:induction false} ArrivalGives(
      rows: seq<Backorder>, row: Stock, m: Movement, x: int, n: int, a: Allocation)
    requires m.kind == In && n == Covered(row, row.quantity + x) >= 0 && a == Allocate(rows, m.product, n)
    ensures a == AllocateArrival(rows, m.(quantity := x), row)
  {
    ArrivalIsAllocate(rows, m.(quantity := x), row, n);
  }

  lemma {:induction false} SplitArrival(rows: seq<Backorder>, row: Stock, m: Movement, x: int, y: int)
    returns (a: Allocation, b: Allocation, c: Allocation)
    requires RowsShape(rows) && m.kind == In && x >= 0 && y >= 0
    ensures a == AllocateArrival(rows, m.(quantity := x), row)
    ensures b == AllocateArrival(a.rows, m.(quantity := y), row.(quantity := row.quantity + x))
    ensures c == AllocateArrival(rows, m.(quantity := x + y), row)
    ensures Together(a, b, c)
  {
    var n, k, whole := CoveredSplit(row, x, y);
    a, b, c := SplitAllocation(rows, m.product, n, k, whole);
    PartsArrive(rows, row, m, x, y, n, k, a, b);
    ArrivalGives(rows, row, m, x + y, whole, c);
  }

  lemma {:induction false} PartsArrive(
      rows: seq<Backorder>, row: Stock, m: Movement, x: int, y: int, n: int, k: int, a: Allocation, b: Allocation)
    requires m.kind == In && n == Covered(row, row.quantity + x) >= 0
    requires var row1 := row.(quantity := row.quantity + x); k == Covered(row1, row1.quantity + y) >= 0
    requires a == Allocate(rows, m.product, n) && b == Allocate(a.rows, m.product, k)
    ensures a == AllocateArrival(rows, m.(quantity := x), row)
    ensures b == AllocateArrival(a.rows, m.(quantity := y), row.(quantity := row.quantity + x))
  {
    ArrivalGives(rows, row, m, x, n, a);
    ArrivalGives(a.rows, row.(quantity := row.quantity + x), m, y, k, b);
  }

  lemma {:induction false} SplitAllocation(rows: seq<Backorder>, p: int, x: int, y: int, whole: int)
    returns (a: Allocation, b: Allocation, c: Allocation)
    requires x >= 0 && y >= 0 && whole == x + y && RowsShape(rows)
    ensures a == Allocate(rows, p, x) && b == Allocate(a.rows, p, y) && c == Allocate(rows, p, whole)
    ensures Together(a, b, c)
  {
    a := Allocate(rows, p, x);
    b := Allocate(a.rows, p, y);
    c := Allocate(rows, p, x + y);
    AllocateTwice(rows, p, x, y);
  }
}
