/** Folds over table rows. Every fold peels the LAST row, so appending a row unfolds
    in one step and a loop over rows has its prefix `rows[..i]` as accumulator. */
module Seqs {

  function Max(a: int, b: int): int { if a >= b then a else b }

  function Min(a: int, b: int): int { if a <= b then a else b }

  function Sum<T>(rows: seq<T>, f: T -> int): int {
    if rows == [] then 0 else Sum(rows[..|rows| - 1], f) + f(rows[|rows| - 1])
  }

  function Filter<T>(rows: seq<T>, keep: T -> bool): seq<T> {
    if rows == [] then []
    else
      var front := Filter(rows[..|rows| - 1], keep);
      if keep(rows[|rows| - 1]) then front + [rows[|rows| - 1]] else front
  }

  function Fold<A, T>(start: A, rows: seq<T>, f: (A, T) -> A): A {
    if rows == [] then start else f(Fold(start, rows[..|rows| - 1], f), rows[|rows| - 1])
  }

  lemma {:induction false} FoldPrefix<A, T>(start: A, rows: seq<T>, i: nat, f: (A, T) -> A)
    requires i < |rows|
    ensures Fold(start, rows[..i + 1], f) == f(Fold(start, rows[..i], f), rows[i])
  {
    assert rows[..i + 1][..i] == rows[..i];
  }

  lemma {:induction false} FoldConcat<A, T>(start: A, a: seq<T>, b: seq<T>, f: (A, T) -> A)
    ensures Fold(start, a + b, f) == Fold(Fold(start, a, f), b, f)
  {
    if b == [] {
      assert a + b == a;
    } else {
      var n := |b| - 1;
      FoldConcat(start, a, b[..n], f);
      assert (a + b)[..|a| + n] == a + b[..n];
    }
  }

  lemma SumAppend<T>(rows: seq<T>, x: T, f: T -> int)
    ensures Sum(rows + [x], f) == Sum(rows, f) + f(x)
  {
    assert (rows + [x])[..|rows|] == rows;
  }

  lemma {:induction false} SumConcat<T>(a: seq<T>, b: seq<T>, f: T -> int)
    ensures Sum(a + b, f) == Sum(a, f) + Sum(b, f)
  {
    if b == [] {
      assert a + b == a;
    } else {
      var n := |b| - 1;
      SumConcat(a, b[..n], f);
      assert a + b == (a + b[..n]) + [b[n]];
      SumAppend(a + b[..n], b[n], f);
    }
  }

  lemma SumPrefix<T>(rows: seq<T>, i: nat, f: T -> int)
    requires i < |rows|
    ensures Sum(rows[..i + 1], f) == Sum(rows[..i], f) + f(rows[i])
  {
    assert rows[..i + 1] == rows[..i] + [rows[i]];
    SumAppend(rows[..i], rows[i], f);
  }

  lemma {:induction false} SumNonNegative<T>(rows: seq<T>, f: T -> int)
    requires forall x <- rows :: f(x) >= 0
    ensures Sum(rows, f) >= 0
  {
    if rows != [] {
      SumNonNegative(rows[..|rows| - 1], f);
    }
  }

  /** Row by row `f` before plus `h` equals `g`, hence so do the sums. */
  lemma {:induction false} SumSplit<A, B>(a: seq<A>, b: seq<B>, f: A -> int, h: B -> int, g: B -> int)
    requires |a| == |b|
    requires forall i | 0 <= i < |a| :: f(a[i]) + h(b[i]) == g(b[i])
    ensures Sum(a, f) + Sum(b, h) == Sum(b, g)
  {
    if a != [] {
      var n := |a| - 1;
      SumSplit(a[..n], b[..n], f, h, g);
    }
  }

  lemma {:induction false} SumEqual<A, B>(a: seq<A>, b: seq<B>, f: A -> int, g: B -> int)
    requires |a| == |b|
    requires forall i | 0 <= i < |a| :: f(a[i]) == g(b[i])
    ensures Sum(a, f) == Sum(b, g)
  {
    if a != [] {
      var n := |a| - 1;
      SumEqual(a[..n], b[..n], f, g);
    }
  }

  lemma {:induction false} SumAtMost<A, B>(a: seq<A>, b: seq<B>, f: A -> int, g: B -> int)
    requires |a| == |b|
    requires forall i | 0 <= i < |a| :: f(a[i]) <= g(b[i])
    ensures Sum(a, f) <= Sum(b, g)
  {
    if a != [] {
      var n := |a| - 1;
      SumAtMost(a[..n], b[..n], f, g);
    }
  }

  /** Dropping rows that weigh nothing leaves the sum. */
  lemma {:induction false} SumFilter<T>(rows: seq<T>, keep: T -> bool, f: T -> int)
    requires forall x <- rows :: keep(x) || f(x) == 0
    ensures Sum(Filter(rows, keep), f) == Sum(rows, f)
  {
    if rows != [] {
      var n := |rows| - 1;
      SumFilter(rows[..n], keep, f);
      if keep(rows[n]) {
        SumAppend(Filter(rows[..n], keep), rows[n], f);
      }
    }
  }

  /** What dropped rows weigh, `g`, is what the sum loses. */
  lemma {:induction false} SumFilterSplit<T>(rows: seq<T>, keep: T -> bool, f: T -> int, g: T -> int)
    requires forall x <- rows :: g(x) == if keep(x) then 0 else f(x)
    ensures Sum(Filter(rows, keep), f) == Sum(rows, f) - Sum(rows, g)
  {
    if rows != [] {
      var n := |rows| - 1;
      SumFilterSplit(rows[..n], keep, f, g);
      if keep(rows[n]) {
        SumAppend(Filter(rows[..n], keep), rows[n], f);
      }
    }
  }

  lemma {:induction false} SumZero<T>(rows: seq<T>, f: T -> int)
    requires forall x <- rows :: f(x) == 0
    ensures Sum(rows, f) == 0
  {
    if rows != [] {
      SumZero(rows[..|rows| - 1], f);
    }
  }

  /** Weights below zero excluded, a zero sum means zero rows. */
  lemma {:induction false} SumZeroEach<T>(rows: seq<T>, f: T -> int)
    requires forall x <- rows :: f(x) >= 0
    requires Sum(rows, f) == 0
    ensures forall x <- rows :: f(x) == 0
  {
    if rows != [] {
      var n := |rows| - 1;
      SumNonNegative(rows[..n], f);
      assert rows[n] in rows;
      SumZeroEach(rows[..n], f);
      assert rows == rows[..n] + [rows[n]];
    }
  }

  lemma {:induction false} FilterMember<T>(rows: seq<T>, keep: T -> bool, x: T)
    ensures x in Filter(rows, keep) <==> x in rows && keep(x)
  {
    if rows != [] {
      FilterMember(rows[..|rows| - 1], keep, x);
      assert rows == rows[..|rows| - 1] + [rows[|rows| - 1]];
    }
  }

  lemma FilterAppend<T>(rows: seq<T>, x: T, keep: T -> bool)
    ensures Filter(rows + [x], keep) == Filter(rows, keep) + (if keep(x) then [x] else [])
  {
    assert (rows + [x])[..|rows|] == rows;
  }

  /** Rewriting and dropping only rows outside `mine` leaves the rows of `mine`. */
  lemma {:induction false} FilterRewritten<T>(a: seq<T>, b: seq<T>, mine: T -> bool)
    requires |a| == |b|
    requires forall i | 0 <= i < |a| :: mine(a[i]) == mine(b[i]) && (mine(a[i]) ==> a[i] == b[i])
    ensures Filter(a, mine) == Filter(b, mine)
  {
    if a != [] {
      var n := |a| - 1;
      FilterRewritten(a[..n], b[..n], mine);
    }
  }

  lemma {:induction false} FilterDropped<T>(rows: seq<T>, keep: T -> bool, mine: T -> bool)
    requires forall x <- rows :: keep(x) || !mine(x)
    ensures Filter(Filter(rows, keep), mine) == Filter(rows, mine)
  {
    if rows != [] {
      var n := |rows| - 1;
      FilterDropped(rows[..n], keep, mine);
      if keep(rows[n]) {
        FilterAppend(Filter(rows[..n], keep), rows[n], mine);
      }
    }
  }
}
