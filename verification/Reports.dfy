/** Report aggregations: records keyed by day, status, category or product, filled in loops. */
module Reports {
  import opened Seqs
  import opened Tables

  datatype Sold = Sold(product: int, category: Option<string>, quantity: int, total: int) {
    /** An absent or empty category is counted under Outros. */
    function CategoryName(): string { if category.GetOr("") == "" then "Outros" else category.value }
  }

  datatype ReportOrder = ReportOrder(status: string, day: string, hour: nat, total: int, items: seq<Sold>) {
    predicate CountsRevenue() { status != "canceled" }
  }

  // ---- Records: buckets in the order their keys first came up ----

  datatype Bucket<K> = Bucket(key: K, value: int)

  function Value<K>(): Bucket<K> -> int { (b: Bucket<K>) => b.value }

  predicate HasKey<K(==)>(buckets: seq<Bucket<K>>, key: K) { exists b <- buckets :: b.key == key }

  function IndexOf<K(==)>(buckets: seq<Bucket<K>>, key: K): (i: nat)
    requires HasKey(buckets, key)
    ensures i < |buckets| && buckets[i].key == key
  {
    if buckets[0].key == key then 0 else 1 + IndexOf(buckets[1..], key)
  }

  /** record[key] = (record[key] || 0) + amount */
  function Bump<K(==)>(buckets: seq<Bucket<K>>, key: K, amount: int): seq<Bucket<K>> {
    if HasKey(buckets, key) then
      var i := IndexOf(buckets, key);
      buckets[i := Bucket(key, buckets[i].value + amount)]
    else buckets + [Bucket(key, amount)]
  }

  function Tally<T, K(==)>(rows: seq<T>, key: T -> K, amount: T -> int): seq<Bucket<K>> {
    if rows == [] then []
    else
      var last := rows[|rows| - 1];
      Bump(Tally(rows[..|rows| - 1], key, amount), key(last), amount(last))
  }

  predicate Distinct<K(==)>(buckets: seq<Bucket<K>>) {
    forall i, j | 0 <= i < j < |buckets| :: buckets[i].key != buckets[j].key
  }

  function Under<T, K(==)>(key: T -> K, amount: T -> int, k: K): T -> int {
    (x: T) => if key(x) == k then amount(x) else 0
  }

  lemma {:induction false} SumUpdate<T>(rows: seq<T>, i: nat, x: T, f: T -> int)
    requires i < |rows|
    ensures Sum(rows[i := x], f) == Sum(rows, f) - f(rows[i]) + f(x)
  {
    var n := |rows| - 1;
    if i == n {
      assert rows[i := x][..n] == rows[..n];
    } else {
      SumUpdate(rows[..n], i, x, f);
      assert rows[i := x][..n] == rows[..n][i := x];
    }
  }

  lemma BumpConserves<K>(buckets: seq<Bucket<K>>, key: K, amount: int)
    ensures Sum(Bump(buckets, key, amount), Value()) == Sum(buckets, Value()) + amount
  {
    if HasKey(buckets, key) {
      var i := IndexOf(buckets, key);
      SumUpdate(buckets, i, Bucket(key, buckets[i].value + amount), Value());
    } else {
      SumAppend(buckets, Bucket(key, amount), Value());
    }
  }

  /** Conservation: the buckets of a record add up to the rows it was filled from. */
  lemma {:induction false} TallyConserves<T, K>(rows: seq<T>, key: T -> K, amount: T -> int)
    ensures Sum(Tally(rows, key, amount), Value()) == Sum(rows, amount)
  {
    if rows != [] {
      var n := |rows| - 1;
      TallyConserves(rows[..n], key, amount);
      BumpConserves(Tally(rows[..n], key, amount), key(rows[n]), amount(rows[n]));
    }
  }

  /** Each key has one bucket, holding exactly what its own rows amount to. */
  lemma {:induction false} TallyMeans<T, K>(rows: seq<T>, key: T -> K, amount: T -> int)
    ensures var buckets := Tally(rows, key, amount);
      && Distinct(buckets)
      && (forall b <- buckets :: b.value == Sum(rows, Under(key, amount, b.key)))
      && (forall k :: HasKey(buckets, k) <==> exists x <- rows :: key(x) == k)
  {
    if rows != [] {
      var n := |rows| - 1;
      var front, k := Tally(rows[..n], key, amount), key(rows[n]);
      TallyMeans(rows[..n], key, amount);
      var buckets := Tally(rows, key, amount);
      BumpDistinct(front, k, amount(rows[n]));
      forall b <- buckets ensures b.value == Sum(rows, Under(key, amount, b.key)) {
        BumpedFrom(front, k, amount(rows[n]), b);
        if b.key == k && !HasKey(front, k) {
          SumZero(rows[..n], Under(key, amount, k));
        }
      }
      forall c ensures HasKey(buckets, c) <==> HasKey(front, c) || c == k {
        TallyKeys(front, k, amount(rows[n]), c);
      }
    }
  }

  lemma BumpDistinct<K>(buckets: seq<Bucket<K>>, key: K, amount: int)
    requires Distinct(buckets)
    ensures Distinct(Bump(buckets, key, amount))
  {
    var after := Bump(buckets, key, amount);
    assert forall j | 0 <= j < |buckets| :: after[j].key == buckets[j].key;
    if !HasKey(buckets, key) {
      assert forall j | 0 <= j < |buckets| :: buckets[j] in buckets;
    }
  }

  /** A bucket of the bumped record was there before, with the amount less if it is the key's. */
  lemma BumpedFrom<K>(buckets: seq<Bucket<K>>, key: K, amount: int, b: Bucket<K>)
    requires Distinct(buckets) && b in Bump(buckets, key, amount)
    ensures b.key != key ==> b in buckets
    ensures b.key == key && HasKey(buckets, key) ==> Bucket(key, b.value - amount) in buckets
    ensures b.key == key && !HasKey(buckets, key) ==> b.value == amount
  {
    if HasKey(buckets, key) {
      var i := IndexOf(buckets, key);
      assert buckets[i] in buckets;
    }
  }

  lemma TallyKeys<K>(buckets: seq<Bucket<K>>, key: K, amount: int, c: K)
    ensures HasKey(Bump(buckets, key, amount), c) <==> HasKey(buckets, c) || c == key
  {
    var after := Bump(buckets, key, amount);
    if HasKey(buckets, key) {
      var i := IndexOf(buckets, key);
      assert forall j | 0 <= j < |buckets| :: after[j].key == buckets[j].key;
      assert after[i] in after;
      if HasKey(after, c) {
        var j :| 0 <= j < |after| && after[j].key == c;
        assert buckets[j] in buckets;
      }
      if HasKey(buckets, c) {
        var j :| 0 <= j < |buckets| && buckets[j].key == c;
        assert after[j] in after;
      }
    } else {
      assert after[|buckets|] in after;
    }
  }

  // ---- getChartsData ----

  function Revenue(): ReportOrder -> int { (o: ReportOrder) => o.total }

  function One(): ReportOrder -> int { (o: ReportOrder) => 1 }

  function DayOf(): ReportOrder -> string { (o: ReportOrder) => o.day }

  function StatusOf(): ReportOrder -> string { (o: ReportOrder) => o.status }

  function AtHour(h: int): ReportOrder -> int { (o: ReportOrder) => if o.hour == h then 1 else 0 }

  function IsRevenue(): ReportOrder -> bool { (o: ReportOrder) => o.CountsRevenue() }

  method CountHours(orders: seq<ReportOrder>) returns (hourly: array<int>)
    requires forall o <- orders :: o.hour < 24
    ensures fresh(hourly) && hourly.Length == 24
    ensures forall h | 0 <= h < 24 :: hourly[h] == Sum(orders, AtHour(h))
    ensures Sum(hourly[..], (n: int) => n) == |orders|
  {
    hourly := new int[24](_ => 0);
    SumZero(hourly[..], Same());
    for i := 0 to |orders|
      invariant forall h | 0 <= h < 24 :: hourly[h] == Sum(orders[..i], AtHour(h))
      invariant Sum(hourly[..], Same()) == i
    {
      var hour := orders[i].hour;
      ghost var before := hourly[..];
      hourly[hour] := hourly[hour] + 1;
      assert hourly[..] == before[hour := before[hour] + 1];
      SumUpdate(before, hour, before[hour] + 1, Same());
      forall h | 0 <= h < 24 ensures hourly[h] == Sum(orders[..i + 1], AtHour(h)) {
        SumPrefix(orders, i, AtHour(h));
      }
    }
    assert orders[..|orders|] == orders;
    SumEqual(hourly[..], hourly[..], Same(), (n: int) => n);
  }

  function Same(): int -> int { (n: int) => n }

  method CountStatuses(orders: seq<ReportOrder>) returns (statusCounts: seq<Bucket<string>>)
    ensures statusCounts == Tally(orders, StatusOf(), One())
    ensures Sum(statusCounts, Value()) == |orders|
  {
    statusCounts := [];
    for i := 0 to |orders|
      invariant statusCounts == Tally(orders[..i], StatusOf(), One())
    {
      assert orders[..i + 1][..i] == orders[..i];
      statusCounts := Bump(statusCounts, orders[i].status, 1);
    }
    assert orders[..|orders|] == orders;
    TallyConserves(orders, StatusOf(), One());
    CountIsLength(orders);
  }

  lemma {:induction false} CountIsLength(orders: seq<ReportOrder>)
    ensures Sum(orders, One()) == |orders|
  {
    if orders != [] {
      CountIsLength(orders[..|orders| - 1]);
    }
  }

  /** Canceled orders bring no revenue; the days add up to the revenue of the others. */
  method DailyRevenue(orders: seq<ReportOrder>) returns (dailyRevenue: seq<Bucket<string>>, totalRevenue: int)
    ensures var revenueOrders := Filter(orders, IsRevenue());
      && dailyRevenue == Tally(revenueOrders, DayOf(), Revenue())
      && totalRevenue == Sum(revenueOrders, Revenue()) == Sum(dailyRevenue, Value())
  {
    var revenueOrders := Filter(orders, IsRevenue());
    dailyRevenue, totalRevenue := [], 0;
    for i := 0 to |revenueOrders|
      invariant dailyRevenue == Tally(revenueOrders[..i], DayOf(), Revenue())
      invariant totalRevenue == Sum(revenueOrders[..i], Revenue())
    {
      assert revenueOrders[..i + 1][..i] == revenueOrders[..i];
      dailyRevenue := Bump(dailyRevenue, revenueOrders[i].day, revenueOrders[i].total);
      totalRevenue := totalRevenue + revenueOrders[i].total;
    }
    assert revenueOrders[..|revenueOrders|] == revenueOrders;
    TallyConserves(revenueOrders, DayOf(), Revenue());
  }

  // ---- getProductsReport ----

  /** A sold line with the word of its order on revenue. */
  datatype SoldLine = SoldLine(sold: Sold, counts: bool)

  function LinesOf(o: ReportOrder): seq<SoldLine> {
    seq(|o.items|, i requires 0 <= i < |o.items| => SoldLine(o.items[i], o.CountsRevenue()))
  }

  function AllLines(orders: seq<ReportOrder>): seq<SoldLine> {
    if orders == [] then [] else AllLines(orders[..|orders| - 1]) + LinesOf(orders[|orders| - 1])
  }

  function Counts(): SoldLine -> bool { (l: SoldLine) => l.counts }

  function CategoryKey(): SoldLine -> string { (l: SoldLine) => l.sold.CategoryName() }

  function ProductKey(): SoldLine -> int { (l: SoldLine) => l.sold.product }

  function LineTotal(): SoldLine -> int { (l: SoldLine) => l.sold.total }

  function LineRevenue(): SoldLine -> int { (l: SoldLine) => if l.counts then l.sold.total else 0 }

  function LineQuantity(): SoldLine -> int { (l: SoldLine) => l.sold.quantity }

  function OneLine(): SoldLine -> int { (l: SoldLine) => 1 }

  // ---- Category totals ----

  /** The method names every record inherits: read as a key that was never assigned, such a
      name gives a function, and a function plus a number is text. */
  const INHERITED: set<string> := {
    "constructor", "hasOwnProperty", "isPrototypeOf", "propertyIsEnumerable", "toLocaleString", "toString", "valueOf",
    "__defineGetter__", "__defineSetter__", "__lookupGetter__", "__lookupSetter__"}

  /** Read, this key gives an object; assigned text, it stays as it is. */
  const PROTO := "__proto__"

  datatype Amount = Number(n: int) | Text

  datatype Cell = Cell(category: string, amount: Amount)

  function Plus(a: Amount, n: int): Amount { if a.Number? then Number(a.n + n) else Text }

  predicate HasCell(cells: seq<Cell>, category: string) { exists c <- cells :: c.category == category }

  function CellAt(cells: seq<Cell>, category: string): (i: nat)
    requires HasCell(cells, category)
    ensures i < |cells| && cells[i].category == category
  {
    if cells[0].category == category then 0 else 1 + CellAt(cells[1..], category)
  }

  /** categoryTotals[category] = (categoryTotals[category] || 0) + amount, where any text is
      a category. */
  function BumpCell(cells: seq<Cell>, category: string, amount: int): seq<Cell> {
    if category == PROTO then cells
    else if HasCell(cells, category) then
      var i := CellAt(cells, category);
      cells[i := Cell(category, Plus(cells[i].amount, amount))]
    else cells + [Cell(category, Plus(if category in INHERITED then Text else Number(0), amount))]
  }

  /** How a bucket shows in the record: a sum, unless its name is inherited. */
  function Shown(inherited: set<string>, b: Bucket<string>): Cell {
    Cell(b.key, if b.key in inherited then Text else Number(b.value))
  }

  function AllShown(inherited: set<string>, buckets: seq<Bucket<string>>): seq<Cell> {
    seq(|buckets|, i requires 0 <= i < |buckets| => Shown(inherited, buckets[i]))
  }

  function Kept(): SoldLine -> bool { (l: SoldLine) => l.sold.CategoryName() != PROTO }

  function LostTotal(): SoldLine -> int { (l: SoldLine) => if l.sold.CategoryName() == PROTO then l.sold.total else 0 }

  function CategoryBuckets(lines: seq<SoldLine>): seq<Bucket<string>> {
    Tally(Filter(lines, Kept()), CategoryKey(), LineTotal())
  }

  function CellsOf(lines: seq<SoldLine>): seq<Cell> { AllShown(INHERITED, CategoryBuckets(lines)) }

  lemma {:induction false} ShownAt(inherited: set<string>, buckets: seq<Bucket<string>>, category: string)
    ensures HasCell(AllShown(inherited, buckets), category) <==> HasKey(buckets, category)
    ensures HasKey(buckets, category) ==> CellAt(AllShown(inherited, buckets), category) == IndexOf(buckets, category)
  {
    var cells := AllShown(inherited, buckets);
    if buckets != [] {
      assert cells[1..] == AllShown(inherited, buckets[1..]);
      ShownAt(inherited, buckets[1..], category);
      assert buckets == [buckets[0]] + buckets[1..] && cells == [cells[0]] + cells[1..];
    }
  }

  lemma {:induction false} BumpShown(buckets: seq<Bucket<string>>, category: string, amount: int)
    requires category != PROTO
    ensures BumpCell(AllShown(INHERITED, buckets), category, amount) ==
            AllShown(INHERITED, Bump(buckets, category, amount))
  {
    ShownAt(INHERITED, buckets, category);
  }

  lemma {:induction false} CellAdded(lines: seq<SoldLine>)
    requires lines != []
    ensures var n := |lines| - 1;
      CellsOf(lines) == BumpCell(CellsOf(lines[..n]), lines[n].sold.CategoryName(), lines[n].sold.total)
  {
    var n := |lines| - 1;
    if Kept()(lines[n]) {
      var front := Filter(lines[..n], Kept());
      assert Filter(lines, Kept()) == front + [lines[n]];
      TallyAppend(front, lines[n], CategoryKey(), LineTotal());
      BumpShown(CategoryBuckets(lines[..n]), lines[n].sold.CategoryName(), lines[n].sold.total);
    }
  }

  predicate UsesInherited(lines: seq<SoldLine>) { exists l <- lines :: l.sold.CategoryName() in INHERITED }

  predicate Numeric(cells: seq<Cell>) { forall c <- cells :: c.amount.Number? }

  function NumberOf(): Cell -> int { (c: Cell) => if c.amount.Number? then c.amount.n else 0 }

  lemma {:induction false} BucketHasLine(lines: seq<SoldLine>, category: string)
    ensures HasKey(CategoryBuckets(lines), category) <==>
      category != PROTO && exists l <- lines :: l.sold.CategoryName() == category
  {
    var kept := Filter(lines, Kept());
    TallyMeans(kept, CategoryKey(), LineTotal());
    if HasKey(CategoryBuckets(lines), category) {
      var l :| l in kept && CategoryKey()(l) == category;
      FilterMember(lines, Kept(), l);
    }
    if category != PROTO && exists l <- lines :: l.sold.CategoryName() == category {
      var l :| l in lines && l.sold.CategoryName() == category;
      FilterMember(lines, Kept(), l);
      assert CategoryKey()(l) == category;
    }
  }

  lemma {:induction false} NumericIff(inherited: set<string>, lines: seq<SoldLine>)
    requires PROTO !in inherited
    ensures Numeric(AllShown(inherited, CategoryBuckets(lines))) <==>
      forall l <- lines :: l.sold.CategoryName() !in inherited
  {
    var buckets := CategoryBuckets(lines);
    var cells := AllShown(inherited, buckets);
    if !Numeric(cells) {
      var i :| 0 <= i < |cells| && !cells[i].amount.Number?;
      assert buckets[i] in buckets && HasKey(buckets, buckets[i].key);
      BucketHasLine(lines, buckets[i].key);
    }
    if exists l <- lines :: l.sold.CategoryName() in inherited {
      var l :| l in lines && l.sold.CategoryName() in inherited;
      BucketHasLine(lines, l.sold.CategoryName());
      var i := IndexOf(buckets, l.sold.CategoryName());
      assert cells[i] in cells;
    }
  }

  lemma {:induction false} ProtoIsNoMethod()
    ensures PROTO !in INHERITED
  {
    assert PROTO[2] == 'p' && |PROTO| == 9;
    assert "__defineGetter__"[2] == 'd' && "__defineSetter__"[2] == 'd';
    assert "__lookupGetter__"[2] == 'l' && "__lookupSetter__"[2] == 'l';
  }

  /** The totals are all numbers exactly when no line's category is an inherited name. */
  lemma {:induction false} CellsNumericIff(lines: seq<SoldLine>)
    ensures Numeric(CellsOf(lines)) <==> !UsesInherited(lines)
  {
    ProtoIsNoMethod();
    NumericIff(INHERITED, lines);
  }

  /** Totals that are numbers add up to the lines, those under `__proto__` excepted. */
  lemma {:induction false} CellsSum(lines: seq<SoldLine>)
    ensures Sum(CategoryBuckets(lines), Value()) == Sum(lines, LineTotal()) - Sum(lines, LostTotal())
    ensures Numeric(CellsOf(lines)) ==> Sum(CellsOf(lines), NumberOf()) == Sum(CategoryBuckets(lines), Value())
  {
    var buckets, cells := CategoryBuckets(lines), CellsOf(lines);
    TallyConserves(Filter(lines, Kept()), CategoryKey(), LineTotal());
    SumFilterSplit(lines, Kept(), LineTotal(), LostTotal());
    if Numeric(cells) {
      forall i | 0 <= i < |buckets| ensures NumberOf()(cells[i]) == Value()(buckets[i]) {
        assert cells[i] in cells;
      }
      SumEqual(cells, buckets, NumberOf(), Value());
    }
  }

  /** `lines` is what the report calls the order count: it counts a product's lines. */
  datatype Totals = Totals(
    quantity: seq<Bucket<int>>, lines: seq<Bucket<int>>, revenue: seq<Bucket<int>>, categories: seq<Cell>)

  function TotalsOf(lines: seq<SoldLine>): Totals {
    Totals(Tally(lines, ProductKey(), LineQuantity()),
           Tally(lines, ProductKey(), OneLine()),
           Tally(lines, ProductKey(), LineRevenue()),
           CellsOf(Filter(lines, Counts())))
  }

  function AddLine(t: Totals, l: SoldLine): Totals {
    Totals(Bump(t.quantity, l.sold.product, l.sold.quantity),
           Bump(t.lines, l.sold.product, 1),
           Bump(t.revenue, l.sold.product, if l.counts then l.sold.total else 0),
           if l.counts then BumpCell(t.categories, l.sold.CategoryName(), l.sold.total) else t.categories)
  }

  function Added(): (Totals, SoldLine) -> Totals { (t: Totals, l: SoldLine) => AddLine(t, l) }

  method AddOrder(order: ReportOrder, t: Totals) returns (r: Totals)
    ensures r == Fold(t, LinesOf(order), Added())
  {
    ghost var own := LinesOf(order);
    r := t;
    for j := 0 to |order.items|
      invariant r == Fold(t, own[..j], Added())
    {
      var item := order.items[j];
      FoldPrefix(t, own, j, Added());
      var quantity := Bump(r.quantity, item.product, item.quantity);
      var lines := Bump(r.lines, item.product, 1);
      if order.CountsRevenue() {
        var revenue := Bump(r.revenue, item.product, item.total);
        r := Totals(quantity, lines, revenue, BumpCell(r.categories, item.CategoryName(), item.total));
      } else {
        r := Totals(quantity, lines, Bump(r.revenue, item.product, 0), r.categories);
      }
    }
    assert own[..|order.items|] == own;
  }

  /** Units, lines and revenue per product, and revenue per category, in one pass. */
  method AggregateProducts(orders: seq<ReportOrder>) returns (t: Totals)
    ensures t == TotalsOf(AllLines(orders))
  {
    ghost var none := Totals([], [], [], []);
    t := Totals([], [], [], []);
    for i := 0 to |orders|
      invariant t == Fold(none, AllLines(orders[..i]), Added())
    {
      assert orders[..i + 1][..i] == orders[..i];
      FoldConcat(none, AllLines(orders[..i]), LinesOf(orders[i]), Added());
      t := AddOrder(orders[i], t);
    }
    assert orders[..|orders|] == orders;
    TotalsFold(AllLines(orders));
  }

  lemma {:induction false} TotalsFold(lines: seq<SoldLine>)
    ensures Fold(Totals([], [], [], []), lines, Added()) == TotalsOf(lines)
  {
    if lines != [] {
      TotalsFold(lines[..|lines| - 1]);
      LineAdded(lines);
    }
  }

  lemma TallyAppend<T, K>(rows: seq<T>, x: T, key: T -> K, amount: T -> int)
    ensures Tally(rows + [x], key, amount) == Bump(Tally(rows, key, amount), key(x), amount(x))
  {
    assert (rows + [x])[..|rows|] == rows;
  }

  lemma {:induction false} LineAdded(lines: seq<SoldLine>)
    requires lines != []
    ensures TotalsOf(lines) == AddLine(TotalsOf(lines[..|lines| - 1]), lines[|lines| - 1])
  {
    var n := |lines| - 1;
    if lines[n].counts {
      var front := Filter(lines[..n], Counts());
      CellAdded(front + [lines[n]]);
      assert (front + [lines[n]])[..|front|] == front;
    }
  }

  lemma {:induction false} SumOfFiltered(lines: seq<SoldLine>)
    ensures Sum(Filter(lines, Counts()), LineTotal()) == Sum(lines, LineRevenue())
  {
    if lines != [] {
      var n := |lines| - 1;
      SumOfFiltered(lines[..n]);
      FilterAppend(lines[..n], lines[n], Counts());
      assert lines == lines[..n] + [lines[n]];
      if lines[n].counts {
        SumAppend(Filter(lines[..n], Counts()), lines[n], LineTotal());
      }
    }
  }

  /** The products account for the revenue of all lines. The categories are numbers that
      account for the same exactly when no line that counts has an inherited name for its
      category and what is sold under `__proto__` comes to nothing. */
  lemma {:induction false} CategoriesMatchIff(orders: seq<ReportOrder>)
    ensures var lines, t := AllLines(orders), TotalsOf(AllLines(orders));
      var counted := Filter(lines, Counts());
      && Sum(t.revenue, Value()) == Sum(lines, LineRevenue())
      && (Numeric(t.categories) <==> !UsesInherited(counted))
      && (Numeric(t.categories) && Sum(t.categories, NumberOf()) == Sum(t.revenue, Value()) <==>
            !UsesInherited(counted) && Sum(counted, LostTotal()) == 0)
  {
    var lines := AllLines(orders);
    SumOfFiltered(lines);
    CellsNumericIff(Filter(lines, Counts()));
    CellsSum(Filter(lines, Counts()));
    TallyConserves(lines, ProductKey(), LineRevenue());
  }

  lemma {:induction false} OneLineOrder(o: ReportOrder)
    requires |o.items| == 1
    ensures AllLines([o]) == [SoldLine(o.items[0], o.CountsRevenue())]
  {
    assert [o][..0] == [] && AllLines([]) == [];
    assert AllLines([o]) == [] + LinesOf(o);
  }

  /** The order lists that fail it: one line of a product in a category of such a name. */
  lemma {:induction false} InheritedIsText(o: ReportOrder)
    requires |o.items| == 1 && o.items[0].CategoryName() in INHERITED
    ensures var cells := [Cell(o.items[0].CategoryName(), Text)];
      && CellsOf(AllLines([o])) == cells
      && (o.items[0].total > 0 ==> ChartOf([o]) == Unranked(cells))
  {
    var l := SoldLine(o.items[0], o.CountsRevenue());
    ProtoIsNoMethod();
    OneLineOrder(o);
    OneLineBuckets(l);
    SumPrefix([l], 0, LineTotal());
    assert [l][..1] == [l];
  }

  lemma {:induction false} OneLineBuckets(l: SoldLine)
    requires l.sold.CategoryName() != PROTO
    ensures CategoryBuckets([l]) == [Bucket(l.sold.CategoryName(), l.sold.total)]
  {
    FilterAppend([], l, Kept());
    TallyAppend([], l, CategoryKey(), LineTotal());
    assert [] + [l] == [l];
  }

  // ---- Top lists ----

  predicate Descending<K(==)>(buckets: seq<Bucket<K>>) {
    forall i, j | 0 <= i < j < |buckets| :: buckets[i].value >= buckets[j].value
  }

  function Place<K>(sorted: seq<Bucket<K>>, b: Bucket<K>): seq<Bucket<K>> {
    if sorted == [] || sorted[|sorted| - 1].value >= b.value then sorted + [b]
    else Place(sorted[..|sorted| - 1], b) + [sorted[|sorted| - 1]]
  }

  /** Stable sort, largest first. */
  function SortDescending<K>(buckets: seq<Bucket<K>>): seq<Bucket<K>> {
    if buckets == [] then [] else Place(SortDescending(buckets[..|buckets| - 1]), buckets[|buckets| - 1])
  }

  lemma {:induction false} PlaceDescends<K>(sorted: seq<Bucket<K>>, b: Bucket<K>)
    requires Descending(sorted)
    ensures var r, n := Place(sorted, b), |sorted|;
      |r| == n + 1 && Descending(r) && (r[n] == b || (n > 0 && r[n] == sorted[n - 1]))
  {
    if sorted != [] && sorted[|sorted| - 1].value < b.value {
      PlaceDescends(sorted[..|sorted| - 1], b);
    }
  }

  lemma {:induction false} PlacePermutes<K>(sorted: seq<Bucket<K>>, b: Bucket<K>)
    ensures multiset(Place(sorted, b)) == multiset(sorted) + multiset{b}
  {
    if sorted != [] && sorted[|sorted| - 1].value < b.value {
      var n := |sorted| - 1;
      PlacePermutes(sorted[..n], b);
      MultisetLast(sorted);
    }
  }

  lemma {:induction false} SortDescends<K>(buckets: seq<Bucket<K>>)
    ensures Descending(SortDescending(buckets)) && |SortDescending(buckets)| == |buckets|
  {
    if buckets != [] {
      var n := |buckets| - 1;
      SortDescends(buckets[..n]);
      PlaceDescends(SortDescending(buckets[..n]), buckets[n]);
    }
  }

  lemma {:induction false} SortPermutes<K>(buckets: seq<Bucket<K>>)
    ensures multiset(SortDescending(buckets)) == multiset(buckets)
  {
    if buckets != [] {
      var n := |buckets| - 1;
      SortPermutes(buckets[..n]);
      PlacePermutes(SortDescending(buckets[..n]), buckets[n]);
      MultisetLast(buckets);
    }
  }

  lemma {:induction false} MultisetLast<T>(rows: seq<T>)
    requires rows != []
    ensures multiset(rows) == multiset(rows[..|rows| - 1]) + multiset{rows[|rows| - 1]}
  {
    assert rows == rows[..|rows| - 1] + [rows[|rows| - 1]];
  }

  function Top<K>(buckets: seq<Bucket<K>>, limit: nat): seq<Bucket<K>> {
    var sorted := SortDescending(buckets);
    if |sorted| > limit then sorted[..limit] else sorted
  }

  lemma {:induction false} FrontDominates<K>(kept: seq<Bucket<K>>, rest: seq<Bucket<K>>, x: Bucket<K>, y: Bucket<K>)
    requires Descending(kept + rest) && x in kept && y in rest
    ensures x.value >= y.value
  {
    var i :| 0 <= i < |kept| && kept[i] == x;
    var j :| 0 <= j < |rest| && rest[j] == y;
    assert (kept + rest)[i] == x && (kept + rest)[|kept| + j] == y;
  }

  /** The kept entries dominate the dropped ones, and none is lost or made up. */
  lemma {:induction false} TopDominates<K>(buckets: seq<Bucket<K>>, limit: nat)
    ensures var kept := Top(buckets, limit);
      var dropped := multiset(buckets) - multiset(kept);
      && |kept| == Min(|buckets|, limit)
      && multiset(kept) <= multiset(buckets)
      && (forall x, y | x in kept && y in dropped :: x.value >= y.value)
  {
    var sorted, kept := SortDescending(buckets), Top(buckets, limit);
    var rest := sorted[|kept|..];
    SortDescends(buckets);
    SortPermutes(buckets);
    assert sorted == kept + rest;
    assert multiset(buckets) - multiset(kept) == multiset(rest);
    forall x, y | x in kept && y in multiset(rest) ensures x.value >= y.value {
      FrontDominates(kept, rest, x, y);
    }
  }

  // ---- Rounded category shares ----

  /** Math.round of 100 * value / total, on exact fractions: halves round up. */
  function Percent(value: int, total: int): int
    requires total > 0
  {
    (200 * value + total) / (2 * total)
  }

  function PercentOf<K>(total: int): Bucket<K> -> int {
    (b: Bucket<K>) => if total > 0 then Percent(b.value, total) else 0
  }

  lemma PercentBounds(value: int, total: int)
    requires total > 0
    ensures -total < 2 * total * Percent(value, total) - 200 * value <= total
  {
    var n, d := 200 * value + total, 2 * total;
    assert n == d * (n / d) + n % d;
  }

  /** `sum` is within n/2 of 100 * part / total. */
  predicate NearShare(sum: int, n: int, part: int, total: int) {
    -total * n <= 2 * total * sum - 200 * part <= total * n
  }

  lemma {:induction false} NearAdd(sum: int, n: int, part: int, total: int, value: int)
    requires total > 0 && NearShare(sum, n, part, total)
    ensures NearShare(sum + Percent(value, total), n + 1, part + value, total)
  {
    var q := Percent(value, total);
    PercentBounds(value, total);
    assert 2 * total * (sum + q) == 2 * total * sum + 2 * total * q;
    assert total * (n + 1) == total * n + total;
    assert -total * (n + 1) == -total * n - total;
  }

  lemma {:induction false} PercentSumBounds<K>(buckets: seq<Bucket<K>>, total: int)
    requires total > 0
    ensures NearShare(Sum(buckets, PercentOf(total)), |buckets|, Sum(buckets, Value()), total)
  {
    if buckets != [] {
      var n := |buckets| - 1;
      PercentSumBounds(buckets[..n], total);
      NearAdd(Sum(buckets[..n], PercentOf(total)), n, Sum(buckets[..n], Value()), total, buckets[n].value);
    }
  }

  lemma {:induction false} NearWhole(sum: int, n: int, total: int)
    requires total > 0 && NearShare(sum, n, total, total)
    ensures -n <= 2 * (sum - 100) <= n
  {
    assert 2 * total * sum - 200 * total == total * (2 * (sum - 100));
    if 2 * (sum - 100) > n {
      MulGrows(total, n, 2 * (sum - 100));
    } else if 2 * (sum - 100) < -n {
      MulGrows(total, 2 * (sum - 100), -n);
    }
  }

  lemma MulGrows(k: int, a: int, b: int)
    requires k > 0 && a < b
    ensures k * a < k * b
  {
  }

  // ---- Sales by category ----

  const MAX_CATEGORIES := 6

  function Share<K>(total: int, b: Bucket<K>): Bucket<K> { Bucket(b.key, PercentOf(total)(b)) }

  function Shares<K>(total: int, buckets: seq<Bucket<K>>): seq<Bucket<K>> {
    seq(|buckets|, i requires 0 <= i < |buckets| => Share(total, buckets[i]))
  }

  function TotalValue(orders: seq<ReportOrder>): int { Sum(AllLines(orders), LineTotal()) }

  function SharesOf(orders: seq<ReportOrder>): seq<Bucket<string>> {
    Shares(TotalValue(orders), CategoryBuckets(AllLines(orders)))
  }

  /** A chart whose shares are not all numbers has no order: the sort cannot compare them. */
  datatype Chart = Ranked(shares: seq<Bucket<string>>) | Unranked(cells: seq<Cell>)

  function ChartOf(orders: seq<ReportOrder>): Chart {
    var cells := CellsOf(AllLines(orders));
    if TotalValue(orders) > 0 && !Numeric(cells) then Unranked(cells) else Ranked(Top(SharesOf(orders), MAX_CATEGORIES))
  }

  function Bumped(): (seq<Cell>, SoldLine) -> seq<Cell> {
    (cells: seq<Cell>, l: SoldLine) => BumpCell(cells, l.sold.CategoryName(), l.sold.total)
  }

  lemma {:induction false} CellsFold(lines: seq<SoldLine>)
    ensures Fold([], lines, Bumped()) == CellsOf(lines)
  {
    if lines != [] {
      CellsFold(lines[..|lines| - 1]);
      CellAdded(lines);
    }
  }

  method AddCategories(order: ReportOrder, before: seq<Cell>, value: int)
    returns (categoryTotals: seq<Cell>, totalValue: int)
    ensures categoryTotals == Fold(before, LinesOf(order), Bumped())
    ensures totalValue == value + Sum(LinesOf(order), LineTotal())
  {
    ghost var own := LinesOf(order);
    categoryTotals, totalValue := before, value;
    for j := 0 to |order.items|
      invariant categoryTotals == Fold(before, own[..j], Bumped())
      invariant totalValue == value + Sum(own[..j], LineTotal())
    {
      var item := order.items[j];
      FoldPrefix(before, own, j, Bumped());
      SumPrefix(own, j, LineTotal());
      categoryTotals := BumpCell(categoryTotals, item.CategoryName(), item.total);
      totalValue := totalValue + item.total;
    }
    assert own[..|order.items|] == own;
  }

  function CellShare(total: int, c: Cell): Bucket<string> {
    Share(total, Bucket(c.category, if c.amount.Number? then c.amount.n else 0))
  }

  method Rank(total: int, cells: seq<Cell>, ghost buckets: seq<Bucket<string>>) returns (chart: Chart)
    requires cells == AllShown(INHERITED, buckets)
    ensures chart == if total > 0 && !Numeric(cells) then Unranked(cells)
                     else Ranked(Top(Shares(total, buckets), MAX_CATEGORIES))
  {
    if total > 0 && exists c <- cells :: c.amount == Text {
      return Unranked(cells);
    }
    var shares := seq(|cells|, i requires 0 <= i < |cells| => CellShare(total, cells[i]));
    SharesShown(total, buckets, shares);
    var sorted := SortDescending(shares);
    chart := Ranked(if |sorted| > MAX_CATEGORIES then sorted[..MAX_CATEGORIES] else sorted);
  }

  /** The category chart: every category's rounded share, the largest six kept. */
  method SalesByCategory(orders: seq<ReportOrder>) returns (chart: Chart)
    ensures chart == ChartOf(orders)
  {
    var categoryTotals: seq<Cell>, totalValue := [], 0;
    for i := 0 to |orders|
      invariant categoryTotals == Fold([], AllLines(orders[..i]), Bumped())
      invariant totalValue == TotalValue(orders[..i])
    {
      assert orders[..i + 1][..i] == orders[..i];
      FoldConcat([], AllLines(orders[..i]), LinesOf(orders[i]), Bumped());
      SumConcat(AllLines(orders[..i]), LinesOf(orders[i]), LineTotal());
      categoryTotals, totalValue := AddCategories(orders[i], categoryTotals, totalValue);
    }
    assert orders[..|orders|] == orders;
    CellsFold(AllLines(orders));
    chart := Rank(totalValue, categoryTotals, CategoryBuckets(AllLines(orders)));
  }

  lemma {:induction false} SharesShown(total: int, buckets: seq<Bucket<string>>, shares: seq<Bucket<string>>)
    requires |shares| == |buckets| && (total <= 0 || Numeric(AllShown(INHERITED, buckets)))
    requires forall i | 0 <= i < |buckets| :: shares[i] == CellShare(total, AllShown(INHERITED, buckets)[i])
    ensures shares == Shares(total, buckets)
  {
    forall i | 0 <= i < |buckets| ensures shares[i] == Share(total, buckets[i]) {
      assert AllShown(INHERITED, buckets)[i] in AllShown(INHERITED, buckets);
    }
  }

  lemma {:induction false} PlaceSum<K>(sorted: seq<Bucket<K>>, b: Bucket<K>)
    ensures Sum(Place(sorted, b), Value()) == Sum(sorted, Value()) + b.value
  {
    if sorted == [] || sorted[|sorted| - 1].value >= b.value {
      SumAppend(sorted, b, Value());
    } else {
      var n := |sorted| - 1;
      PlaceSum(sorted[..n], b);
      SumAppend(Place(sorted[..n], b), sorted[n], Value());
    }
  }

  lemma {:induction false} SortSum<K>(buckets: seq<Bucket<K>>)
    ensures Sum(SortDescending(buckets), Value()) == Sum(buckets, Value())
  {
    if buckets != [] {
      var n := |buckets| - 1;
      SortSum(buckets[..n]);
      PlaceSum(SortDescending(buckets[..n]), buckets[n]);
    }
  }

  /** A chart has its shares in order exactly when no line's category is an inherited name. */
  lemma {:induction false} ChartRankedIff(orders: seq<ReportOrder>)
    requires TotalValue(orders) > 0
    ensures ChartOf(orders).Ranked? <==> !UsesInherited(AllLines(orders))
    ensures ChartOf(orders).Ranked? ==>
      Sum(CategoryBuckets(AllLines(orders)), Value()) == TotalValue(orders) - Sum(AllLines(orders), LostTotal())
  {
    CellsNumericIff(AllLines(orders));
    CellsSum(AllLines(orders));
  }

  /** The shares of all n categories of an ordered chart are, within n/2, the part of 100 that
      is not sold under `__proto__`, all of it if nothing is; and a chart that drops none of
      them shows as much. */
  lemma {:induction false} ChartAddsUp(orders: seq<ReportOrder>)
    requires TotalValue(orders) > 0 && ChartOf(orders).Ranked?
    ensures var n, sum := |SharesOf(orders)|, Sum(SharesOf(orders), Value());
      var lost := Sum(AllLines(orders), LostTotal());
      && NearShare(sum, n, TotalValue(orders) - lost, TotalValue(orders))
      && (lost == 0 ==> -n <= 2 * (sum - 100) <= n)
      && |ChartOf(orders).shares| == Min(n, 6)
      && (n <= 6 ==> Sum(ChartOf(orders).shares, Value()) == sum)
  {
    var buckets, shares, total := CategoryBuckets(AllLines(orders)), SharesOf(orders), TotalValue(orders);
    ChartRankedIff(orders);
    PercentSumBounds(buckets, total);
    SharesSum(total, buckets);
    if Sum(buckets, Value()) == total {
      NearWhole(Sum(shares, Value()), |shares|, total);
    }
    SortDescends(shares);
    SortSum(shares);
  }

  lemma {:induction false} SharesSum<K>(total: int, buckets: seq<Bucket<K>>)
    ensures Sum(Shares(total, buckets), Value()) == Sum(buckets, PercentOf(total))
  {
    SumEqual(Shares(total, buckets), buckets, Value(), PercentOf(total));
  }

  /** Where no line is negative an ordered chart's six shares never exceed all of them, so it
      shows at most 100 and n/2, however many categories are dropped. */
  lemma {:induction false} ChartNeverOverfull(orders: seq<ReportOrder>)
    requires forall l <- AllLines(orders) :: l.sold.total >= 0
    ensures ChartOf(orders).Ranked? ==> Sum(ChartOf(orders).shares, Value()) <= Sum(SharesOf(orders), Value())
  {
    var kept := Filter(AllLines(orders), Kept());
    var buckets := CategoryBuckets(AllLines(orders));
    forall l <- kept ensures l.sold.total >= 0 {
      FilterMember(AllLines(orders), Kept(), l);
    }
    TallyMeans(kept, CategoryKey(), LineTotal());
    forall b <- buckets ensures b.value >= 0 {
      SumNonNegative(kept, Under(CategoryKey(), LineTotal(), b.key));
    }
    SharesNotNegative(TotalValue(orders), buckets);
    TopSum(SharesOf(orders), MAX_CATEGORIES);
  }

  lemma PercentNotNegative(value: int, total: int)
    requires value >= 0 && total > 0
    ensures Percent(value, total) >= 0
  {
    DivNotNegative(200 * value + total, 2 * total);
  }

  lemma DivNotNegative(n: int, d: int)
    requires n >= 0 && d > 0
    ensures n / d >= 0
  {
  }

  lemma {:induction false} SharesNotNegative<K>(total: int, buckets: seq<Bucket<K>>)
    requires forall b <- buckets :: b.value >= 0
    ensures forall b <- Shares(total, buckets) :: b.value >= 0
  {
    forall i | 0 <= i < |buckets| ensures Shares(total, buckets)[i].value >= 0 {
      assert buckets[i] in buckets;
      if total > 0 {
        PercentNotNegative(buckets[i].value, total);
      }
    }
  }

  lemma {:induction false} TopSum<K>(buckets: seq<Bucket<K>>, limit: nat)
    requires forall b <- buckets :: b.value >= 0
    ensures Sum(Top(buckets, limit), Value()) <= Sum(buckets, Value())
  {
    var sorted, kept := SortDescending(buckets), Top(buckets, limit);
    var rest := sorted[|kept|..];
    SortSum(buckets);
    SortKeepsSign(buckets);
    assert sorted == kept + rest;
    SumConcat(kept, rest, Value());
    SumNonNegative(rest, Value());
  }

  lemma {:induction false} SortKeepsSign<K>(buckets: seq<Bucket<K>>)
    requires forall b <- buckets :: b.value >= 0
    ensures forall b <- SortDescending(buckets) :: b.value >= 0
  {
    SortPermutes(buckets);
    forall b <- SortDescending(buckets) ensures b.value >= 0 {
      assert b in multiset(SortDescending(buckets));
    }
  }

  // ---- What each figure is of ----

  /** The name a line is counted under. */
  function NameOf(sold: Sold): string {
    if sold.category.None? || sold.category.value == "" then "Outros" else sold.category.value
  }

  function PerItem(f: Sold -> int): ReportOrder -> int { (o: ReportOrder) => Sum(o.items, f) }

  /** Canceled orders amount to nothing. */
  function PerSale(f: Sold -> int): ReportOrder -> int {
    (o: ReportOrder) => if o.status == "canceled" then 0 else Sum(o.items, f)
  }

  function UnitsIn(p: int): Sold -> int { (x: Sold) => if x.product == p then x.quantity else 0 }

  function LinesIn(p: int): Sold -> int { (x: Sold) => if x.product == p then 1 else 0 }

  function MoneyIn(p: int): Sold -> int { (x: Sold) => if x.product == p then x.total else 0 }

  function MoneyUnder(name: string): Sold -> int { (x: Sold) => if NameOf(x) == name then x.total else 0 }

  lemma {:induction false} LinesSum(orders: seq<ReportOrder>, f: SoldLine -> int, g: ReportOrder -> int)
    requires forall o <- orders :: Sum(LinesOf(o), f) == g(o)
    ensures Sum(AllLines(orders), f) == Sum(orders, g)
  {
    if orders != [] {
      var n := |orders| - 1;
      LinesSum(orders[..n], f, g);
      SumConcat(AllLines(orders[..n]), LinesOf(orders[n]), f);
      assert orders[n] in orders;
    }
  }

  lemma {:induction false} AllItemsSum(orders: seq<ReportOrder>, f: SoldLine -> int, g: Sold -> int)
    requires forall l: SoldLine :: f(l) == g(l.sold)
    ensures Sum(AllLines(orders), f) == Sum(orders, PerItem(g))
  {
    forall o <- orders ensures Sum(LinesOf(o), f) == PerItem(g)(o) {
      assert forall i | 0 <= i < |o.items| :: f(LinesOf(o)[i]) == g(LinesOf(o)[i].sold);
      SumEqual(LinesOf(o), o.items, f, g);
    }
    LinesSum(orders, f, PerItem(g));
  }

  lemma {:induction false} SoldItemsSum(orders: seq<ReportOrder>, f: SoldLine -> int, g: Sold -> int)
    requires forall l: SoldLine :: f(l) == if l.counts then g(l.sold) else 0
    ensures Sum(AllLines(orders), f) == Sum(orders, PerSale(g))
  {
    forall o <- orders ensures Sum(LinesOf(o), f) == PerSale(g)(o) {
      forall i | 0 <= i < |o.items|
        ensures f(LinesOf(o)[i]) == if o.status == "canceled" then 0 else g(o.items[i])
      {
        var l := LinesOf(o)[i];
        assert l == SoldLine(o.items[i], o.CountsRevenue());
      }
      if o.status == "canceled" {
        SumZero(LinesOf(o), f);
      } else {
        SumEqual(LinesOf(o), o.items, f, g);
      }
    }
    LinesSum(orders, f, PerSale(g));
  }

  /** Per product: the units of all orders, their lines, and the money of those not canceled. */
  lemma {:induction false} ProductFigures(orders: seq<ReportOrder>)
    ensures var t := TotalsOf(AllLines(orders));
      && (forall b <- t.quantity :: b.value == Sum(orders, PerItem(UnitsIn(b.key))))
      && (forall b <- t.lines :: b.value == Sum(orders, PerItem(LinesIn(b.key))))
      && (forall b <- t.revenue :: b.value == Sum(orders, PerSale(MoneyIn(b.key))))
  {
    var lines := AllLines(orders);
    TallyMeans(lines, ProductKey(), LineQuantity());
    TallyMeans(lines, ProductKey(), OneLine());
    TallyMeans(lines, ProductKey(), LineRevenue());
    forall p: int
      ensures Sum(lines, Under(ProductKey(), LineQuantity(), p)) == Sum(orders, PerItem(UnitsIn(p)))
      ensures Sum(lines, Under(ProductKey(), OneLine(), p)) == Sum(orders, PerItem(LinesIn(p)))
      ensures Sum(lines, Under(ProductKey(), LineRevenue(), p)) == Sum(orders, PerSale(MoneyIn(p)))
    {
      AllItemsSum(orders, Under(ProductKey(), LineQuantity(), p), UnitsIn(p));
      AllItemsSum(orders, Under(ProductKey(), OneLine(), p), LinesIn(p));
      SoldItemsSum(orders, Under(ProductKey(), LineRevenue(), p), MoneyIn(p));
    }
  }

  function SaleUnder(name: string): SoldLine -> int {
    (l: SoldLine) => if l.counts then MoneyUnder(name)(l.sold) else 0
  }

  lemma NameUnder(l: SoldLine, name: string)
    ensures MoneyUnder(name)(l.sold) == Under(CategoryKey(), LineTotal(), name)(l)
  {
    assert l.sold.CategoryName() == NameOf(l.sold);
  }

  lemma LineUnder(l: SoldLine, name: string)
    ensures SaleUnder(name)(l) == if l.counts && l.sold.CategoryName() == name then l.sold.total else 0
    ensures Under(CategoryKey(), LineTotal(), name)(l) == if l.sold.CategoryName() == name then l.sold.total else 0
  {
    assert l.sold.CategoryName() == NameOf(l.sold);
    assert MoneyUnder(name)(l.sold) == if l.sold.CategoryName() == name then l.sold.total else 0;
  }

  lemma {:induction false} SalesUnder(lines: seq<SoldLine>, name: string)
    requires name != PROTO
    ensures Sum(Filter(Filter(lines, Counts()), Kept()), Under(CategoryKey(), LineTotal(), name)) ==
            Sum(lines, SaleUnder(name))
  {
    var counted := Filter(lines, Counts());
    var rows := Filter(counted, Kept());
    var f, g := Under(CategoryKey(), LineTotal(), name), SaleUnder(name);
    forall i | 0 <= i < |rows| ensures f(rows[i]) == g(rows[i]) {
      assert rows[i] in rows;
      FilterMember(counted, Kept(), rows[i]);
      FilterMember(lines, Counts(), rows[i]);
      LineUnder(rows[i], name);
    }
    SumEqual(rows, rows, f, g);
    forall l <- counted ensures Kept()(l) || g(l) == 0 {
      LineUnder(l, name);
    }
    SumFilter(counted, Kept(), g);
    SumFilter(lines, Counts(), SaleUnder(name));
  }

  /** Per category: the money of the lines of orders not canceled, where it is a number. */
  lemma {:induction false} CategoryFigures(orders: seq<ReportOrder>, c: Cell)
    requires c in TotalsOf(AllLines(orders)).categories && c.amount.Number?
    ensures c.category != PROTO && c.amount.n == Sum(orders, PerSale(MoneyUnder(c.category)))
  {
    var lines := AllLines(orders);
    var counted := Filter(lines, Counts());
    var buckets := CategoryBuckets(counted);
    TallyMeans(Filter(counted, Kept()), CategoryKey(), LineTotal());
    var i :| 0 <= i < |buckets| && c == Shown(INHERITED, buckets[i]);
    assert buckets[i] in buckets && HasKey(buckets, c.category);
    BucketHasLine(counted, c.category);
    SalesUnder(lines, c.category);
    SoldItemsSum(orders, SaleUnder(c.category), MoneyUnder(c.category));
  }

  function OnDay(day: string): ReportOrder -> int {
    (o: ReportOrder) => if o.status != "canceled" && o.day == day then o.total else 0
  }

  function WithStatus(status: string): ReportOrder -> int {
    (o: ReportOrder) => if o.status == status then 1 else 0
  }

  function Earned(): ReportOrder -> int { (o: ReportOrder) => if o.status == "canceled" then 0 else o.total }

  /** Per day and in all: the totals of the orders not canceled; per status: their number. */
  lemma {:induction false} OrderFigures(orders: seq<ReportOrder>)
    ensures forall b <- Tally(Filter(orders, IsRevenue()), DayOf(), Revenue()) :: b.value == Sum(orders, OnDay(b.key))
    ensures Sum(Filter(orders, IsRevenue()), Revenue()) == Sum(orders, Earned())
    ensures forall b <- Tally(orders, StatusOf(), One()) :: b.value == Sum(orders, WithStatus(b.key))
  {
    var sales := Filter(orders, IsRevenue());
    forall o <- sales ensures o.status != "canceled" {
      FilterMember(orders, IsRevenue(), o);
    }
    TallyMeans(sales, DayOf(), Revenue());
    forall day: string ensures Sum(sales, Under(DayOf(), Revenue(), day)) == Sum(orders, OnDay(day)) {
      SumEqual(sales, sales, Under(DayOf(), Revenue(), day), OnDay(day));
      SumFilter(orders, IsRevenue(), OnDay(day));
    }
    SumEqual(sales, sales, Revenue(), Earned());
    SumFilter(orders, IsRevenue(), Earned());
    TallyMeans(orders, StatusOf(), One());
    forall status: string ensures Sum(orders, Under(StatusOf(), One(), status)) == Sum(orders, WithStatus(status)) {
      SumEqual(orders, orders, Under(StatusOf(), One(), status), WithStatus(status));
    }
  }

  /** `share` is 100 * value / total, rounded, halves up. */
  predicate Rounded(share: int, value: int, total: int) {
    2 * total * share <= 200 * value + total < 2 * total * share + 2 * total
  }

  lemma {:induction false} BucketMoney(orders: seq<ReportOrder>, b: Bucket<string>)
    requires b in CategoryBuckets(AllLines(orders))
    ensures b.key != PROTO && b.value == Sum(orders, PerItem(MoneyUnder(b.key)))
  {
    var lines, f := AllLines(orders), Under(CategoryKey(), LineTotal(), b.key);
    assert HasKey(CategoryBuckets(lines), b.key);
    BucketHasLine(lines, b.key);
    TallyMeans(Filter(lines, Kept()), CategoryKey(), LineTotal());
    SumFilter(lines, Kept(), f);
    forall l: SoldLine ensures f(l) == MoneyUnder(b.key)(l.sold) {
      NameUnder(l, b.key);
    }
    AllItemsSum(orders, f, MoneyUnder(b.key));
  }

  lemma {:induction false} ShareIsRounded<K>(total: int, buckets: seq<Bucket<K>>, share: Bucket<K>)
    requires total > 0 && share in Shares(total, buckets)
    ensures exists b <- buckets :: b.key == share.key && Rounded(share.value, b.value, total)
  {
    var i :| 0 <= i < |buckets| && Shares(total, buckets)[i] == share;
    PercentBounds(buckets[i].value, total);
  }

  lemma {:induction false} TopWithin<K>(buckets: seq<Bucket<K>>, limit: nat, b: Bucket<K>)
    requires b in Top(buckets, limit)
    ensures b in buckets
  {
    SortPermutes(buckets);
    assert b in multiset(SortDescending(buckets)) && b in multiset(buckets);
  }

  /** Each entry of a sorted chart shows the rounded share of its own category. */
  lemma {:induction false} ChartEntries(orders: seq<ReportOrder>, share: Bucket<string>)
    requires TotalValue(orders) > 0 && ChartOf(orders).Ranked? && share in ChartOf(orders).shares
    ensures share.key != PROTO
    ensures Rounded(share.value, Sum(orders, PerItem(MoneyUnder(share.key))), TotalValue(orders))
  {
    var buckets, total := CategoryBuckets(AllLines(orders)), TotalValue(orders);
    TopWithin(SharesOf(orders), MAX_CATEGORIES, share);
    ShareIsRounded(total, buckets, share);
    var b :| b in buckets && b.key == share.key && Rounded(share.value, b.value, total);
    BucketMoney(orders, b);
  }

  /** The total the shares are of: every line of the orders given. */
  lemma {:induction false} TotalValueMeans(orders: seq<ReportOrder>)
    ensures TotalValue(orders) == Sum(orders, PerItem((x: Sold) => x.total))
  {
    AllItemsSum(orders, LineTotal(), (x: Sold) => x.total);
  }
}
