/** Order-creating transactions taken statement by statement. Each locks the stock rows of
    its lines one at a time, in any order, before it reads them, keeps its writes to itself
    until commit, and holds its locks to the end. */
module StockLocks {
  import opened Seqs
  import opened Tables
  import opened LedgerSpec
  import opened LedgerBatch

  datatype Phase = Locking | Reading(next: nat) | Writing(next: nat) | Ended

  datatype Tx = Tx(
    seller: string, order: nat, firstItem: nat, lines: seq<Line>,
    phase: Phase, v: Validation, shadow: map<int, Stock>, moves: seq<Movement>)

  /** What one transaction reports: its backorder rows and movements, or its error. */
  datatype Outcome = Outcome(backorders: seq<Backorder>, movements: seq<Movement>)

  datatype Entry = Entry(seller: string, order: nat, firstItem: nat, lines: seq<Line>, result: Result<Outcome>)

  /** `stock` holds committed rows; `locks` maps a locked row to its transaction. */
  datatype Db = Db(
    products: map<int, Product>, stock: map<int, Stock>,
    locks: map<int, nat>, txs: map<nat, Tx>, log: seq<Entry>)

  datatype Event =
    | Begin(tx: nat, seller: string, order: nat, firstItem: nat, lines: seq<Line>)
    | Lock(tx: nat, product: int)
    | StartReading(tx: nat)
    | ReadLine(tx: nat)
    | WriteLine(tx: nat)
    | Commit(tx: nat)
    | Kill(tx: nat)

  /** The rows that `SELECT ... FOR UPDATE` finds. */
  predicate Needs(db: Db, t: Tx, p: int) { p in db.stock && exists l <- t.lines :: l.product == p }

  predicate Holds(db: Db, tx: nat, t: Tx) {
    forall l <- t.lines :: l.product in db.stock ==> l.product in db.locks && db.locks[l.product] == tx
  }

  predicate Enabled(db: Db, e: Event) {
    match e
    case Begin(tx, seller, _, _, lines) => tx !in db.txs && AllOwned(db.products, seller, lines)
    case Lock(tx, p) =>
      tx in db.txs && db.txs[tx].phase == Locking && Needs(db, db.txs[tx], p) && p !in db.locks
    case StartReading(tx) => tx in db.txs && db.txs[tx].phase == Locking && Holds(db, tx, db.txs[tx])
    case ReadLine(tx) => tx in db.txs && db.txs[tx].phase.Reading? && db.txs[tx].phase.next < |db.txs[tx].lines|
    case WriteLine(tx) => tx in db.txs && db.txs[tx].phase.Writing? && db.txs[tx].phase.next < |db.txs[tx].lines|
    case Commit(tx) => tx in db.txs && db.txs[tx].phase == Writing(|db.txs[tx].lines|)
    case Kill(tx) => tx in db.txs && db.txs[tx].phase != Ended
  }

  function Release(locks: map<int, nat>, tx: nat): map<int, nat> {
    map p <- locks | locks[p] != tx :: locks[p]
  }

  function End(db: Db, tx: nat): Db
    requires tx in db.txs
  {
    db.(locks := Release(db.locks, tx), txs := db.txs[tx := db.txs[tx].(phase := Ended)])
  }

  function Report(t: Tx, r: Result<Outcome>): Entry { Entry(t.seller, t.order, t.firstItem, t.lines, r) }

  function AfterReading(next: nat, lines: seq<Line>): Phase {
    if next < |lines| then Reading(next) else Writing(0)
  }

  /** A transaction sees its own uncommitted row, else the committed one. */
  function RowSeen(db: Db, t: Tx, p: int): Stock
    requires p in db.stock
  {
    if p in t.shadow then t.shadow[p] else db.stock[p]
  }

  function WriteRow(db: Db, t: Tx, l: Line): Tx {
    if l.product !in db.stock then t
    else
      var row := RowSeen(db, t, l.product);
      t.(shadow := t.shadow[l.product := row.(quantity := row.quantity - l.quantity)],
         moves := t.moves + [SaleMove(t.order, l)])
  }

  function Do(db: Db, e: Event): Db
    requires Enabled(db, e)
  {
    match e
    case Begin(tx, seller, order, firstItem, lines) =>
      db.(txs := db.txs[tx := Tx(seller, order, firstItem, lines, Locking, Validation([], map[], []), map[], [])])
    case Lock(tx, p) => db.(locks := db.locks[p := tx])
    case StartReading(tx) =>
      var t := db.txs[tx];
      db.(txs := db.txs[tx := t.(phase := AfterReading(0, t.lines))])
    case ReadLine(tx) =>
      var t := db.txs[tx];
      var i := t.phase.next;
      (match ValidateLine(db.products, db.stock, t.v, t.lines[i])
       case Failure(error) => End(db, tx).(log := db.log + [Report(t, Failure(error))])
       case Success(v) => db.(txs := db.txs[tx := t.(phase := AfterReading(i + 1, t.lines), v := v)]))
    case WriteLine(tx) =>
      var t := db.txs[tx];
      var j := t.phase.next;
      db.(txs := db.txs[tx := WriteRow(db, t, t.lines[j]).(phase := Writing(j + 1))])
    case Commit(tx) =>
      var t := db.txs[tx];
      var rows :=
        if |t.v.owed| == |t.lines| then NewBackorders(t.seller, t.firstItem, t.order, t.lines, t.v.owed) else [];
      End(db, tx).(stock := db.stock + t.shadow, log := db.log + [Report(t, Success(Outcome(rows, t.moves)))])
    case Kill(tx) => End(db, tx)
  }

  ghost predicate Reaches(db: Db, events: seq<Event>, end: Db)
    decreases |events|
  {
    if events == [] then end == db
    else Enabled(db, events[0]) && Reaches(Do(db, events[0]), events[1..], end)
  }

  // ---- The serial reading of the log ----

  function Alone(products: map<int, Product>, stock: map<int, Stock>, e: Entry): Result<Created> {
    Create(State(products, stock, map[], [], [], [], e.order, e.firstItem), e.seller, e.lines, 0, 0, 0)
  }

  function StockAfter(products: map<int, Product>, stock: map<int, Stock>, log: seq<Entry>): map<int, Stock> {
    if log == [] then stock
    else
      var before := StockAfter(products, stock, log[..|log| - 1]);
      var r := Alone(products, before, log[|log| - 1]);
      if r.Success? then r.value.state.stock else before
  }

  /** Entry by entry the log says what the atomic `create` says when run alone, in log
      order, on the stock its predecessors left. */
  predicate SerialLog(products: map<int, Product>, stock: map<int, Stock>, log: seq<Entry>) {
    log == [] ||
    (SerialLog(products, stock, log[..|log| - 1]) &&
     var last := log[|log| - 1];
     last.result ==
       match Alone(products, StockAfter(products, stock, log[..|log| - 1]), last)
       case Failure(e) => Failure(e)
       case Success(c) => Success(Outcome(c.state.backorders, c.state.movements)))
  }

  // ---- What every interleaving keeps ----

  predicate Touches(lines: seq<Line>, p: int) { exists l <- lines :: l.product == p }

  predicate Shadows(db: Db, t: Tx, j: nat)
    requires j <= |t.lines|
  {
    && t.moves == SaleMoves(db.stock.Keys, t.order, t.lines[..j])
    && (forall p <- db.stock :: p in t.shadow <==> Touches(t.lines[..j], p))
    && (forall p <- t.shadow :: p in db.stock)
    && (var taken := TakeOutAll(db.stock, t.lines[..j]);
        forall p <- t.shadow :: p in taken && t.shadow[p] == taken[p])
  }

  predicate TxOk(db: Db, tx: nat, t: Tx) {
    && AllOwned(db.products, t.seller, t.lines)
    && match t.phase
       case Locking => t.v == Validation([], map[], []) && t.shadow == map[] && t.moves == []
       case Reading(i) =>
         && i < |t.lines| && Holds(db, tx, t) && t.shadow == map[] && t.moves == []
         && Validate(db.products, db.stock, t.lines[..i]) == Success(t.v)
       case Writing(j) =>
         && j <= |t.lines| && Holds(db, tx, t) && Shadows(db, t, j)
         && Validate(db.products, db.stock, t.lines) == Success(t.v)
       case Ended => true
  }

  predicate Consistent(db: Db) { forall tx <- db.txs :: TxOk(db, tx, db.txs[tx]) }

  lemma {:induction false} TakeOutAllAt(stock: map<int, Stock>, lines: seq<Line>)
    ensures var t := TakeOutAll(stock, lines);
      t.Keys == stock.Keys && forall p <- stock :: t[p] == stock[p] || Touches(lines, p)
  {
    if lines != [] {
      var n := |lines| - 1;
      TakeOutAllAt(stock, lines[..n]);
      assert lines == lines[..n] + [lines[n]];
    }
  }

  /** A transaction's reads and writes depend on its own rows only. */
  lemma {:induction false} OwnRowsOnly(
      products: map<int, Product>, a: map<int, Stock>, b: map<int, Stock>, lines: seq<Line>)
    requires a.Keys == b.Keys && forall l <- lines :: l.product in a ==> a[l.product] == b[l.product]
    ensures Validate(products, a, lines) == Validate(products, b, lines)
    ensures TakeOutAll(a, lines).Keys == TakeOutAll(b, lines).Keys == a.Keys
    ensures forall p <- a :: a[p] == b[p] ==> TakeOutAll(a, lines)[p] == TakeOutAll(b, lines)[p]
  {
    TakeOutAllAt(a, lines);
    TakeOutAllAt(b, lines);
    if lines != [] {
      var n := |lines| - 1;
      OwnRowsOnly(products, a, b, lines[..n]);
      assert lines[n] in lines;
      TakeOutAllAt(a, lines[..n]);
      TakeOutAllAt(b, lines[..n]);
    }
  }

  /** A transaction that holds its rows does not notice changes to other rows. */
  lemma TxOkElsewhere(db: Db, after: Db, tx: nat, t: Tx)
    requires TxOk(db, tx, t) && after.products == db.products && after.stock.Keys == db.stock.Keys
    requires t.phase.Reading? || t.phase.Writing? ==>
      && Holds(after, tx, t)
      && forall l <- t.lines :: l.product in db.stock ==> after.stock[l.product] == db.stock[l.product]
    ensures TxOk(after, tx, t)
  {
    match t.phase
    case Locking =>
    case Reading(i) => OwnRowsOnly(db.products, db.stock, after.stock, t.lines[..i]);
    case Writing(j) =>
      OwnRowsOnly(db.products, db.stock, after.stock, t.lines);
      OwnRowsOnly(db.products, db.stock, after.stock, t.lines[..j]);
      forall p <- t.shadow ensures after.stock[p] == db.stock[p] {
        assert Touches(t.lines[..j], p);
      }
    case Ended =>
  }

  /** Publishing a complete shadow is the atomic decrement. */
  lemma ShadowIsTakeOutAll(db: Db, t: Tx)
    requires Shadows(db, t, |t.lines|)
    ensures (db.stock + t.shadow).Keys == db.stock.Keys
    ensures db.stock + t.shadow == TakeOutAll(db.stock, t.lines)
    ensures forall p <- db.stock :: (db.stock + t.shadow)[p] == db.stock[p] || Touches(t.lines, p)
  {
    assert t.lines[..|t.lines|] == t.lines;
    TakeOutAllAt(db.stock, t.lines);
    var published := db.stock + t.shadow;
    forall p <- db.stock ensures published[p] == TakeOutAll(db.stock, t.lines)[p] {
      assert p in t.shadow <==> Touches(t.lines, p);
    }
    assert forall p :: p in published.Keys <==> p in db.stock.Keys;
  }

  lemma {:induction false} ReadsOn(db: Db, tx: nat, t: Tx)
    requires Consistent(db) && Enabled(db, ReadLine(tx)) && t == db.txs[tx]
    ensures var i := t.phase.next;
      var r := ValidateLine(db.products, db.stock, t.v, t.lines[i]);
      && Validate(db.products, db.stock, t.lines[..i + 1]) == r
      && (r.Failure? ==> Validate(db.products, db.stock, t.lines) == r)
  {
    var i := t.phase.next;
    assert TxOk(db, tx, t);
    assert t.lines[..i + 1][..i] == t.lines[..i];
    if Validate(db.products, db.stock, t.lines[..i + 1]).Failure? {
      FailsForGood(db.products, db.stock, t.lines, i + 1);
    }
  }

  lemma {:induction false} ReadOk(db: Db, tx: nat)
    requires Consistent(db) && Enabled(db, ReadLine(tx))
    ensures var after := Do(db, ReadLine(tx)); TxOk(after, tx, after.txs[tx])
  {
    var t := db.txs[tx];
    assert TxOk(db, tx, t);
    ReadsOn(db, tx, t);
    assert t.lines[..0] == [];
    assert t.lines[..|t.lines|] == t.lines;
  }

  lemma WriteOk(db: Db, tx: nat)
    requires Consistent(db) && Enabled(db, WriteLine(tx))
    ensures var after := Do(db, WriteLine(tx)); TxOk(after, tx, after.txs[tx])
  {
    assert TxOk(db, tx, db.txs[tx]);
    WriteRowShadows(db, db.txs[tx], db.txs[tx].phase.next);
  }

  lemma TouchesNext(lines: seq<Line>, j: nat, q: int)
    requires j < |lines|
    ensures Touches(lines[..j + 1], q) <==> Touches(lines[..j], q) || q == lines[j].product
  {
    assert forall l :: l in lines[..j + 1] <==> l in lines[..j] || l == lines[j];
  }

  lemma {:induction false} WriteRowKeys(db: Db, t: Tx, j: nat)
    requires j < |t.lines| && Shadows(db, t, j)
    ensures var shadow := WriteRow(db, t, t.lines[j]).shadow;
      (forall p <- db.stock :: p in shadow <==> Touches(t.lines[..j + 1], p)) && (forall p <- shadow :: p in db.stock)
  {
    forall q <- db.stock ensures q in WriteRow(db, t, t.lines[j]).shadow <==> Touches(t.lines[..j + 1], q) {
      TouchesNext(t.lines, j, q);
    }
  }

  lemma {:induction false} WriteRowShadows(db: Db, t: Tx, j: nat)
    requires j < |t.lines| && Shadows(db, t, j)
    ensures Shadows(db, WriteRow(db, t, t.lines[j]), j + 1)
  {
    var p := t.lines[j].product;
    var before := TakeOutAll(db.stock, t.lines[..j]);
    TakeOutAllAt(db.stock, t.lines[..j]);
    WriteRowKeys(db, t, j);
    assert t.lines[..j + 1][..j] == t.lines[..j];
    assert TakeOutAll(db.stock, t.lines[..j + 1]) == TakeOut(before, p, t.lines[j].quantity);
    if p in db.stock {
      assert RowSeen(db, t, p) == before[p];
    }
  }

  /** A commit touches no row another transaction holds. */
  lemma CommitElsewhere(db: Db, tx: nat, other: nat)
    requires Consistent(db) && Enabled(db, Commit(tx)) && other in db.txs && other != tx
    ensures var after := Do(db, Commit(tx)); TxOk(after, other, db.txs[other])
  {
    var after, t := Do(db, Commit(tx)), db.txs[tx];
    assert TxOk(db, tx, t) && TxOk(db, other, db.txs[other]);
    ShadowIsTakeOutAll(db, t);
    TxOkElsewhere(db, after, other, db.txs[other]);
  }

  lemma CommitKeys(db: Db, tx: nat)
    requires Consistent(db) && Enabled(db, Commit(tx))
    ensures (db.stock + db.txs[tx].shadow).Keys == db.stock.Keys
  {
    assert TxOk(db, tx, db.txs[tx]);
    ShadowIsTakeOutAll(db, db.txs[tx]);
  }

  /** Other events change no stock row, and take no lock from who holds one. */
  lemma OtherTxOk(db: Db, e: Event, other: nat)
    requires Consistent(db) && Enabled(db, e) && other in db.txs && other != e.tx && !e.Commit?
    ensures var after := Do(db, e); TxOk(after, other, db.txs[other])
  {
    assert TxOk(db, other, db.txs[other]);
    TxOkElsewhere(db, Do(db, e), other, db.txs[other]);
  }

  lemma OwnTxOk(db: Db, e: Event)
    requires Consistent(db) && Enabled(db, e)
    ensures var after := Do(db, e); e.tx in after.txs && TxOk(after, e.tx, after.txs[e.tx])
  {
    if e.tx in db.txs {
      assert TxOk(db, e.tx, db.txs[e.tx]);
    }
    if e.ReadLine? {
      ReadOk(db, e.tx);
    } else if e.WriteLine? {
      WriteOk(db, e.tx);
    } else if e.StartReading? {
      assert db.txs[e.tx].lines[..0] == [];
    }
  }

  lemma DoConsistent(db: Db, e: Event)
    requires Consistent(db) && Enabled(db, e)
    ensures Consistent(Do(db, e)) && Do(db, e).stock.Keys == db.stock.Keys
  {
    var after := Do(db, e);
    OwnTxOk(db, e);
    if e.Commit? {
      CommitKeys(db, e.tx);
    }
    forall tx <- after.txs ensures TxOk(after, tx, after.txs[tx]) {
      if tx != e.tx {
        if e.Commit? {
          CommitElsewhere(db, e.tx, tx);
        } else {
          OtherTxOk(db, e, tx);
        }
      }
    }
  }

  lemma {:induction false} LogSerial(
      products: map<int, Product>, stock: map<int, Stock>, log: seq<Entry>, e: Entry, r: Result<Created>)
    requires SerialLog(products, stock, log) && r == Alone(products, StockAfter(products, stock, log), e)
    requires e.result ==
      match r
      case Failure(error) => Failure(error)
      case Success(c) => Success(Outcome(c.state.backorders, c.state.movements))
    ensures SerialLog(products, stock, log + [e])
    ensures StockAfter(products, stock, log + [e]) ==
            if r.Success? then r.value.state.stock else StockAfter(products, stock, log)
  {
    assert (log + [e])[..|log|] == log;
  }

  lemma CommitAlone(db: Db, tx: nat)
    requires Consistent(db) && Enabled(db, Commit(tx))
    ensures var t := db.txs[tx];
      && |t.v.owed| == |t.lines|
      && var rows := NewBackorders(t.seller, t.firstItem, t.order, t.lines, t.v.owed);
      && var r := Alone(db.products, db.stock, Report(t, Success(Outcome(rows, t.moves))));
      && r.Success? && r.value.state.backorders == rows && r.value.state.movements == t.moves
      && r.value.state.stock == db.stock + t.shadow
  {
    var t := db.txs[tx];
    assert TxOk(db, tx, t);
    assert t.lines[..|t.lines|] == t.lines;
    ShadowIsTakeOutAll(db, t);
    ValidateLength(db.products, db.stock, t.lines);
    var rows := NewBackorders(t.seller, t.firstItem, t.order, t.lines, t.v.owed);
    assert [] + rows == rows && [] + t.moves == t.moves;
  }

  lemma {:induction false} CommitSerial(db: Db, tx: nat, after: Db, stock: map<int, Stock>)
    requires Consistent(db) && Enabled(db, Commit(tx)) && after == Do(db, Commit(tx))
    requires SerialLog(db.products, stock, db.log) && db.stock == StockAfter(db.products, stock, db.log)
    ensures SerialLog(db.products, stock, after.log) && after.stock == StockAfter(db.products, stock, after.log)
  {
    var t := db.txs[tx];
    CommitAlone(db, tx);
    var rows := NewBackorders(t.seller, t.firstItem, t.order, t.lines, t.v.owed);
    var e := Report(t, Success(Outcome(rows, t.moves)));
    assert after.log == db.log + [e];
    LogSerial(db.products, stock, db.log, e, Alone(db.products, db.stock, e));
  }

  lemma {:induction false} RefusalSerial(db: Db, tx: nat, after: Db, stock: map<int, Stock>)
    requires Consistent(db) && Enabled(db, ReadLine(tx)) && after == Do(db, ReadLine(tx))
    requires SerialLog(db.products, stock, db.log) && db.stock == StockAfter(db.products, stock, db.log)
    ensures SerialLog(db.products, stock, after.log) && after.stock == StockAfter(db.products, stock, after.log)
  {
    var t := db.txs[tx];
    var refused := ValidateLine(db.products, db.stock, t.v, t.lines[t.phase.next]);
    if refused.Failure? {
      var e := Report(t, Failure(refused.error));
      assert TxOk(db, tx, t);
      ReadsOn(db, tx, t);
      assert Alone(db.products, db.stock, e) == Failure(refused.error);
      LogSerial(db.products, stock, db.log, e, Failure(refused.error));
    }
  }

  lemma {:induction false} DoSerial(db: Db, e: Event, after: Db, stock: map<int, Stock>)
    requires Consistent(db) && Enabled(db, e) && after == Do(db, e)
    requires SerialLog(db.products, stock, db.log) && db.stock == StockAfter(db.products, stock, db.log)
    ensures SerialLog(db.products, stock, after.log) && after.stock == StockAfter(db.products, stock, after.log)
  {
    match e
    case Commit(tx) => CommitSerial(db, tx, after, stock);
    case ReadLine(tx) => RefusalSerial(db, tx, after, stock);
    case _ => assert after.log == db.log && after.stock == db.stock;
  }

  lemma {:induction false} DoKeeps(db: Db, e: Event, next: Db, stock: map<int, Stock>)
    requires Consistent(db) && Enabled(db, e) && next == Do(db, e)
    requires SerialLog(db.products, stock, db.log) && db.stock == StockAfter(db.products, stock, db.log)
    ensures Consistent(next) && next.products == db.products
    ensures SerialLog(next.products, stock, next.log) && next.stock == StockAfter(next.products, stock, next.log)
  {
    DoConsistent(db, e);
    DoSerial(db, e, next, stock);
  }

  /** Serializability: whatever the locks let interleave, the committed stock and every
      reported backorder, movement and refusal are those of running `create` whole, one
      transaction after another, in the order the log gives. */
  lemma {:induction false} EveryInterleavingIsSerial(db: Db, events: seq<Event>, end: Db, stock: map<int, Stock>)
    requires Reaches(db, events, end) && Consistent(db)
    requires SerialLog(db.products, stock, db.log) && db.stock == StockAfter(db.products, stock, db.log)
    ensures end.products == db.products
    ensures SerialLog(end.products, stock, end.log) && end.stock == StockAfter(end.products, stock, end.log)
    decreases |events|
  {
    if events != [] {
      var next := Do(db, events[0]);
      DoKeeps(db, events[0], next, stock);
      EveryInterleavingIsSerial(next, events[1..], end, stock);
    }
  }

  // ---- No overselling ----

  lemma {:induction false} SellLinesSpare(s: State, seller: string, o: nat, lines: seq<Line>, p: int)
    requires CanSellAll(s, seller, o, lines)
    requires p in s.stock && !MayOversell(s.products, p) && s.stock[p].Available() >= 0
    ensures var t := SellLines(s, seller, o, lines); p in t.stock && t.stock[p].Available() >= 0
  {
    if lines != [] {
      SellLinesSpare(s, seller, o, lines[..|lines| - 1], p);
      SellLinesFrame(s, seller, o, lines[..|lines| - 1]);
    }
  }

  lemma {:induction false} StockAfterSpares(
      products: map<int, Product>, stock: map<int, Stock>, log: seq<Entry>, p: int)
    requires p in stock && !MayOversell(products, p) && stock[p].Available() >= 0
    ensures var t := StockAfter(products, stock, log); p in t && t[p].Available() >= 0
  {
    if log != [] {
      var n := |log| - 1;
      StockAfterSpares(products, stock, log[..n], p);
      var before, e := StockAfter(products, stock, log[..n]), log[n];
      if Alone(products, before, e).Success? {
        var s := State(products, before, map[], [], [], [], e.order, e.firstItem);
        CreateIsSellLines(s, e.seller, e.lines, 0, 0, 0);
        SellLinesSpare(WithOrder(s, Order(e.seller, OrderPending, 0, 0, 0)), e.seller, e.order, e.lines, p);
      }
    }
  }

  /** Concurrent sales never take a product that may not be oversold below zero available. */
  lemma NeverOversold(products: map<int, Product>, stock: map<int, Stock>, events: seq<Event>, end: Db, p: int)
    requires Reaches(Db(products, stock, map[], map[], []), events, end)
    requires p in stock && !MayOversell(products, p) && stock[p].Available() >= 0
    ensures p in end.stock && end.stock[p].Available() >= 0
  {
    EveryInterleavingIsSerial(Db(products, stock, map[], map[], []), events, end, stock);
    StockAfterSpares(products, stock, end.log, p);
  }
}
