/** The subscription rows when handlers overlap. Looking a provider id up and writing its
    row are separate statements, and nothing in the table keeps an id from a second row. */
module SubscriptionRaces {
  import opened Tables
  import opened Subscriptions
  import opened Webhooks

  /** One webhook handler, or one entry of a reconcile pass. */
  datatype Work = Act(event: Event, now: int) | Pull(entry: Listed)

  /** The provider id that the work looks up before it writes, if it does. */
  function LookedUp(work: Work): Option<string> {
    match work
    case Act(e, _) => if e.SubscriptionChanged? && Given(e.account) then Some(e.providerId) else None
    case Pull(m) => Some(m.providerId)
  }

  /** The row write, with what the lookup returned. */
  function Written(rows: seq<Row>, work: Work, found: Option<nat>): seq<Row>
    requires InRange(rows, found)
  {
    match work
    case Act(e, now) =>
      if LookedUp(work).Some? then ChangeRows(rows, e, now, found) else Handle(World(map[], rows), e, now).rows
    case Pull(m) => UpsertAt(rows, m, found)
  }

  function Alone(rows: seq<Row>, work: Work): seq<Row> {
    Written(rows, work, if LookedUp(work).Some? then Lookup(rows, LookedUp(work).value) else None)
  }

  /** Run alone, the two statements are the handler's, or the upsert's, row write. */
  lemma AloneIsAtomic(w: World, work: Work)
    ensures work.Act? ==> Alone(w.rows, work) == Handle(w, work.event, work.now).rows
    ensures work.Pull? ==> Alone(w.rows, work) == SyncOne(Sync(w, 0, 0, {}), work.entry).world.rows
  {
  }

  // ---- Statements ----

  datatype Phase = Begun | Looked(found: Option<nat>) | Done

  datatype Task = Task(work: Work, phase: Phase)

  /** `processed` holds the marked events; `acts` the works in the order of their writes. */
  datatype Db = Db(rows: seq<Row>, processed: set<string>, tasks: map<nat, Task>, acts: seq<Work>)

  datatype Move =
    | Begin(task: nat, work: Work)
    | Look(task: nat)
    | Write(task: nat)
    | Finish(task: nat)
    | Throw(task: nat)

  /** A handler begins only when its event is not marked yet. It may throw at any point, also
      after its row write, from the plan write or from the mark: its event stays unmarked. */
  predicate Enabled(db: Db, m: Move) {
    match m
    case Begin(t, work) => t !in db.tasks && (work.Act? ==> work.event.id !in db.processed)
    case Look(t) => t in db.tasks && db.tasks[t].phase == Begun && LookedUp(db.tasks[t].work).Some?
    case Write(t) =>
      t in db.tasks &&
      if LookedUp(db.tasks[t].work).Some? then db.tasks[t].phase.Looked? else db.tasks[t].phase == Begun
    case Finish(t) => t in db.tasks && db.tasks[t].phase == Done
    case Throw(t) => t in db.tasks
  }

  function Found(t: Task): Option<nat> { if t.phase.Looked? then t.phase.found else None }

  function Do(db: Db, m: Move): Db
    requires Enabled(db, m) && Current(db)
  {
    match m
    case Begin(t, work) => db.(tasks := db.tasks[t := Task(work, Begun)])
    case Look(t) =>
      var work := db.tasks[t].work;
      db.(tasks := db.tasks[t := Task(work, Looked(Lookup(db.rows, LookedUp(work).value)))])
    case Write(t) =>
      var task := db.tasks[t];
      db.(rows := Written(db.rows, task.work, Found(task)), tasks := db.tasks[t := task.(phase := Done)],
          acts := db.acts + [task.work])
    case Finish(t) =>
      var work := db.tasks[t].work;
      db.(processed := if work.Act? then db.processed + {work.event.id} else db.processed, tasks := db.tasks - {t})
    case Throw(t) => db.(tasks := db.tasks - {t})
  }

  /** A row that a lookup found is still what the same lookup would find. */
  predicate Current(db: Db) {
    forall t <- db.tasks :: TaskCurrent(db.rows, db.tasks[t])
  }

  predicate TaskCurrent(rows: seq<Row>, t: Task) {
    t.phase.Looked? ==>
      && LookedUp(t.work).Some?
      && (t.phase.found.Some? ==> Lookup(rows, LookedUp(t.work).value) == t.phase.found)
  }

  /** Writes keep the rows there are, with their ids, and append at most one. */
  predicate Grows(a: seq<Row>, b: seq<Row>) {
    |a| <= |b| <= |a| + 1 && forall i | 0 <= i < |a| :: a[i].providerId == b[i].providerId
  }

  lemma LookupGrows(a: seq<Row>, b: seq<Row>, id: string)
    requires Grows(a, b) && Has(a, id)
    ensures Lookup(b, id) == Lookup(a, id)
  {
    assert b[First(a, id)] in b;
  }

  lemma WrittenGrows(rows: seq<Row>, work: Work, found: Option<nat>)
    requires InRange(rows, found)
    ensures Grows(rows, Written(rows, work, found))
    ensures |Written(rows, work, found)| > |rows| <==> LookedUp(work).Some? && found.None?
    ensures |Written(rows, work, found)| > |rows| ==>
      Written(rows, work, found)[|rows|].providerId == LookedUp(work).value
  {
  }

  lemma DoCurrent(db: Db, m: Move)
    requires Current(db) && Enabled(db, m)
    ensures Current(Do(db, m)) && (m.Write? || Do(db, m).rows == db.rows)
  {
    var after := Do(db, m);
    if m.Write? {
      WrittenGrows(db.rows, db.tasks[m.task].work, Found(db.tasks[m.task]));
    }
    forall t <- after.tasks ensures TaskCurrent(after.rows, after.tasks[t]) {
      if t in db.tasks && after.tasks[t] == db.tasks[t] && db.tasks[t].phase.Looked? && Found(db.tasks[t]).Some? {
        assert TaskCurrent(db.rows, db.tasks[t]);
        if m.Write? {
          LookupGrows(db.rows, after.rows, LookedUp(db.tasks[t].work).value);
        }
      }
    }
  }

  ghost predicate Reaches(db: Db, moves: seq<Move>, end: Db)
    requires Current(db)
    decreases |moves|
  {
    if moves == [] then end == db
    else Enabled(db, moves[0]) && (DoCurrent(db, moves[0]); Reaches(Do(db, moves[0]), moves[1..], end))
  }

  // ---- When an id gets a second row ----

  /** An insert whose lookup found nothing, though the id has a row by now. */
  predicate Late(db: Db, m: Move) {
    && Enabled(db, m) && m.Write? && db.tasks[m.task].phase.Looked? && db.tasks[m.task].phase.found.None?
    && LookedUp(db.tasks[m.task].work).Some?
    && Has(db.rows, LookedUp(db.tasks[m.task].work).value)
  }

  ghost predicate SomeLate(db: Db, moves: seq<Move>)
    requires Current(db)
    decreases |moves|
  {
    moves != [] && Enabled(db, moves[0]) &&
    (Late(db, moves[0]) || (DoCurrent(db, moves[0]); SomeLate(Do(db, moves[0]), moves[1..])))
  }

  lemma DoOnePerIdIff(db: Db, m: Move)
    requires Current(db) && Enabled(db, m)
    ensures OnePerId(Do(db, m).rows) <==> OnePerId(db.rows) && !Late(db, m)
  {
    var after := Do(db, m);
    DoCurrent(db, m);
    if m.Write? {
      var task := db.tasks[m.task];
      assert TaskCurrent(db.rows, task);
      WrittenGrows(db.rows, task.work, Found(task));
      if |after.rows| > |db.rows| {
        var id := LookedUp(task.work).value;
        if Has(db.rows, id) {
          assert after.rows[First(db.rows, id)].providerId == after.rows[|db.rows|].providerId;
        } else {
          forall i | 0 <= i < |db.rows| ensures db.rows[i].providerId != id {
            assert db.rows[i] in db.rows;
          }
        }
      }
    }
  }

  /** Exactly: a run leaves one row per provider id if and only if none of its inserts comes
      late. */
  lemma {:induction false} RunOnePerIdIff(db: Db, moves: seq<Move>, end: Db)
    requires Current(db) && Reaches(db, moves, end)
    ensures OnePerId(end.rows) <==> OnePerId(db.rows) && !SomeLate(db, moves)
    decreases |moves|
  {
    if moves != [] {
      DoCurrent(db, moves[0]);
      DoOnePerIdIff(db, moves[0]);
      RunOnePerIdIff(Do(db, moves[0]), moves[1..], end);
    }
  }

  lemma {:induction false} ReachesFirst(db: Db, m: Move, moves: seq<Move>, end: Db)
    requires Current(db) && Enabled(db, m) && Current(Do(db, m)) && Reaches(Do(db, m), moves, end)
    ensures Reaches(db, [m] + moves, end)
  {
    assert ([m] + moves)[1..] == moves;
  }

  /** What two tasks do that both begin before either writes. */
  function Together(a: Work, b: Work): seq<Move> {
    [Begin(0, a), Begin(1, b)] +
    ((if LookedUp(a).Some? then [Look(0)] else []) +
     ((if LookedUp(b).Some? then [Look(1)] else []) + [Write(0), Write(1)]))
  }

  /** The task of `work` when it is ready to write, on rows that did not change meanwhile. */
  function Ready(rows: seq<Row>, work: Work): Task {
    Task(work, if LookedUp(work).Some? then Looked(Lookup(rows, LookedUp(work).value)) else Begun)
  }

  lemma {:induction false} TwoWrites(db: Db, a: Work, b: Work) returns (end: Db)
    requires db.acts == [] && db.tasks == map[0 := Ready(db.rows, a), 1 := Ready(db.rows, b)]
    requires LookedUp(a) == LookedUp(b)
    ensures Current(db) && Reaches(db, [Write(0), Write(1)], end) && end.acts == [a, b]
    ensures LookedUp(a).Some? && !Has(db.rows, LookedUp(a).value) ==> !OnePerId(end.rows)
  {
    DoCurrent(db, Write(0));
    var once := Do(db, Write(0));
    var found := Found(Ready(db.rows, a));
    WrittenGrows(db.rows, a, found);
    DoCurrent(once, Write(1));
    end := Do(once, Write(1));
    WrittenGrows(once.rows, b, found);
    if LookedUp(a).Some? && found.None? {
      assert end.rows[|db.rows|].providerId == end.rows[|db.rows| + 1].providerId;
    }
    assert end.acts == [a, b];
    assert Reaches(end, [], end);
    ReachesFirst(once, Write(1), [], end);
    ReachesFirst(db, Write(0), [Write(1)], end);
    assert [Write(0)] + [Write(1)] == [Write(0), Write(1)];
    assert [Write(1)] + [] == [Write(1)];
  }

  lemma {:induction false} LookFirst(db: Db, t: nat, work: Work, moves: seq<Move>, end: Db)
    requires Current(db) && t in db.tasks && db.tasks[t] == Task(work, Begun)
    requires var looked := db.(tasks := db.tasks[t := Ready(db.rows, work)]);
      Current(looked) && Reaches(looked, moves, end)
    ensures Reaches(db, (if LookedUp(work).Some? then [Look(t)] else []) + moves, end)
  {
    if LookedUp(work).Some? {
      ReachesFirst(db, Look(t), moves, end);
    } else {
      assert db.tasks[t := Ready(db.rows, work)] == db.tasks;
      assert [] + moves == moves;
    }
  }

  lemma {:induction false} BothReady(db: Db, a: Work, b: Work) returns (end: Db)
    requires db.acts == [] && db.tasks == map[0 := Task(a, Begun), 1 := Task(b, Begun)]
    requires LookedUp(a) == LookedUp(b)
    ensures Current(db) && end.acts == [a, b]
    ensures Reaches(db, (if LookedUp(a).Some? then [Look(0)] else []) +
                        ((if LookedUp(b).Some? then [Look(1)] else []) + [Write(0), Write(1)]), end)
    ensures LookedUp(a).Some? && !Has(db.rows, LookedUp(a).value) ==> !OnePerId(end.rows)
  {
    var first := db.(tasks := db.tasks[0 := Ready(db.rows, a)]);
    var second := first.(tasks := first.tasks[1 := Ready(db.rows, b)]);
    assert second.tasks == map[0 := Ready(db.rows, a), 1 := Ready(db.rows, b)];
    end := TwoWrites(second, a, b);
    LookFirst(first, 1, b, [Write(0), Write(1)], end);
    LookFirst(db, 0, a, (if LookedUp(b).Some? then [Look(1)] else []) + [Write(0), Write(1)], end);
  }

  lemma {:induction false} BothAct(rows: seq<Row>, a: Work, b: Work) returns (end: Db)
    requires LookedUp(a) == LookedUp(b)
    ensures Reaches(Db(rows, {}, map[], []), Together(a, b), end) && end.acts == [a, b]
    ensures LookedUp(a).Some? && !Has(rows, LookedUp(a).value) ==> !OnePerId(end.rows)
  {
    var db0 := Db(rows, {}, map[], []);
    var db1 := Do(db0, Begin(0, a));
    var db2 := Do(db1, Begin(1, b));
    assert db2.tasks == map[0 := Task(a, Begun), 1 := Task(b, Begun)];
    end := BothReady(db2, a, b);
    var rest := (if LookedUp(a).Some? then [Look(0)] else []) +
                ((if LookedUp(b).Some? then [Look(1)] else []) + [Write(0), Write(1)]);
    ReachesFirst(db1, Begin(1, b), rest, end);
    ReachesFirst(db0, Begin(0, a), [Begin(1, b)] + rest, end);
    assert [Begin(0, a)] + ([Begin(1, b)] + rest) == Together(a, b);
  }

  /** The overlap that does it, for any two works on a new id, be they handlers of one event,
      of two, or reconcile entries: both look, both find nothing, both insert. */
  lemma {:induction false} OverlapGivesTwoRows(rows: seq<Row>, id: string, a: Work, b: Work)
    requires OnePerId(rows) && !Has(rows, id) && LookedUp(a) == LookedUp(b) == Some(id)
    ensures exists end :: Reaches(Db(rows, {}, map[], []), Together(a, b), end) && !OnePerId(end.rows)
  {
    var end := BothAct(rows, a, b);
  }

  // ---- Runs without overlap ----

  /** Between its lookup and its write a task has its provider id to itself. */
  predicate Apart(db: Db, m: Move) {
    m.Look? && m.task in db.tasks && LookedUp(db.tasks[m.task].work).Some? ==>
      forall t <- db.tasks :: t != m.task && db.tasks[t].phase.Looked? ==>
        LookedUp(db.tasks[t].work) != LookedUp(db.tasks[m.task].work)
  }

  ghost predicate AllApart(db: Db, moves: seq<Move>)
    requires Current(db)
    decreases |moves|
  {
    moves == [] || !Enabled(db, moves[0]) ||
    (Apart(db, moves[0]) && (DoCurrent(db, moves[0]); AllApart(Do(db, moves[0]), moves[1..])))
  }

  predicate LooksHold(db: Db) {
    && Current(db)
    && (forall t <- db.tasks | db.tasks[t].phase.Looked? ::
          Lookup(db.rows, LookedUp(db.tasks[t].work).value) == db.tasks[t].phase.found)
    && (forall t, u | t in db.tasks && u in db.tasks && t != u &&
                      db.tasks[t].phase.Looked? && db.tasks[u].phase.Looked? ::
          LookedUp(db.tasks[t].work) != LookedUp(db.tasks[u].work))
  }

  lemma LookupElsewhere(rows: seq<Row>, work: Work, found: Option<nat>, id: string)
    requires InRange(rows, found) && LookedUp(work) != Some(id)
    ensures Lookup(Written(rows, work, found), id) == Lookup(rows, id)
  {
    var after := Written(rows, work, found);
    WrittenGrows(rows, work, found);
    if Has(rows, id) {
      LookupGrows(rows, after, id);
    } else if Has(after, id) {
      var i := First(after, id);
      assert i < |rows| ==> rows[i] in rows;
    }
  }

  lemma DoLooksHold(db: Db, m: Move)
    requires LooksHold(db) && Enabled(db, m) && Apart(db, m)
    ensures LooksHold(Do(db, m)) && !Late(db, m)
    ensures m.Write? ==> Do(db, m).rows == Alone(db.rows, db.tasks[m.task].work)
  {
    DoCurrent(db, m);
    var after := Do(db, m);
    if m.Write? {
      var task := db.tasks[m.task];
      forall t <- after.tasks | after.tasks[t].phase.Looked?
        ensures Lookup(after.rows, LookedUp(after.tasks[t].work).value) == after.tasks[t].phase.found
      {
        assert TaskCurrent(db.rows, db.tasks[t]);
        LookupElsewhere(db.rows, task.work, Found(task), LookedUp(db.tasks[t].work).value);
      }
    }
  }

  function Replayed(rows: seq<Row>, acts: seq<Work>): seq<Row> {
    if acts == [] then rows else Alone(Replayed(rows, acts[..|acts| - 1]), acts[|acts| - 1])
  }

  /** Without overlap on an id, however else statements interleave, each id keeps one row and
      the rows are those of running the works whole, one after another, in write order. */
  lemma {:induction false} ApartIsSerial(db: Db, moves: seq<Move>, end: Db, start: seq<Row>)
    requires LooksHold(db) && Reaches(db, moves, end) && AllApart(db, moves)
    requires db.rows == Replayed(start, db.acts)
    ensures end.rows == Replayed(start, end.acts)
    ensures OnePerId(db.rows) ==> OnePerId(end.rows)
    decreases |moves|
  {
    if moves != [] {
      var m := moves[0];
      DoLooksHold(db, m);
      DoOnePerIdIff(db, m);
      var after := Do(db, m);
      if m.Write? {
        assert after.acts[..|db.acts|] == db.acts;
      }
      ApartIsSerial(after, moves[1..], end, start);
    }
  }

  // ---- How often an event acts ----

  predicate ActOf(work: Work, id: string) { work.Act? && work.event.id == id }

  predicate Acted(acts: seq<Work>, id: string) { exists work <- acts :: ActOf(work, id) }

  predicate ActsDiffer(acts: seq<Work>) {
    forall i, j | 0 <= i < j < |acts| && acts[i].Act? && acts[j].Act? :: acts[i].event.id != acts[j].event.id
  }

  /** A handler writes for an event that has acted already. */
  predicate Again(db: Db, m: Move) {
    && Enabled(db, m) && m.Write? && db.tasks[m.task].work.Act?
    && Acted(db.acts, db.tasks[m.task].work.event.id)
  }

  ghost predicate SomeAgain(db: Db, moves: seq<Move>)
    requires Current(db)
    decreases |moves|
  {
    moves != [] && Enabled(db, moves[0]) &&
    (Again(db, moves[0]) || (DoCurrent(db, moves[0]); SomeAgain(Do(db, moves[0]), moves[1..])))
  }

  lemma {:induction false} DoActsIff(db: Db, m: Move)
    requires Current(db) && Enabled(db, m)
    ensures ActsDiffer(Do(db, m).acts) <==> ActsDiffer(db.acts) && !Again(db, m)
  {
    if m.Write? {
      var work, n := db.tasks[m.task].work, |db.acts|;
      var after := db.acts + [work];
      assert forall i | 0 <= i < n :: after[i] == db.acts[i];
      if Again(db, m) {
        var i :| 0 <= i < n && ActOf(db.acts[i], work.event.id);
        assert after[i].event.id == after[n].event.id;
      } else if work.Act? {
        forall i | 0 <= i < n ensures !ActOf(after[i], work.event.id) {
          assert db.acts[i] in db.acts;
        }
      }
    }
  }

  /** Exactly: in a run each event acts at most once if and only if no handler writes for an
      event that has acted already. */
  lemma {:induction false} RunActsOnceIff(db: Db, moves: seq<Move>, end: Db)
    requires Current(db) && Reaches(db, moves, end)
    ensures ActsDiffer(end.acts) <==> ActsDiffer(db.acts) && !SomeAgain(db, moves)
    decreases |moves|
  {
    if moves != [] {
      DoCurrent(db, moves[0]);
      DoActsIff(db, moves[0]);
      RunActsOnceIff(Do(db, moves[0]), moves[1..], end);
    }
  }

  /** An event is taken up only while no other task handles it, and no handler throws once it
      has written. */
  predicate Orderly(db: Db, m: Move) {
    && (m.Begin? && m.work.Act? ==> forall t <- db.tasks :: !ActOf(db.tasks[t].work, m.work.event.id))
    && (m.Throw? && m.task in db.tasks && db.tasks[m.task].work.Act? ==> db.tasks[m.task].phase != Done)
  }

  ghost predicate AllOrderly(db: Db, moves: seq<Move>)
    requires Current(db)
    decreases |moves|
  {
    moves == [] || !Enabled(db, moves[0]) ||
    (Orderly(db, moves[0]) && (DoCurrent(db, moves[0]); AllOrderly(Do(db, moves[0]), moves[1..])))
  }

  predicate HandledApart(db: Db) {
    forall t, u | t in db.tasks && u in db.tasks && t != u && db.tasks[t].work.Act? ::
      !ActOf(db.tasks[u].work, db.tasks[t].work.event.id)
  }

  /** A handler that has yet to write is the first for its event. */
  predicate FirstToWrite(db: Db) {
    forall t <- db.tasks | db.tasks[t].work.Act? && db.tasks[t].phase != Done ::
      !Acted(db.acts, db.tasks[t].work.event.id)
  }

  predicate BeingMarked(db: Db, id: string) {
    exists t <- db.tasks :: db.tasks[t].phase == Done && ActOf(db.tasks[t].work, id)
  }

  predicate Accounted(db: Db) {
    && HandledApart(db) && FirstToWrite(db)
    && forall work <- db.acts | work.Act? :: work.event.id in db.processed || BeingMarked(db, work.event.id)
  }

  lemma {:induction false} BeginAccounted(db: Db, m: Move)
    requires Current(db) && Accounted(db) && Enabled(db, m) && Orderly(db, m) && m.Begin?
    ensures Accounted(Do(db, m))
  {
    var after := Do(db, m);
    forall work <- after.acts | work.Act? && work.event.id !in after.processed
      ensures BeingMarked(after, work.event.id)
    {
      var t :| t in db.tasks && db.tasks[t].phase == Done && ActOf(db.tasks[t].work, work.event.id);
      assert after.tasks[t] == db.tasks[t];
    }
  }

  lemma {:induction false} WriteAccounted(db: Db, m: Move)
    requires Current(db) && Accounted(db) && Enabled(db, m) && m.Write?
    ensures Accounted(Do(db, m))
  {
    var after, mine := Do(db, m), db.tasks[m.task].work;
    assert forall x :: x in after.acts <==> x in db.acts || x == mine;
    forall t <- after.tasks | after.tasks[t].work.Act? && after.tasks[t].phase != Done
      ensures !Acted(after.acts, after.tasks[t].work.event.id)
    {
      assert !ActOf(mine, db.tasks[t].work.event.id);
    }
    forall work <- after.acts | work.Act? && work.event.id !in after.processed
      ensures BeingMarked(after, work.event.id)
    {
      if work == mine {
        assert after.tasks[m.task].phase == Done;
      } else {
        var t :| t in db.tasks && db.tasks[t].phase == Done && ActOf(db.tasks[t].work, work.event.id);
        assert after.tasks[t] == db.tasks[t];
      }
    }
  }

  lemma {:induction false} EndAccounted(db: Db, m: Move)
    requires Current(db) && Accounted(db) && Enabled(db, m) && Orderly(db, m) && (m.Look? || m.Finish? || m.Throw?)
    ensures Accounted(Do(db, m))
  {
    var after := Do(db, m);
    forall work <- after.acts | work.Act? && work.event.id !in after.processed
      ensures BeingMarked(after, work.event.id)
    {
      var t :| t in db.tasks && db.tasks[t].phase == Done && ActOf(db.tasks[t].work, work.event.id);
      assert t != m.task;
      assert after.tasks[t] == db.tasks[t];
    }
  }

  /** While no two tasks handle one event at once and no handler throws after its write, each
      event acts at most once, whatever else overlaps. */
  lemma {:induction false} OrderlyActsOnce(db: Db, moves: seq<Move>, end: Db)
    requires Current(db) && Accounted(db) && Reaches(db, moves, end) && AllOrderly(db, moves)
    ensures !SomeAgain(db, moves) && (ActsDiffer(db.acts) ==> ActsDiffer(end.acts))
    decreases |moves|
  {
    if moves != [] {
      var m := moves[0];
      DoCurrent(db, m);
      DoActsIff(db, m);
      if m.Begin? {
        BeginAccounted(db, m);
      } else if m.Write? {
        WriteAccounted(db, m);
      } else {
        EndAccounted(db, m);
      }
      OrderlyActsOnce(Do(db, m), moves[1..], end);
    }
  }

  /** Two deliveries of one event at once both see it unmarked, and both act, whatever the
      event is and whether or not its subscription is known. */
  lemma {:induction false} SimultaneousDeliveriesActTwice(rows: seq<Row>, e: Event, t1: int, t2: int)
    ensures var a, b := Act(e, t1), Act(e, t2);
      exists end :: Reaches(Db(rows, {}, map[], []), Together(a, b), end) && end.acts == [a, b]
  {
    var end := BothAct(rows, Act(e, t1), Act(e, t2));
  }

  // ---- A handler that throws after its write ----

  /** A task from its beginning to its write. */
  function Through(t: nat, work: Work): seq<Move> {
    [Begin(t, work)] + ((if LookedUp(work).Some? then [Look(t)] else []) + [Write(t)])
  }

  lemma {:induction false} WriteReady(db: Db, t: nat, work: Work, moves: seq<Move>, end: Db)
    requires Current(db) && t in db.tasks && db.tasks[t] == Ready(db.rows, work)
    requires var done := Db(Alone(db.rows, work), db.processed, db.tasks[t := Task(work, Done)], db.acts + [work]);
      Current(done) && Reaches(done, moves, end)
    ensures Reaches(db, [Write(t)] + moves, end)
  {
    ReachesFirst(db, Write(t), moves, end);
  }

  lemma {:induction false} ThroughReaches(db: Db, t: nat, work: Work, moves: seq<Move>, end: Db)
    requires Current(db) && Enabled(db, Begin(t, work))
    requires var done := Db(Alone(db.rows, work), db.processed, db.tasks[t := Task(work, Done)], db.acts + [work]);
      Current(done) && Reaches(done, moves, end)
    ensures Reaches(db, Through(t, work) + moves, end)
  {
    var begun := Do(db, Begin(t, work));
    var ready := begun.(tasks := begun.tasks[t := Ready(db.rows, work)]);
    assert ready.tasks[t := Task(work, Done)] == db.tasks[t := Task(work, Done)];
    WriteReady(ready, t, work, moves, end);
    LookFirst(begun, t, work, [Write(t)] + moves, end);
    var looks := if LookedUp(work).Some? then [Look(t)] else [];
    ReachesFirst(db, Begin(t, work), looks + ([Write(t)] + moves), end);
    assert Through(t, work) + moves == [Begin(t, work)] + (looks + ([Write(t)] + moves));
  }

  /** Without any overlap: a delivery whose handler throws after its row write leaves its
      event unmarked, and the redelivery acts on it again. */
  lemma {:induction false} RedeliveryActsAgain(rows: seq<Row>, e: Event, t1: int, t2: int)
    ensures var a, b := Act(e, t1), Act(e, t2);
      var moves := Through(0, a) + ([Throw(0)] + Through(1, b));
      exists end :: Reaches(Db(rows, {}, map[], []), moves, end) && end.acts == [a, b]
  {
    var a, b := Act(e, t1), Act(e, t2);
    var db := Db(rows, {}, map[], []);
    var written := Db(Alone(rows, a), {}, map[0 := Task(a, Done)], [a]);
    var thrown := Db(Alone(rows, a), {}, map[], [a]);
    var end := Db(Alone(thrown.rows, b), {}, map[1 := Task(b, Done)], [a] + [b]);
    assert Reaches(end, [], end);
    assert thrown.tasks[1 := Task(b, Done)] == end.tasks;
    ThroughReaches(thrown, 1, b, [], end);
    assert Through(1, b) + [] == Through(1, b);
    assert Do(written, Throw(0)).tasks == map[];
    ReachesFirst(written, Throw(0), Through(1, b), end);
    assert db.tasks[0 := Task(a, Done)] == written.tasks && db.acts + [a] == [a];
    ThroughReaches(db, 0, a, [Throw(0)] + Through(1, b), end);
  }
}
