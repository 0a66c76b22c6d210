/** A clock that steps back: which rows the replica can still miss, and that it
    then misses them for good. */
module ClockStep {
  import opened Wrappers
  import opened HistorianTables
  import CursorProtocol
  import opened ReplicaImport
  import opened ReplicationSystem
  import HistorianStore

  /** The replica holds this very row, under its local stream. */
  ghost predicate OnReplica(db: Database, source: string, row: Row) {
    var rows := RowsOf(db, TableOf(row));
    && KeyOf(row) in rows
    && (row.FastRow? ==> (source, row.streamId) in db.links)
    && rows[KeyOf(row)] == Localised(db, source, row)
  }

  /** The edge still has the row, the cursor has passed it, the replica has not
      pruned it, and yet does not hold it. */
  ghost predicate Missed(s: System, row: Row) {
    && KeyOf(row) in RowsOf(s.edge, TableOf(row)) && RowsOf(s.edge, TableOf(row))[KeyOf(row)] == row
    && AtOrBefore(PositionOf(row), CursorOf(s.replica, s.source.id, TableOf(row)))
    && Kept(s.past.floors, row)
    && !OnReplica(s.replica, s.source.id, row)
  }

  /** What may follow: any steps, later writes on time. */
  ghost predicate Continues(s: System, states: seq<System>, steps: seq<Step>) {
    && |states| == |steps| + 1
    && states[0] == s
    && forall i :: 0 <= i < |steps| ==> Enabled(states[i], steps[i]) && states[i + 1] == Next(states[i], steps[i])
  }

  ghost predicate NeverMissed(s: System, row: Row) {
    forall states, steps :: Continues(s, states, steps) ==> !Missed(states[|steps|], row)
  }

  // ------------------------------------------------------------ on time is enough

  lemma {:induction false} ContinuationOk(s: System, states: seq<System>, steps: seq<Step>, n: nat)
    requires SystemOk(s) && Continues(s, states, steps) && n < |states|
    ensures SystemOk(states[n])
  {
    if n > 0 {
      ContinuationOk(s, states, steps, n - 1);
      OkAfter(states[n - 1], steps[n - 1]);
    }
  }

  lemma NotMissed(s: System, row: Row)
    requires SystemOk(s) && !row.EventRow?
    ensures !Missed(s, row)
  {
    assert TableOk(s, TableOf(row));
    FastAgreement(s);
    KeyedAgreement(s);
  }

  lemma FloorsRise(s: System, step: Step, row: Row)
    requires !Kept(s.past.floors, row)
    ensures !Kept(Next(s, step).past.floors, row)
  {
    if step.ReplicaRetention? && step.policy.enabled {
      assert RaiseFloors(s.past.floors, step.policy, step.reference)[TableOf(row)]
             == RaisedFloor(s.past.floors, step.policy, step.reference, TableOf(row));
    }
  }

  lemma {:induction false} PrunedStaysPruned(s: System, states: seq<System>, steps: seq<Step>, row: Row, n: nat)
    requires Continues(s, states, steps) && n < |states| && !Kept(s.past.floors, row)
    ensures !Kept(states[n].past.floors, row)
  {
    if n > 0 {
      PrunedStaysPruned(s, states, steps, row, n - 1);
      FloorsRise(states[n - 1], steps[n - 1], row);
    }
  }

  // ------------------------------------------------------------- late is too much

  ghost predicate NewRow(s: System, row: Row) {
    TableOf(row) in s.past.links && row !in s.past.links[TableOf(row)].ever
  }

  /** A row that the edge never had before is not on the replica. */
  lemma NeverHadIt(s: System, row: Row)
    requires SystemOk(s) && !row.EventRow? && NewRow(s, row)
    ensures !OnReplica(s.replica, s.source.id, row)
  {
    var t := TableOf(row);
    assert TableOk(s, t);
    var mirror := s.past.links[t].mirror;
    assert KeyOf(row) in mirror ==> mirror[KeyOf(row)] in s.past.links[t].ever;
  }

  /** Beyond the cursor but inside a page in flight: delivering that page passes it. */
  lemma PassedInFlight(s: System, row: Row, page: CursorProtocol.Page) returns (batch: Batch)
    requires SystemOk(s) && !row.EventRow? && NewRow(s, row)
    requires page in s.past.links[TableOf(row)].pages && AtOrBefore(PositionOf(row), page.cursor)
    requires Kept(s.past.floors, row)
    ensures var w := Next(s, EdgeWrite(row)); Enabled(w, Import(batch, 0)) && Missed(Next(w, Import(batch, 0)), row)
  {
    var t := TableOf(row);
    batch :| batch in s.sent && batch.table == Some(t) && PageOf(batch) == page;
    AfterImport(s, batch, 0);
    OkAfterImport(s, batch, 0);
    NeverHadIt(Next(s, Import(batch, 0)), row);
    ImportSeesReplica(s, Next(s, EdgeWrite(row)), batch);
  }

  /** An import sees the replica, not what the edge wrote in the meantime. */
  lemma ImportSeesReplica(s: System, w: System, batch: Batch)
    requires w.replica == s.replica && w.layout == s.layout && w.pinned == s.pinned
    ensures Next(w, Import(batch, 0)).replica == Next(s, Import(batch, 0)).replica
    ensures Next(w, Import(batch, 0)).(replica := w.replica, pinned := w.pinned, past := w.past) == w
    ensures Next(w, Import(batch, 0)).past.floors == w.past.floors
  {
  }

  lemma BelowTheCursor(s: System, row: Row)
    requires SystemOk(s) && !row.EventRow? && NewRow(s, row) && Kept(s.past.floors, row)
    requires AtOrBefore(PositionOf(row), CursorOf(s.replica, s.source.id, TableOf(row)))
    ensures Missed(Next(s, EdgeWrite(row)), row)
  {
    NeverHadIt(s, row);
  }

  lemma MissedNow(w: System, row: Row)
    requires Missed(w, row)
    ensures !NeverMissed(w, row)
  {
    assert Continues(w, [w], []);
  }

  lemma MissedNext(w: System, row: Row, step: Step)
    requires Enabled(w, step) && Missed(Next(w, step), row)
    ensures !NeverMissed(w, row)
  {
    assert Continues(w, [w, Next(w, step)], [step]);
  }

  lemma LateIsMissed(s: System, row: Row)
    requires SystemOk(s) && !row.EventRow? && NewRow(s, row)
    requires !OnTime(s, row) && Kept(s.past.floors, row)
    ensures !NeverMissed(Next(s, EdgeWrite(row)), row)
  {
    var w, t := Next(s, EdgeWrite(row)), TableOf(row);
    assert TableOk(s, t);
    if AtOrBefore(PositionOf(row), s.past.links[t].cursor) {
      BelowTheCursor(s, row);
      MissedNow(w, row);
    } else {
      var page :| page in s.past.links[t].pages && AtOrBefore(PositionOf(row), page.cursor);
      var batch := PassedInFlight(s, row, page);
      MissedNext(w, row, Import(batch, 0));
    }
  }

  /** A row the edge never had before can be missed if and only if, when it is
      written, it lies at or below the replica's cursor or the end of a page
      already served (and the replica would keep it at all). */
  lemma MissedExactlyWhenLate(s: System, row: Row)
    requires Reachable(s) && Possible(s, EdgeWrite(row)) && !row.EventRow? && NewRow(s, row)
    ensures NeverMissed(Next(s, EdgeWrite(row)), row) <==> OnTime(s, row) || !Kept(s.past.floors, row)
  {
    ReachableOk(s);
    if OnTime(s, row) || !Kept(s.past.floors, row) {
      var w := Next(s, EdgeWrite(row));
      forall after, more | Continues(w, after, more)
        ensures !Missed(after[|more|], row)
      {
        if OnTime(s, row) {
          OkAfter(s, EdgeWrite(row));
          ContinuationOk(w, after, more, |more|);
          NotMissed(after[|more|], row);
        } else {
          PrunedStaysPruned(w, after, more, row, |more|);
        }
      }
    } else {
      LateIsMissed(s, row);
    }
  }

  // --------------------------------------------------------------------- for good

  /** At key k nothing has come but later versions. */
  predicate OnlyLater(before: Rows, after: Rows, k: int, p: Position) {
    k in after ==> (k in before && after[k] == before[k]) || Before(p, PositionOf(after[k]))
  }

  lemma StoringKeepsOut(db: Database, source: string, layout: Layout, row: Row, t: Table, k: int, p: Position)
    requires StoreRow(db, source, layout, row).Success? && Before(p, PositionOf(row)) && t != Event
    ensures OnlyLater(RowsOf(db, t), RowsOf(StoreRow(db, source, layout, row).value.0, t), k, p)
  {
  }

  lemma {:induction false} RowsKeepOut(q: Progress, source: string, layout: Layout, table: Table, current: Position,
                                       rows: seq<Row>, t: Table, k: int, p: Position)
    requires AtOrBefore(p, current) || t != table
    requires t != Event && ImportRows(q, source, layout, table, current, rows).Success?
    ensures OnlyLater(RowsOf(q.db, t), RowsOf(ImportRows(q, source, layout, table, current, rows).value.db, t), k, p)
    decreases |rows|
  {
    if rows != [] {
      var next := ImportRow(q, source, layout, table, current, rows[0]).value;
      if Before(current, PositionOf(rows[0])) && t == table {
        StoringKeepsOut(q.db, source, layout, rows[0], t, k, p);
      }
      RowsKeepOut(next, source, layout, table, current, rows[1..], t, k, p);
    }
  }

  lemma ImportKeepsOut(db: Database, layout: Layout, batch: Batch, expected: string, stamp: int, t: Table, k: int, p: Position)
    requires ImportBatch(db, layout, batch, expected, stamp).Success? && t != Event
    requires batch.source.Some? && AtOrBefore(p, CursorOf(db, batch.source.value.id, t))
    ensures var out := ImportBatch(db, layout, batch, expected, stamp).value.0;
            && OnlyLater(RowsOf(db, t), RowsOf(out, t), k, p)
            && AtOrBefore(p, CursorOf(out, batch.source.value.id, t))
  {
    var source, table := batch.source.value.id, batch.table.value;
    var start := Progress(Opened(db, batch, stamp), NO_POSITION, 0, 0);
    StreamImportKeepsTables(NoteSource(db, batch.source.value, stamp), source, batch.streams);
    RowsKeepOut(start, source, layout, table, CursorOf(db, source, table), batch.rows, t, k, p);
    RowsKeepCursors(start, source, layout, table, CursorOf(db, source, table), batch.rows);
  }

  lemma {:induction false} StreamImportKeepsTables(db: Database, source: string, items: seq<StreamItem>)
    ensures var out := ImportStreams(db, source, items);
            && (forall t :: RowsOf(out, t) == RowsOf(db, t)) && out.cursors == db.cursors
    decreases |items|
  {
    if items != [] {
      StreamImportKeepsTables(ImportStream(db, source, items[0]), source, items[1..]);
    }
  }

  lemma {:induction false} RowsKeepCursors(q: Progress, source: string, layout: Layout, table: Table, current: Position, rows: seq<Row>)
    requires ImportRows(q, source, layout, table, current, rows).Success?
    ensures ImportRows(q, source, layout, table, current, rows).value.db.cursors == q.db.cursors
    decreases |rows|
  {
    if rows != [] {
      RowsKeepCursors(ImportRow(q, source, layout, table, current, rows[0]).value, source, layout, table, current, rows[1..]);
    }
  }

  /** Importing one page after another; a page that fails changes nothing. */
  function ImportAll(db: Database, layout: Layout, batches: seq<Batch>, expected: string, stamp: int): Database
    decreases |batches|
  {
    if batches == [] then db
    else
      match ImportBatch(db, layout, batches[0], expected, stamp)
      case Failure(_) => ImportAll(db, layout, batches[1..], expected, stamp)
      case Success((out, _)) => ImportAll(out, layout, batches[1..], expected, stamp)
  }

  /** A row that was passed stays out for good: no pages of that source, whatever
      they hold, put it where its key is; at most a later version comes there. */
  lemma {:induction false} LeftBehindForGood(db: Database, layout: Layout, batches: seq<Batch>, expected: string, stamp: int,
                                             source: string, row: Row)
    requires !row.EventRow? && AtOrBefore(PositionOf(row), CursorOf(db, source, TableOf(row)))
    requires forall batch :: batch in batches ==> batch.source.Some? && batch.source.value.id == source
    ensures var t, out := TableOf(row), ImportAll(db, layout, batches, expected, stamp);
            OnlyLater(RowsOf(db, t), RowsOf(out, t), KeyOf(row), PositionOf(row))
    decreases |batches|
  {
    if batches != [] {
      var t, k, p := TableOf(row), KeyOf(row), PositionOf(row);
      var r := ImportBatch(db, layout, batches[0], expected, stamp);
      assert batches[0] in batches;
      if r.Success? {
        ImportKeepsOut(db, layout, batches[0], expected, stamp, t, k, p);
        LeftBehindForGood(r.value.0, layout, batches[1..], expected, stamp, source, row);
      } else {
        LeftBehindForGood(db, layout, batches[1..], expected, stamp, source, row);
      }
    }
  }

  // -------------------------------------------------------------------- a witness

  const EDGE := Source("edge", "kria")
  const SAMPLE := PlatformRow(10, Encoded([]))
  const LATE := PlatformRow(5, Encoded([]))
  const PAGE := Batch(1, SCHEMA_VERSION, Some(EDGE), Some(PlatformSample), ORIGIN, Position(10, 0), false, [], [SAMPLE])

  function FirstSystem(): System {
    System(EDGE, Layout(0, 0), EMPTY_DATABASE, EMPTY_DATABASE, "", {},
           History(map[FastSample := CursorProtocol.START, PlatformSample := CursorProtocol.START, MinuteRollup := CursorProtocol.START, Event := CursorProtocol.START],
                   Places(map[], map[]), {}, map[]))
  }

  lemma SampleIsServed(s: System)
    requires s.edge.platform == map[10 := SAMPLE] && s.source == EDGE
    ensures HistorianStore.Answers(s.edge, EDGE, PlatformSample, ORIGIN, 1, PAGE)
  {
    assert CursorProtocol.Pending(s.edge.platform, ORIGIN) == {10};
    assert PAGE.rows == [SAMPLE];
  }

  /** The late sample can be recorded now, though it is late. */
  ghost predicate CanBeLate(s: System) {
    && Possible(s, EdgeWrite(LATE)) && !OnTime(s, LATE) && NewRow(s, LATE) && Kept(s.past.floors, LATE)
    && HistorianStore.PlatformRecorded(s.edge, 5, Encoded([])) == Next(s, EdgeWrite(LATE)).edge
  }

  /** One sample was recorded and its page served. */
  ghost predicate Serving(s: System) {
    && s.source == EDGE && s.layout == Layout(0, 0) && s.edge.platform == map[10 := SAMPLE]
    && s.past.floors == map[] && PAGE in s.sent
    && PlatformSample in s.past.links && s.past.links[PlatformSample].ever == {SAMPLE}
    && PageOf(PAGE) in s.past.links[PlatformSample].pages
  }

  lemma ServingIsReachable() returns (s: System)
    ensures Reachable(s) && Serving(s) && CursorOf(s.replica, "edge", PlatformSample) == ORIGIN
  {
    var s0 := FirstSystem();
    ReachableFirst(s0);
    var s1 := Next(s0, EdgeWrite(SAMPLE));
    ReachableNext(s0, EdgeWrite(SAMPLE));
    SampleIsServed(s1);
    ReachableNext(s1, Reply(PlatformSample, ORIGIN, 1, PAGE));
    s := Next(s1, Reply(PlatformSample, ORIGIN, 1, PAGE));
  }

  lemma LateWhileServing(s: System)
    requires Serving(s)
    ensures CanBeLate(s)
  {
    assert LATE != SAMPLE;
    assert HistorianStore.FreeTime(s.edge.platform, 5) == 5;
  }

  lemma ServingAfterImport(s: System)
    requires SystemOk(s) && Serving(s) && CursorOf(s.replica, "edge", PlatformSample) == ORIGIN
    ensures Serving(Next(s, Import(PAGE, 0)))
    ensures CursorOf(Next(s, Import(PAGE, 0)).replica, "edge", PlatformSample) == Position(10, 0)
  {
    AfterImport(s, PAGE, 0);
    ImportSeesReplica(s, s, PAGE);
  }

  /** Both ways to be late are reachable from the start: a sample is recorded and
      its page served; then the clock steps back and another sample is recorded,
      below a page in flight, or, once that page has arrived, below the cursor. */
  lemma LateRowsAreReachable() returns (flying: System, passed: System)
    ensures Reachable(flying) && CanBeLate(flying)
    ensures Before(CursorOf(flying.replica, "edge", PlatformSample), PositionOf(LATE))
    ensures Reachable(passed) && CanBeLate(passed)
    ensures Before(PositionOf(LATE), CursorOf(passed.replica, "edge", PlatformSample))
  {
    flying := ServingIsReachable();
    ReachableOk(flying);
    ServingAfterImport(flying);
    LateWhileServing(flying);
    ReachableNext(flying, Import(PAGE, 0));
    passed := Next(flying, Import(PAGE, 0));
    LateWhileServing(passed);
  }
}
