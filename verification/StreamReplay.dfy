/** The one table that a replayed page can still change: the streams. */
module StreamReplay {
  import opened Wrappers
  import opened HistorianTables
  import CursorProtocol
  import opened ReplicaImport
  import opened ReplicationSystem
  import HistorianStore

  /** Field by field, the reason behind a mark. */
  predicate Says(copy: StreamRow, row: StreamRow) {
    && copy.bootId == row.bootId && copy.startedUs == row.startedUs && copy.endedUs == row.endedUs
    && copy.firstSequence == row.firstSequence && copy.lastSequence == row.lastSequence
    && copy.reason == "replica:" + row.reason
  }

  /** The stream is linked, and the replica's copy is what the page says. */
  predicate Settled(db: Database, source: string, item: StreamItem) {
    && (source, item.id) in db.links
    && db.links[(source, item.id)] in db.streams
    && Says(db.streams[db.links[(source, item.id)]], item.row)
  }

  ghost predicate Distinct(items: seq<StreamItem>) {
    forall i, j :: 0 <= i < j < |items| ==> items[i].id != items[j].id
  }

  /** A local stream that no item is linked to stays as it is. */
  lemma {:induction false} OthersKept(db: Database, source: string, items: seq<StreamItem>, local: int)
    requires local in db.streams && local < db.nextStream
    requires forall item :: item in items && (source, item.id) in db.links ==> db.links[(source, item.id)] != local
    ensures var out := ImportStreams(db, source, items);
            local in out.streams && out.streams[local] == db.streams[local]
    decreases |items|
  {
    if items != [] {
      assert items[0] in items;
      assert forall item :: item in items[1..] ==> item in items;
      OthersKept(ImportStream(db, source, items[0]), source, items[1..], local);
    }
  }

  lemma SettledItemChangesNothing(db: Database, source: string, item: StreamItem)
    requires Settled(db, source, item)
    ensures ImportStream(db, source, item) == db
  {
    var local := db.links[(source, item.id)];
    assert db.streams[local := AsReplica(item.row)] == db.streams;
  }

  /** The local stream differs after the item. */
  predicate Shows(db: Database, first: Database, source: string, id: int) {
    && (source, id) in first.links
    && var local := first.links[(source, id)];
       && local in first.streams && local < first.nextStream
       && (local in db.streams ==> db.streams[local] != first.streams[local])
  }

  lemma UnsettledItemChanges(db: Database, source: string, item: StreamItem)
    requires LinksOk(db) && StreamsFiled(db) && !Settled(db, source, item)
    ensures LinksOk(ImportStream(db, source, item)) && Shows(db, ImportStream(db, source, item), source, item.id)
  {
    ImportStreamLinks(db, source, item);
  }

  /** An item that is not settled leaves a trace that later items do not undo. */
  lemma UnsettledItemShows(db: Database, source: string, items: seq<StreamItem>)
    requires LinksOk(db) && StreamsFiled(db) && items != [] && Distinct(items) && !Settled(db, source, items[0])
    ensures ImportStreams(db, source, items).streams != db.streams
  {
    var first := ImportStream(db, source, items[0]);
    UnsettledItemChanges(db, source, items[0]);
    NotSharedWith(first, source, items);
    OthersKept(first, source, items[1..], first.links[(source, items[0].id)]);
  }

  lemma NotSharedWith(db: Database, source: string, items: seq<StreamItem>)
    requires LinksOk(db) && items != [] && Distinct(items) && (source, items[0].id) in db.links
    ensures forall other :: other in items[1..] && (source, other.id) in db.links ==>
                              db.links[(source, other.id)] != db.links[(source, items[0].id)]
  {
    forall other | other in items[1..] && (source, other.id) in db.links
      ensures db.links[(source, other.id)] != db.links[(source, items[0].id)]
    {
      var j :| 1 <= j < |items| && items[j] == other;
      assert other.id != items[0].id;
    }
  }

  /** Importing a page's streams changes nothing if and only if every one of them
      is settled. */
  lemma {:induction false} UnchangedExactlyWhenSettled(db: Database, source: string, items: seq<StreamItem>)
    requires LinksOk(db) && StreamsFiled(db) && Distinct(items)
    ensures ImportStreams(db, source, items).streams == db.streams <==> forall item :: item in items ==> Settled(db, source, item)
    decreases |items|
  {
    if items != [] {
      assert items[0] in items;
      if Settled(db, source, items[0]) {
        SettledItemChangesNothing(db, source, items[0]);
        UnchangedExactlyWhenSettled(db, source, items[1..]);
        assert forall item :: item in items <==> item == items[0] || item in items[1..];
      } else {
        UnsettledItemShows(db, source, items);
      }
    }
  }

  lemma {:induction false} RowsKeepStreams(p: Progress, source: string, layout: Layout, table: Table, current: Position, rows: seq<Row>)
    requires ImportRows(p, source, layout, table, current, rows).Success?
    ensures var q := ImportRows(p, source, layout, table, current, rows).value;
            q.db.streams == p.db.streams && q.db.links == p.db.links
    decreases |rows|
  {
    if rows != [] {
      RowsKeepStreams(ImportRow(p, source, layout, table, current, rows[0]).value, source, layout, table, current, rows[1..]);
    }
  }

  lemma StreamsAfterImport(db: Database, layout: Layout, batch: Batch, expected: string, stamp: int)
    requires ImportBatch(db, layout, batch, expected, stamp).Success?
    ensures var out := ImportBatch(db, layout, batch, expected, stamp).value.0;
            && batch.source.Some? && batch.table.Some?
            && out.streams == Opened(db, batch, stamp).streams && out.links == Opened(db, batch, stamp).links
  {
    var source, table := batch.source.value.id, batch.table.value;
    RowsKeepStreams(Progress(Opened(db, batch, stamp), NO_POSITION, 0, 0), source, layout, table,
                    CursorOf(db, source, table), batch.rows);
  }

  /** In every reachable state, a page ever sent - replayed or not - leaves the
      stream table alone if and only if it is no page of fast samples or every
      stream it lists is linked and already says what the page says. */
  lemma StreamsKeptExactlyWhenSettled(s: System, batch: Batch, stamp: int)
    requires Reachable(s) && batch in s.sent
    ensures Next(s, Import(batch, stamp)).replica.streams == s.replica.streams
            <==> batch.table != Some(FastSample) || forall item :: item in batch.streams ==> Settled(s.replica, s.source.id, item)
  {
    ReachableOk(s);
    AfterImport(s, batch, stamp);
    StreamsAfterImport(s.replica, s.layout, batch, s.pinned, stamp);
    UnchangedExactlyWhenSettled(NoteSource(s.replica, s.source, stamp), s.source.id, batch.streams);
  }

  // -------------------------------------------------------------------- a witness

  const EDGE := Source("edge", "kria")
  const OPEN := StreamRow("boot", 1, None, None, None, "start")
  const ENDED := StreamRow("boot", 1, Some(15), None, None, "start")
  const EARLY := FastRow(10, 1, None, Encoded([]))
  const LATER := FastRow(20, 1, None, Encoded([]))

  function PageFrom(after: Position, row: Row, stream: StreamRow): Batch {
    Batch(1, SCHEMA_VERSION, Some(EDGE), Some(FastSample), after, PositionOf(row), false, [StreamItem(1, stream)], [row])
  }

  const FIRST := PageFrom(ORIGIN, EARLY, OPEN)
  const SECOND := PageFrom(Position(10, 0), LATER, ENDED)

  function FirstSystem(): System {
    System(EDGE, Layout(0, 0), EMPTY_DATABASE, EMPTY_DATABASE, "", {},
           History(map[FastSample := CursorProtocol.START, PlatformSample := CursorProtocol.START,
                       MinuteRollup := CursorProtocol.START, Event := CursorProtocol.START],
                   Places(map[], map[]), {}, map[]))
  }

  /** What the witness keeps track of. */
  ghost predicate Stands(s: System, fast: Rows, stream: StreamRow, cursor: Position, sent: set<Batch>) {
    && Reachable(s) && s.source == EDGE && s.layout == Layout(0, 0)
    && s.edge.fast == fast && s.edge.streams == map[1 := stream]
    && CursorOf(s.replica, "edge", FastSample) == cursor
    && s.sent == sent && forall batch :: batch in sent ==> batch.table == Some(FastSample)
  }

  lemma StreamOpened() returns (s: System)
    ensures Stands(s, map[], OPEN, ORIGIN, {})
  {
    var first := FirstSystem();
    ReachableFirst(first);
    ReachableNext(first, EdgeStream(1, OPEN));
    s := Next(first, EdgeStream(1, OPEN));
    assert s.edge.streams == map[1 := OPEN];
  }

  lemma StreamStep(s: System, fast: Rows, stream: StreamRow, cursor: Position, sent: set<Batch>, row: StreamRow)
      returns (s': System)
    requires Stands(s, fast, stream, cursor, sent)
    ensures s'.replica == s.replica && Stands(s', fast, row, cursor, sent)
  {
    ReachableNext(s, EdgeStream(1, row));
    s' := Next(s, EdgeStream(1, row));
    assert map[1 := stream][1 := row] == map[1 := row];
  }

  lemma WriteStep(s: System, fast: Rows, stream: StreamRow, cursor: Position, sent: set<Batch>, time: int) returns (s': System)
    requires Stands(s, fast, stream, cursor, sent) && time !in fast && Before(cursor, Position(time, 0))
    requires forall batch :: batch in sent ==> Before(batch.cursor, Position(time, 0))
    ensures s'.replica == s.replica
    ensures Stands(s', fast[time := FastRow(time, 1, None, Encoded([]))], stream, cursor, sent)
  {
    var row := FastRow(time, 1, None, Encoded([]));
    ReachableOk(s);
    assert TableOk(s, FastSample);
    ReachableNext(s, EdgeWrite(row));
    s' := Next(s, EdgeWrite(row));
  }

  lemma AnswersOne(s: System, fast: Rows, stream: StreamRow, cursor: Position, sent: set<Batch>, row: Row)
    requires Stands(s, fast, stream, cursor, sent) && row.FastRow? && row.streamId == 1
    requires CursorProtocol.Pending(fast, cursor) == {row.receiveTime} && row.receiveTime in fast && fast[row.receiveTime] == row
    ensures HistorianStore.Answers(s.edge, EDGE, FastSample, cursor, 1, PageFrom(cursor, row, stream))
  {
    var page := PageFrom(cursor, row, stream);
    assert page.rows == [row] && row in page.rows;
    assert StreamItem(1, stream) in page.streams;
    assert row.receiveTime in CursorProtocol.Pending(fast, cursor);
  }

  lemma ReplyStep(s: System, fast: Rows, stream: StreamRow, cursor: Position, sent: set<Batch>, row: Row) returns (s': System)
    requires Stands(s, fast, stream, cursor, sent) && row.FastRow? && row.streamId == 1
    requires CursorProtocol.Pending(fast, cursor) == {row.receiveTime} && row.receiveTime in fast && fast[row.receiveTime] == row
    ensures s'.replica == s.replica && Stands(s', fast, stream, cursor, sent + {PageFrom(cursor, row, stream)})
  {
    var reply := Reply(FastSample, cursor, 1, PageFrom(cursor, row, stream));
    AnswersOne(s, fast, stream, cursor, sent, row);
    ReachableOk(s);
    assert TableOk(s, FastSample);
    ReachableNext(s, reply);
    s' := Next(s, reply);
  }

  /** A page of one stream settles that stream. */
  lemma ImportSettles(s: System, batch: Batch)
    requires SystemOk(s) && batch in s.sent && batch.table == Some(FastSample) && |batch.streams| == 1
    ensures Settled(Next(s, Import(batch, 0)).replica, s.source.id, batch.streams[0])
  {
    AfterImport(s, batch, 0);
    StreamsAfterImport(s.replica, s.layout, batch, s.pinned, 0);
    var noted := NoteSource(s.replica, s.source, 0);
    assert ImportStreams(noted, s.source.id, batch.streams) == ImportStream(noted, s.source.id, batch.streams[0]);
  }

  lemma ImportStep(s: System, fast: Rows, stream: StreamRow, cursor: Position, sent: set<Batch>, batch: Batch)
      returns (s': System)
    requires Stands(s, fast, stream, cursor, sent) && batch in sent && |batch.streams| == 1
    ensures s' == Next(s, Import(batch, 0)) && Stands(s', fast, stream, Later(cursor, batch.cursor), sent)
    ensures Settled(s'.replica, "edge", batch.streams[0])
  {
    ReachableOk(s);
    AfterImport(s, batch, 0);
    ImportSettles(s, batch);
    ReachableNext(s, Import(batch, 0));
    s' := Next(s, Import(batch, 0));
  }

  lemma OnePending(fast: Rows, cursor: Position, row: Row)
    requires row.FastRow? && Before(cursor, PositionOf(row))
    requires forall k :: k in fast ==> fast[k].FastRow? && KeyOf(fast[k]) == k && AtOrBefore(Position(k, 0), cursor)
    ensures CursorProtocol.Pending(fast[row.receiveTime := row], cursor) == {row.receiveTime}
  {
    var pending := CursorProtocol.Pending(fast[row.receiveTime := row], cursor);
    forall k
      ensures k in pending <==> k == row.receiveTime
    {
      if k in fast && k != row.receiveTime {
        assert PositionOf(fast[k]) == Position(k, 0);
      }
    }
  }

  /** One sample more is recorded, served and imported. */
  lemma SampleTravels(s: System, fast: Rows, stream: StreamRow, cursor: Position, sent: set<Batch>, time: int)
      returns (s': System)
    requires Stands(s, fast, stream, cursor, sent) && Before(cursor, Position(time, 0))
    requires forall batch :: batch in sent ==> Before(batch.cursor, Position(time, 0))
    requires forall k :: k in fast ==> k < time && fast[k].FastRow? && KeyOf(fast[k]) == k && AtOrBefore(Position(k, 0), cursor)
    ensures var row := FastRow(time, 1, None, Encoded([])); var page := PageFrom(cursor, row, stream);
            && Stands(s', fast[time := row], stream, Position(time, 0), sent + {page})
            && Settled(s'.replica, "edge", StreamItem(1, stream))
  {
    var row := FastRow(time, 1, None, Encoded([]));
    var w := WriteStep(s, fast, stream, cursor, sent, time);
    OnePending(fast, cursor, row);
    var p := ReplyStep(w, fast[time := row], stream, cursor, sent, row);
    s' := ImportStep(p, fast[time := row], stream, cursor, sent + {PageFrom(cursor, row, stream)}, PageFrom(cursor, row, stream));
  }

  /** A run leads here: a sample travels to the replica while its stream is open,
      the stream ends, a later sample travels; the first page, arriving once
      more, then takes the stream's end time back. */
  lemma OldPageReopensStream() returns (s: System)
    ensures Reachable(s) && Enabled(s, Import(FIRST, 0)) && AtOrBefore(FIRST.cursor, CursorOf(s.replica, "edge", FastSample))
    ensures Settled(s.replica, "edge", StreamItem(1, ENDED))
    ensures Settled(Next(s, Import(FIRST, 0)).replica, "edge", StreamItem(1, OPEN))
  {
    var s1 := StreamOpened();
    var s2 := SampleTravels(s1, map[], OPEN, ORIGIN, {}, 10);
    var s3 := StreamStep(s2, map[][10 := EARLY], OPEN, Position(10, 0), {} + {FIRST}, ENDED);
    s := SampleTravels(s3, map[][10 := EARLY], ENDED, Position(10, 0), {} + {FIRST}, 20);
    var again := ImportStep(s, map[][10 := EARLY][20 := LATER], ENDED, Position(20, 0), {} + {FIRST} + {SECOND}, FIRST);
  }
}
