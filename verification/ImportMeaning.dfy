/** When an import succeeds, and what it then leaves behind, in plain terms. */
module ImportMeaning {
  import opened Wrappers
  import opened HistorianTables
  import opened ReplicaImport

  // ------------------------------------------------------------- which rows can be stored

  /** There is a row at this key already. */
  predicate IsThere(db: Database, row: Row) {
    match row
    case FastRow(time, _, _, _) => time in db.fast
    case PlatformRow(time, _) => time in db.platform
    case RollupRow(_, _, _, _) => false
    case EventRow(_, _) => false
  }

  /** The payload decodes with the number of entries the catalog gives, and a sample that
      is there already is the same one. */
  predicate IsSound(db: Database, layout: Layout, row: Row) {
    match row
    case FastRow(time, _, sequence, payload) =>
      && payload.Encoded? && |payload.entries| == layout.fastEntries
      && (time in db.fast ==> db.fast[time].FastRow? && db.fast[time].sequence == sequence && db.fast[time].payload == payload)
    case PlatformRow(time, payload) =>
      && payload.Encoded? && |payload.entries| == layout.platformEntries
      && (time in db.platform ==> db.platform[time].PlatformRow? && db.platform[time].payload == payload)
    case RollupRow(_, _, payload, _) => payload.Encoded?
    case EventRow(_, body) => body.details.ObjectText?
  }

  /** ... and its stream, if it has one, is linked. */
  predicate CanStore(db: Database, source: string, layout: Layout, row: Row) {
    IsSound(db, layout, row) && (row.FastRow? ==> (source, row.streamId) in db.links)
  }

  lemma StoresExactly(db: Database, source: string, layout: Layout, row: Row)
    ensures StoreRow(db, source, layout, row).Success? <==> CanStore(db, source, layout, row)
    ensures StoreRow(db, source, layout, row).Success? ==>
              (StoreRow(db, source, layout, row).value.1 <==> !IsThere(db, row))
  {}

  /** The positions rise from `previous` on. */
  predicate Rises(previous: Position, rows: seq<Row>)
    decreases |rows|
  {
    rows == [] || (Before(previous, PositionOf(rows[0])) && Rises(PositionOf(rows[0]), rows[1..]))
  }

  lemma {:induction false} RisesAbove(previous: Position, rows: seq<Row>, i: nat)
    requires Rises(previous, rows) && i < |rows|
    ensures Before(previous, PositionOf(rows[i]))
    decreases |rows|
  {
    if i > 0 { RisesAbove(PositionOf(rows[0]), rows[1..], i - 1); }
  }

  /** It is one chain: each position lies above all those before it. */
  lemma {:induction false} RisesExactly(previous: Position, rows: seq<Row>)
    ensures Rises(previous, rows) <==>
              && (forall i :: 0 <= i < |rows| ==> Before(previous, PositionOf(rows[i])))
              && (forall i, j :: 0 <= i < j < |rows| ==> Before(PositionOf(rows[i]), PositionOf(rows[j])))
    decreases |rows|
  {
    if rows != [] {
      RisesExactly(PositionOf(rows[0]), rows[1..]);
      assert forall i :: 0 < i < |rows| ==> rows[i] == rows[1..][i - 1];
    }
  }

  /** Storing one row does not matter to a row of the same table further on. */
  lemma StoringLeavesOthers(db: Database, source: string, layout: Layout, row: Row, other: Row)
    requires StoreRow(db, source, layout, row).Success?
    requires TableOf(row) == TableOf(other) && Before(PositionOf(row), PositionOf(other))
    ensures var stored := StoreRow(db, source, layout, row).value.0;
            && (CanStore(stored, source, layout, other) <==> CanStore(db, source, layout, other))
            && (IsThere(stored, other) <==> IsThere(db, other))
  {
    match row
    case FastRow(time, _, _, _) =>
      assert StoreFast(db, source, layout, row).value.0.links == db.links;
    case PlatformRow(_, _) =>
    case RollupRow(_, _, _, _) =>
    case EventRow(_, _) =>
  }

  /** Every row beyond the cursor can be stored. */
  predicate AllCanBeStored(db: Database, source: string, layout: Layout, current: Position, rows: seq<Row>) {
    forall i :: 0 <= i < |rows| && Before(current, PositionOf(rows[i])) ==> CanStore(db, source, layout, rows[i])
  }

  predicate AllOf(table: Table, rows: seq<Row>) {
    forall i :: 0 <= i < |rows| ==> TableOf(rows[i]) == table
  }

  /** How many of the rows beyond the cursor are not there yet. */
  function NewAmong(db: Database, current: Position, rows: seq<Row>): nat
    decreases |rows|
  {
    if rows == [] then 0
    else (if Before(current, PositionOf(rows[0])) && !IsThere(db, rows[0]) then 1 else 0) + NewAmong(db, current, rows[1..])
  }

  lemma {:induction false} NewStays(db: Database, stored: Database, current: Position, rows: seq<Row>)
    requires forall i :: 0 <= i < |rows| ==> (IsThere(stored, rows[i]) <==> IsThere(db, rows[i]))
    ensures NewAmong(stored, current, rows) == NewAmong(db, current, rows)
    decreases |rows|
  {
    if rows != [] { NewStays(db, stored, current, rows[1..]); }
  }

  /** The next row was stored: nothing changes for the rest. */
  lemma RestUnaffected(db: Database, source: string, layout: Layout, current: Position, row: Row, rest: seq<Row>)
    requires StoreRow(db, source, layout, row).Success? && AllOf(TableOf(row), rest) && Rises(PositionOf(row), rest)
    ensures var stored := StoreRow(db, source, layout, row).value.0;
            && (AllCanBeStored(stored, source, layout, current, rest) <==> AllCanBeStored(db, source, layout, current, rest))
            && NewAmong(stored, current, rest) == NewAmong(db, current, rest)
  {
    var stored := StoreRow(db, source, layout, row).value.0;
    forall i | 0 <= i < |rest|
      ensures CanStore(stored, source, layout, rest[i]) <==> CanStore(db, source, layout, rest[i])
      ensures IsThere(stored, rest[i]) <==> IsThere(db, rest[i])
    {
      RisesAbove(PositionOf(row), rest, i);
      StoringLeavesOthers(db, source, layout, row, rest[i]);
    }
    NewStays(db, stored, current, rest);
  }

  predicate RowsFit(p: Progress, source: string, layout: Layout, table: Table, current: Position, rows: seq<Row>) {
    AllOf(table, rows) && Rises(p.previous, rows) && AllCanBeStored(p.db, source, layout, current, rows)
  }

  lemma FirstOf(p: Progress, source: string, layout: Layout, table: Table, current: Position, rows: seq<Row>)
    requires rows != []
    ensures ImportRow(p, source, layout, table, current, rows[0]).Success? <==>
              && TableOf(rows[0]) == table && Before(p.previous, PositionOf(rows[0]))
              && (Before(current, PositionOf(rows[0])) ==> CanStore(p.db, source, layout, rows[0]))
    ensures ImportRow(p, source, layout, table, current, rows[0]).Success? ==>
              var q := ImportRow(p, source, layout, table, current, rows[0]).value;
              && q.previous == PositionOf(rows[0])
              && q.imported + q.skipped == p.imported + p.skipped + 1
              && q.imported == p.imported + (if Before(current, PositionOf(rows[0])) && !IsThere(p.db, rows[0]) then 1 else 0)
              && q.db == if Before(current, PositionOf(rows[0])) then StoreRow(p.db, source, layout, rows[0]).value.0 else p.db
  {
    StoresExactly(p.db, source, layout, rows[0]);
  }

  lemma FitsFromFirst(p: Progress, source: string, layout: Layout, table: Table, current: Position, rows: seq<Row>)
    requires rows != []
    ensures RowsFit(p, source, layout, table, current, rows) <==>
              && TableOf(rows[0]) == table && Before(p.previous, PositionOf(rows[0]))
              && (Before(current, PositionOf(rows[0])) ==> CanStore(p.db, source, layout, rows[0]))
              && RowsFit(p.(previous := PositionOf(rows[0])), source, layout, table, current, rows[1..])
  {
    assert forall i :: 0 < i < |rows| ==> rows[i] == rows[1..][i - 1];
  }

  /** The rows are taken exactly when they all fit, and are counted as they are: new
      ones beyond the cursor as imported, all others as skipped. */
  lemma {:induction false} RowsImportExactly(p: Progress, source: string, layout: Layout, table: Table, current: Position,
                                             rows: seq<Row>)
    ensures ImportRows(p, source, layout, table, current, rows).Success? <==> RowsFit(p, source, layout, table, current, rows)
    ensures ImportRows(p, source, layout, table, current, rows).Success? ==>
              var q := ImportRows(p, source, layout, table, current, rows).value;
              && q.imported == p.imported + NewAmong(p.db, current, rows)
              && q.imported + q.skipped == p.imported + p.skipped + |rows|
              && q.previous == (if rows == [] then p.previous else PositionOf(rows[|rows| - 1]))
    decreases |rows|
  {
    if rows != [] {
      FirstOf(p, source, layout, table, current, rows);
      FitsFromFirst(p, source, layout, table, current, rows);
      var first := ImportRow(p, source, layout, table, current, rows[0]);
      if first.Success? {
        RowsImportExactly(first.value, source, layout, table, current, rows[1..]);
        if Before(current, PositionOf(rows[0])) && AllOf(table, rows[1..]) && Rises(PositionOf(rows[0]), rows[1..]) {
          RestUnaffected(p.db, source, layout, current, rows[0], rows[1..]);
        }
      }
    }
  }

  // ------------------------------------------------------------------ the whole page

  /** What the page says of itself is in order. */
  predicate InOrder(batch: Batch, expectedSource: string) {
    && batch.version == 1 && batch.schema == 2 && batch.table.Some? && batch.source.Some?
    && batch.source.value.id != "" && batch.source.value.hostname != ""
    && (expectedSource == "" || batch.source.value.id == expectedSource)
    && batch.cursor.key >= 0 && batch.cursor.tie >= 0
  }

  /** The stream is linked, or will be by this page. */
  predicate WillBeLinked(db: Database, batch: Batch, id: int)
    requires batch.source.Some? && batch.table.Some?
  {
    || (batch.source.value.id, id) in db.links
    || (batch.table.value == FastSample && exists i :: 0 <= i < |batch.streams| && batch.streams[i].id == id)
  }

  /** Its rows are of its table, rise strictly, end at its cursor, and each that lies
      beyond the stored cursor decodes, belongs to a linked stream and does not
      contradict a sample that is there. */
  predicate RowsInOrder(db: Database, layout: Layout, batch: Batch)
    requires batch.source.Some? && batch.table.Some?
  {
    var source, table := batch.source.value.id, batch.table.value;
    var current := CursorOf(db, source, table);
    && AllOf(table, batch.rows) && Rises(Position(-1, -1), batch.rows)
    && (batch.rows != [] ==> batch.cursor == PositionOf(batch.rows[|batch.rows| - 1]))
    && forall i :: 0 <= i < |batch.rows| && Before(current, PositionOf(batch.rows[i])) ==>
                     && IsSound(db, layout, batch.rows[i])
                     && (batch.rows[i].FastRow? ==> WillBeLinked(db, batch, batch.rows[i].streamId))
  }

  lemma {:induction false} LinkedAfter(db: Database, source: string, items: seq<StreamItem>, id: int)
    ensures (source, id) in ImportStreams(db, source, items).links <==>
              (source, id) in db.links || exists i :: 0 <= i < |items| && items[i].id == id
    decreases |items|
  {
    if items != [] {
      LinkedAfter(ImportStream(db, source, items[0]), source, items[1..], id);
      if i :| 0 <= i < |items| && items[i].id == id {
        if i > 0 { assert items[1..][i - 1].id == id; }
      }
      if i :| 0 <= i < |items[1..]| && items[1..][i].id == id {
        assert items[i + 1].id == id;
      }
    }
  }

  lemma {:induction false} StreamsKeepTables(db: Database, source: string, items: seq<StreamItem>)
    ensures var out := ImportStreams(db, source, items);
            && out.fast == db.fast && out.platform == db.platform && out.rollup == db.rollup && out.event == db.event
            && out.nextEvent == db.nextEvent && out.sources == db.sources && out.cursors == db.cursors
    decreases |items|
  {
    if items != [] { StreamsKeepTables(ImportStream(db, source, items[0]), source, items[1..]); }
  }

  /** Before the first row: the source is noted and, for fast samples, the streams. */
  lemma OpenedIs(db: Database, batch: Batch, stamp: int)
    requires batch.source.Some? && batch.table.Some?
    ensures var out, id := Opened(db, batch, stamp), batch.source.value.id;
            && out.fast == db.fast && out.platform == db.platform && out.rollup == db.rollup && out.event == db.event
            && out.nextEvent == db.nextEvent && out.cursors == db.cursors
            && out.sources == db.sources[id := SourceRow(batch.source.value.hostname, 2,
                                                          if id in db.sources then db.sources[id].firstSeenUs else stamp, stamp)]
            && (batch.table.value != FastSample ==>
                  out.streams == db.streams && out.links == db.links && out.nextStream == db.nextStream)
    ensures forall id :: (batch.source.value.id, id) in Opened(db, batch, stamp).links <==> WillBeLinked(db, batch, id)
  {
    var noted := NoteSource(db, batch.source.value, stamp);
    StreamsKeepTables(noted, batch.source.value.id, batch.streams);
    forall id
      ensures (batch.source.value.id, id) in Opened(db, batch, stamp).links <==> WillBeLinked(db, batch, id)
    {
      LinkedAfter(noted, batch.source.value.id, batch.streams, id);
    }
  }

  lemma RefusedOutOfOrder(batch: Batch, expectedSource: string)
    ensures Refusal(batch, expectedSource) == None <==> InOrder(batch, expectedSource)
  {}

  lemma OpenedFits(db: Database, layout: Layout, batch: Batch, stamp: int)
    requires batch.source.Some? && batch.table.Some?
    ensures var source, table := batch.source.value.id, batch.table.value;
            var start := Progress(Opened(db, batch, stamp), NO_POSITION, 0, 0);
            RowsFit(start, source, layout, table, CursorOf(db, source, table), batch.rows) <==>
              && AllOf(table, batch.rows) && Rises(Position(-1, -1), batch.rows)
              && forall i :: 0 <= i < |batch.rows| && Before(CursorOf(db, source, table), PositionOf(batch.rows[i])) ==>
                               && IsSound(db, layout, batch.rows[i])
                               && (batch.rows[i].FastRow? ==> WillBeLinked(db, batch, batch.rows[i].streamId))
  {
    OpenedIs(db, batch, stamp);
    var open := Opened(db, batch, stamp);
    forall i | 0 <= i < |batch.rows|
      ensures CanStore(open, batch.source.value.id, layout, batch.rows[i]) <==>
                && IsSound(db, layout, batch.rows[i])
                && (batch.rows[i].FastRow? ==> WillBeLinked(db, batch, batch.rows[i].streamId))
    {
      assert IsSound(open, layout, batch.rows[i]) <==> IsSound(db, layout, batch.rows[i]);
    }
  }

  /** An import succeeds, for any database and any page, if and only if the page is in
      order and so are its rows. */
  lemma ImportSucceedsExactly(db: Database, layout: Layout, batch: Batch, expectedSource: string, stamp: int)
    ensures ImportBatch(db, layout, batch, expectedSource, stamp).Success? <==>
              InOrder(batch, expectedSource) && RowsInOrder(db, layout, batch)
  {
    RefusedOutOfOrder(batch, expectedSource);
    if InOrder(batch, expectedSource) {
      var source, table := batch.source.value.id, batch.table.value;
      OpenedFits(db, layout, batch, stamp);
      RowsImportExactly(Progress(Opened(db, batch, stamp), NO_POSITION, 0, 0), source, layout, table,
                        CursorOf(db, source, table), batch.rows);
    }
  }

  lemma {:induction false} RowsKeepTheRest(p: Progress, source: string, layout: Layout, table: Table, current: Position, rows: seq<Row>)
    requires ImportRows(p, source, layout, table, current, rows).Success?
    ensures var out := ImportRows(p, source, layout, table, current, rows).value.db;
            && out.sources == p.db.sources && out.cursors == p.db.cursors
            && out.streams == p.db.streams && out.links == p.db.links && out.nextStream == p.db.nextStream
            && (table != FastSample ==> out.fast == p.db.fast)
            && (table != PlatformSample ==> out.platform == p.db.platform)
            && (table != MinuteRollup ==> out.rollup == p.db.rollup)
            && (table != Event ==> out.event == p.db.event && out.nextEvent == p.db.nextEvent)
    decreases |rows|
  {
    if rows != [] {
      RowsKeepTheRest(ImportRow(p, source, layout, table, current, rows[0]).value, source, layout, table, current, rows[1..]);
    }
  }

  lemma NewInOpened(db: Database, batch: Batch, stamp: int, current: Position)
    requires batch.source.Some? && batch.table.Some?
    ensures NewAmong(Opened(db, batch, stamp), current, batch.rows) == NewAmong(db, current, batch.rows)
  {
    OpenedIs(db, batch, stamp);
    NewStays(db, Opened(db, batch, stamp), current, batch.rows);
  }

  /** Afterwards the source is known with its first sight kept and its last one now, the
      table's own cursor is the later of the two, stamped now, no other cursor and no
      other table has changed, and the report counts every row once. */
  lemma ImportLeaves(db: Database, layout: Layout, batch: Batch, expectedSource: string, stamp: int)
    requires ImportBatch(db, layout, batch, expectedSource, stamp).Success?
    ensures batch.source.Some? && batch.table.Some?
    ensures var (out, report) := ImportBatch(db, layout, batch, expectedSource, stamp).value;
            var id, table := batch.source.value.id, batch.table.value;
            var current := if (id, table) in db.cursors then db.cursors[(id, table)].position else Position(0, 0);
            var cursor := if Before(current, batch.cursor) then batch.cursor else current;
            && report.cursor == cursor && report.imported == NewAmong(db, current, batch.rows)
            && report.imported + report.skipped == |batch.rows|
            && out.cursors == db.cursors[(id, table) := CursorRow(cursor, stamp)]
            && out.sources == db.sources[id := SourceRow(batch.source.value.hostname, 2,
                                                          if id in db.sources then db.sources[id].firstSeenUs else stamp, stamp)]
            && (table != FastSample ==> out.fast == db.fast && out.streams == db.streams && out.links == db.links)
            && (table != PlatformSample ==> out.platform == db.platform)
            && (table != MinuteRollup ==> out.rollup == db.rollup)
            && (table != Event ==> out.event == db.event && out.nextEvent == db.nextEvent)
  {
    RefusedOutOfOrder(batch, expectedSource);
    var source, table := batch.source.value.id, batch.table.value;
    var current := CursorOf(db, source, table);
    var start := Progress(Opened(db, batch, stamp), NO_POSITION, 0, 0);
    OpenedIs(db, batch, stamp);
    NewInOpened(db, batch, stamp, current);
    RowsImportExactly(start, source, layout, table, current, batch.rows);
    RowsKeepTheRest(start, source, layout, table, current, batch.rows);
  }

  /** Why a row beyond the cursor is refused. */
  lemma RowRefusedFor(db: Database, source: string, layout: Layout, row: Row)
    requires !CanStore(db, source, layout, row)
    ensures var decodes := match row
                           case FastRow(_, _, _, payload) => payload.Encoded? && |payload.entries| == layout.fastEntries
                           case PlatformRow(_, payload) => payload.Encoded? && |payload.entries| == layout.platformEntries
                           case RollupRow(_, _, payload, _) => payload.Encoded?
                           case EventRow(_, body) => body.details.ObjectText?;
            StoreRow(db, source, layout, row)
            == Failure(if !decodes then (if row.EventRow? then DetailsInvalid else PayloadInvalid)
                       else if row.FastRow? && (source, row.streamId) !in db.links then UnknownStream
                       else TimestampCollision)
  {}

  /** Why a page is refused before its rows are looked at, the first reason first. */
  lemma PageRefusedFor(db: Database, layout: Layout, batch: Batch, expectedSource: string, stamp: int)
    requires !InOrder(batch, expectedSource)
    ensures ImportBatch(db, layout, batch, expectedSource, stamp)
            == Failure(if batch.version != 1 then UnsupportedProtocol
                       else if batch.schema != 2 then SchemaMismatch
                       else if batch.table.None? then TableNotAllowed
                       else if batch.source.None? then IdentityMissing
                       else if batch.source.value.id == "" || batch.source.value.hostname == "" then IdentityIncomplete
                       else if expectedSource != "" && batch.source.value.id != expectedSource then IdentityMismatch
                       else CursorInvalid)
  {}
}
