/** What `import_replication_batch` commits, as a function of the database, the
    batch and the clock. */
module ReplicaImport {
  import opened Wrappers
  import opened HistorianTables

  const SCHEMA_VERSION := 2

  datatype Error =
    | UnsupportedProtocol
    | SchemaMismatch
    | TableNotAllowed
    | IdentityMissing
    | IdentityIncomplete
    | IdentityMismatch
    | CursorInvalid
    | RowInvalid
    | RowsNotOrdered
    | PayloadInvalid
    | UnknownStream
    | TimestampCollision
    | DetailsInvalid
    | CursorNotFinalRow

  datatype Report = Report(imported: nat, skipped: nat, cursor: Position)

  datatype Progress = Progress(db: Database, previous: Position, imported: nat, skipped: nat)

  function NoteSource(db: Database, source: Source, stamp: int): Database {
    var firstSeen := if source.id in db.sources then db.sources[source.id].firstSeenUs else stamp;
    db.(sources := db.sources[source.id := SourceRow(source.hostname, SCHEMA_VERSION, firstSeen, stamp)])
  }

  function AsReplica(row: StreamRow): StreamRow {
    row.(reason := "replica:" + row.reason)
  }

  /** A known remote stream is rewritten in place; an unknown one gets the next
      local id. */
  function ImportStream(db: Database, source: string, item: StreamItem): Database {
    if (source, item.id) in db.links then
      db.(streams := db.streams[db.links[(source, item.id)] := AsReplica(item.row)])
    else
      db.(streams := db.streams[db.nextStream := AsReplica(item.row)],
          links := db.links[(source, item.id) := db.nextStream],
          nextStream := db.nextStream + 1)
  }

  function ImportStreams(db: Database, source: string, items: seq<StreamItem>): Database
    decreases |items|
  {
    if items == [] then db else ImportStreams(ImportStream(db, source, items[0]), source, items[1..])
  }

  function StoreFast(db: Database, source: string, layout: Layout, row: Row): Result<(Database, bool), Error>
    requires row.FastRow?
  {
    if !Decodes(layout, row) then Failure(PayloadInvalid)
    else if (source, row.streamId) !in db.links then Failure(UnknownStream)
    else if row.receiveTime !in db.fast then
      Success((db.(fast := db.fast[row.receiveTime := row.(streamId := db.links[(source, row.streamId)])]), true))
    else
      var existing := db.fast[row.receiveTime];
      if existing.FastRow? && existing.sequence == row.sequence && existing.payload == row.payload
      then Success((db, false))
      else Failure(TimestampCollision)
  }

  function StorePlatform(db: Database, layout: Layout, row: Row): Result<(Database, bool), Error>
    requires row.PlatformRow?
  {
    if !Decodes(layout, row) then Failure(PayloadInvalid)
    else if row.receiveTime !in db.platform then
      Success((db.(platform := db.platform[row.receiveTime := row]), true))
    else
      var existing := db.platform[row.receiveTime];
      if existing.PlatformRow? && existing.payload == row.payload
      then Success((db, false))
      else Failure(TimestampCollision)
  }

  /** Store one row that lies beyond the cursor; the flag says whether it counts
      as imported rather than skipped. */
  function StoreRow(db: Database, source: string, layout: Layout, row: Row): Result<(Database, bool), Error> {
    match row
    case FastRow(_, _, _, _) => StoreFast(db, source, layout, row)
    case PlatformRow(_, _) => StorePlatform(db, layout, row)
    case RollupRow(bucket, _, _, _) =>
      if !Decodes(layout, row) then Failure(PayloadInvalid)
      else Success((db.(rollup := db.rollup[bucket := row]), true))
    case EventRow(_, body) =>
      if !Decodes(layout, row) then Failure(DetailsInvalid)
      else Success((db.(event := db.event[db.nextEvent := EventRow(db.nextEvent, body)],
                        nextEvent := db.nextEvent + 1), true))
  }

  function ImportRow(p: Progress, source: string, layout: Layout, table: Table, current: Position, row: Row)
    : Result<Progress, Error>
  {
    if TableOf(row) != table then Failure(RowInvalid)
    else if AtOrBefore(PositionOf(row), p.previous) then Failure(RowsNotOrdered)
    else if AtOrBefore(PositionOf(row), current) then
      Success(p.(previous := PositionOf(row), skipped := p.skipped + 1))
    else
      match StoreRow(p.db, source, layout, row)
      case Failure(e) => Failure(e)
      case Success((db, isNew)) =>
        Success(Progress(db, PositionOf(row),
                         p.imported + (if isNew then 1 else 0),
                         p.skipped + (if isNew then 0 else 1)))
  }

  function ImportRows(p: Progress, source: string, layout: Layout, table: Table, current: Position, rows: seq<Row>)
    : Result<Progress, Error>
    decreases |rows|
  {
    if rows == [] then Success(p)
    else
      match ImportRow(p, source, layout, table, current, rows[0])
      case Failure(e) => Failure(e)
      case Success(q) => ImportRows(q, source, layout, table, current, rows[1..])
  }

  const NO_POSITION := Position(-1, -1)

  /** The checks made before the transaction begins. */
  function Refusal(batch: Batch, expectedSource: string): Option<Error> {
    if batch.version != 1 then Some(UnsupportedProtocol)
    else if batch.schema != SCHEMA_VERSION then Some(SchemaMismatch)
    else if batch.table.None? then Some(TableNotAllowed)
    else if batch.source.None? then Some(IdentityMissing)
    else if batch.source.value.id == "" || batch.source.value.hostname == "" then Some(IdentityIncomplete)
    else if expectedSource != "" && batch.source.value.id != expectedSource then Some(IdentityMismatch)
    else if batch.cursor.key < 0 || batch.cursor.tie < 0 then Some(CursorInvalid)
    else None
  }

  /** The database before the first row is looked at. */
  function Opened(db: Database, batch: Batch, stamp: int): Database
    requires batch.source.Some? && batch.table.Some?
  {
    var noted := NoteSource(db, batch.source.value, stamp);
    if batch.table.value == FastSample then ImportStreams(noted, batch.source.value.id, batch.streams) else noted
  }

  function SetCursor(db: Database, source: string, table: Table, position: Position, stamp: int): Database {
    db.(cursors := db.cursors[(source, table) := CursorRow(position, stamp)])
  }

  function ImportBatch(db: Database, layout: Layout, batch: Batch, expectedSource: string, stamp: int)
    : Result<(Database, Report), Error>
  {
    match Refusal(batch, expectedSource)
    case Some(e) => Failure(e)
    case None =>
      var source, table := batch.source.value.id, batch.table.value;
      var current := CursorOf(db, source, table);
      var start := Progress(Opened(db, batch, stamp), NO_POSITION, 0, 0);
      match ImportRows(start, source, layout, table, current, batch.rows)
      case Failure(e) => Failure(e)
      case Success(p) =>
        if batch.rows != [] && batch.cursor != p.previous then Failure(CursorNotFinalRow)
        else
          var cursor := Later(current, batch.cursor);
          Success((SetCursor(p.db, source, table, cursor, stamp), Report(p.imported, p.skipped, cursor)))
  }
}
