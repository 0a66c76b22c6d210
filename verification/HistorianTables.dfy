/** The historian's SQLite tables as values: rows, positions, databases and
    the pages that one historian serves to another. */
module HistorianTables {
  import opened Wrappers

  datatype Table = FastSample | PlatformSample | MinuteRollup | Event

  /** The two-part replication cursor; SQL and Python both compare it
      lexicographically. */
  datatype Position = Position(key: int, tie: int)

  const ORIGIN := Position(0, 0)

  predicate Before(p: Position, q: Position) {
    p.key < q.key || (p.key == q.key && p.tie < q.tie)
  }

  predicate AtOrBefore(p: Position, q: Position) {
    !Before(q, p)
  }

  function Later(p: Position, q: Position): Position {
    if Before(p, q) then q else p
  }

  /** A compressed payload.  The compression and JSON layers are injective;
      what the import can observe is the number of entries, or that the bytes
      do not decode at all. */
  datatype Blob = Encoded(entries: seq<string>) | Corrupt(raw: string)

  datatype Details = ObjectText(text: string) | OtherText(text: string)

  datatype EventBody = EventBody(
    timeUs: int,
    sourceTimeUs: Option<int>,
    severity: string,
    key: string,
    summary: string,
    details: Details)

  datatype Row =
    | FastRow(receiveTime: int, streamId: int, sequence: Option<int>, payload: Blob)
    | PlatformRow(receiveTime: int, payload: Blob)
    | RollupRow(bucket: int, sampleCount: int, payload: Blob, updated: int)
    | EventRow(id: int, body: EventBody)

  type Rows = map<int, Row>

  function TableOf(row: Row): Table {
    match row
    case FastRow(_, _, _, _) => FastSample
    case PlatformRow(_, _) => PlatformSample
    case RollupRow(_, _, _, _) => MinuteRollup
    case EventRow(_, _) => Event
  }

  /** The primary key. */
  function KeyOf(row: Row): int {
    match row
    case FastRow(t, _, _, _) => t
    case PlatformRow(t, _) => t
    case RollupRow(b, _, _, _) => b
    case EventRow(i, _) => i
  }

  /** `_replication_position`. */
  function PositionOf(row: Row): Position {
    match row
    case FastRow(t, _, _, _) => Position(t, 0)
    case PlatformRow(t, _) => Position(t, 0)
    case RollupRow(b, _, _, u) => Position(u, b)
    case EventRow(i, _) => Position(i, 0)
  }

  /** The column that retention compares with its cutoff. */
  function AgeOf(row: Row): int {
    match row
    case FastRow(t, _, _, _) => t
    case PlatformRow(t, _) => t
    case RollupRow(b, _, _, _) => b
    case EventRow(_, body) => body.timeUs
  }

  datatype StreamRow = StreamRow(
    bootId: string,
    startedUs: int,
    endedUs: Option<int>,
    firstSequence: Option<int>,
    lastSequence: Option<int>,
    reason: string)

  datatype StreamItem = StreamItem(id: int, row: StreamRow)

  datatype Source = Source(id: string, hostname: string)

  datatype SourceRow = SourceRow(hostname: string, schema: int, firstSeenUs: int, lastSeenUs: int)

  datatype CursorRow = CursorRow(position: Position, updatedUs: int)

  datatype Database = Database(
    streams: map<int, StreamRow>,
    nextStream: int,
    fast: Rows,
    platform: Rows,
    rollup: Rows,
    event: Rows,
    nextEvent: int,
    sources: map<string, SourceRow>,
    cursors: map<(string, Table), CursorRow>,
    links: map<(string, int), int>)

  const EMPTY_DATABASE := Database(map[], 1, map[], map[], map[], map[], 1, map[], map[], map[])

  function RowsOf(db: Database, table: Table): Rows {
    match table
    case FastSample => db.fast
    case PlatformSample => db.platform
    case MinuteRollup => db.rollup
    case Event => db.event
  }

  function WithRows(db: Database, table: Table, rows: Rows): Database {
    match table
    case FastSample => db.(fast := rows)
    case PlatformSample => db.(platform := rows)
    case MinuteRollup => db.(rollup := rows)
    case Event => db.(event := rows)
  }

  /** `replication_cursor`: a table never replicated stands at the origin. */
  function CursorOf(db: Database, source: string, table: Table): Position {
    if (source, table) in db.cursors then db.cursors[(source, table)].position else ORIGIN
  }

  /** Rows are filed under their own key, and no two share a position. */
  predicate Filed(table: Table, rows: Rows) {
    && (forall k :: k in rows ==> KeyOf(rows[k]) == k && TableOf(rows[k]) == table)
  }

  lemma PositionsDiffer(table: Table, rows: Rows, j: int, k: int)
    requires Filed(table, rows) && j in rows && k in rows
    ensures PositionOf(rows[j]) == PositionOf(rows[k]) ==> j == k
  {
  }

  /** One reply to a replication request. */
  datatype Batch = Batch(
    version: int,
    schema: int,
    source: Option<Source>,
    table: Option<Table>,
    after: Position,
    cursor: Position,
    hasMore: bool,
    streams: seq<StreamItem>,
    rows: seq<Row>)

  /** How many entries the installed model catalog puts into a payload. */
  datatype Layout = Layout(fastEntries: nat, platformEntries: nat)

  predicate Decodes(layout: Layout, row: Row) {
    match row
    case FastRow(_, _, _, payload) => payload.Encoded? && |payload.entries| == layout.fastEntries
    case PlatformRow(_, payload) => payload.Encoded? && |payload.entries| == layout.platformEntries
    case RollupRow(_, _, payload, _) => payload.Encoded?
    case EventRow(_, body) => body.details.ObjectText?
  }
}
