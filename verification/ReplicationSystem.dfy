/** An edge historian, its replica, and every page ever sent between them. */
module ReplicationSystem {
  import opened Wrappers
  import opened HistorianTables
  import opened CursorProtocol
  import opened ReplicaImport
  import HistorianStore

  /** Remote event id to local event id, and back. */
  datatype Places = Places(local: map<int, int>, remote: map<int, int>)

  /** What is remembered only to state properties: the abstract link of each
      table, where each imported event landed, which replica events are its own,
      and the latest retention cutoff the replica applied to each table. */
  datatype History = History(
    links: map<Table, Link>,
    places: Places,
    locals: set<int>,
    floors: map<Table, int>)

  /** `pinned` is the source identity the replica's recorder holds in memory. */
  datatype System = System(
    source: Source,
    layout: Layout,
    edge: Database,
    replica: Database,
    pinned: string,
    sent: set<Batch>,
    past: History)

  datatype Step =
    | EdgeStream(id: int, stream: StreamRow)
    | EdgeWrite(row: Row)
    | EdgeRetention(policy: HistorianStore.Retention, reference: int)
    | Reply(table: Table, after: Position, limit: nat, batch: Batch)
    | Import(batch: Batch, stamp: int)
    | ReplicaEvent(body: EventBody)
    | ReplicaRetention(policy: HistorianStore.Retention, reference: int)
    | ReplicaRestart

  function PageOf(batch: Batch): Page {
    Page(batch.after, batch.cursor, batch.rows)
  }

  /** The replica files an imported event under its own next id. */
  function Place(places: Places, remote: int, local: int): Places {
    Places(places.local[remote := local], places.remote[local := remote])
  }

  function PlaceEvents(places: Places, next: int, cursor: Position, rows: seq<Row>): Places
    decreases |rows|
  {
    if rows == [] then places
    else if AtOrBefore(PositionOf(rows[0]), cursor) then PlaceEvents(places, next, cursor, rows[1..])
    else PlaceEvents(Place(places, KeyOf(rows[0]), next), next + 1, cursor, rows[1..])
  }

  /** Whatever the clock says: samples go to a free microsecond, events to the next id. */
  ghost predicate Possible(s: System, step: Step) {
    match step
    case EdgeStream(id, _) => id in s.edge.streams || id == s.edge.nextStream
    case EdgeWrite(row) =>
      && Decodes(s.layout, row)
      && (row.FastRow? ==> row.streamId in s.edge.streams && row.receiveTime !in s.edge.fast)
      && (row.PlatformRow? ==> row.receiveTime !in s.edge.platform)
      && (row.RollupRow? ==> row.bucket >= 0)
      && (row.EventRow? ==> row.id == s.edge.nextEvent)
    case EdgeRetention(_, _) => true
    case Reply(table, after, limit, batch) =>
      && table in s.past.links && after in s.past.links[table].held
      && HistorianStore.Answers(s.edge, s.source, table, after, limit, batch)
    case Import(batch, _) => batch in s.sent
    case ReplicaEvent(_) => true
    case ReplicaRetention(_, _) => true
    case ReplicaRestart => true
  }

  /** The row lies beyond the replica's cursor and every page served so far. */
  ghost predicate OnTime(s: System, row: Row) {
    TableOf(row) in s.past.links && Clear(s.past.links[TableOf(row)], PositionOf(row))
  }

  /** The only assumption about the edge.  Event ids provide it by themselves. */
  ghost predicate Enabled(s: System, step: Step) {
    Possible(s, step) && (step.EdgeWrite? && !step.row.EventRow? ==> OnTime(s, step.row))
  }

  function Advance(past: History, table: Table, step: CursorProtocol.Step): History {
    if table in past.links then past.(links := past.links[table := CursorProtocol.Next(past.links[table], step)]) else past
  }

  function PruneAll(past: History, edge: Database, policy: HistorianStore.Retention, reference: int): History {
    past.(links := map t | t in past.links ::
            CursorProtocol.Next(past.links[t],
              CursorProtocol.Delete(HistorianStore.Expired(RowsOf(edge, t), HistorianStore.CutoffOf(policy, reference, t)))))
  }

  function RaiseFloors(floors: map<Table, int>, policy: HistorianStore.Retention, reference: int): map<Table, int> {
    map[FastSample := RaisedFloor(floors, policy, reference, FastSample),
        PlatformSample := RaisedFloor(floors, policy, reference, PlatformSample),
        MinuteRollup := RaisedFloor(floors, policy, reference, MinuteRollup),
        Event := RaisedFloor(floors, policy, reference, Event)]
  }

  function RaisedFloor(floors: map<Table, int>, policy: HistorianStore.Retention, reference: int, table: Table): int {
    var cutoff := HistorianStore.CutoffOf(policy, reference, table);
    if table in floors && floors[table] > cutoff then floors[table] else cutoff
  }

  function Next(s: System, step: Step): System {
    match step
    case EdgeStream(id, row) =>
      s.(edge := s.edge.(streams := s.edge.streams[id := row],
                         nextStream := if id == s.edge.nextStream then id + 1 else s.edge.nextStream))
    case EdgeWrite(row) =>
      var t := TableOf(row);
      var written := WithRows(s.edge, t, RowsOf(s.edge, t)[KeyOf(row) := row]);
      s.(edge := if row.EventRow? then written.(nextEvent := s.edge.nextEvent + 1) else written,
         past := Advance(s.past, t, Write(row)))
    case EdgeRetention(policy, reference) =>
      if !policy.enabled then s
      else s.(edge := HistorianStore.Retained(s.edge, policy, reference), past := PruneAll(s.past, s.edge, policy, reference))
    case Reply(table, after, limit, batch) =>
      s.(sent := s.sent + {batch}, past := Advance(s.past, table, Serve(PageOf(batch), limit)))
    case Import(batch, stamp) => Imported(s, batch, stamp)
    case ReplicaEvent(body) =>
      var id := s.replica.nextEvent;
      s.(replica := s.replica.(event := s.replica.event[id := EventRow(id, body)], nextEvent := id + 1),
         past := s.past.(locals := s.past.locals + {id}))
    case ReplicaRetention(policy, reference) =>
      if !policy.enabled then s
      else s.(replica := HistorianStore.Retained(s.replica, policy, reference),
              past := s.past.(floors := RaiseFloors(s.past.floors, policy, reference)))
    case ReplicaRestart =>
      s.(pinned := if |s.replica.sources| == 1 && s.source.id in s.replica.sources then s.source.id else "")
  }

  function Imported(s: System, batch: Batch, stamp: int): System {
    match ImportBatch(s.replica, s.layout, batch, s.pinned, stamp)
    case Failure(_) => s
    case Success((db, _)) =>
      if batch.table.None? || batch.source.None? then s
      else
        var t := batch.table.value;
        var past := Advance(s.past, t, Deliver(PageOf(batch)));
        s.(replica := db, pinned := batch.source.value.id,
           past := if t == Event
                   then past.(places := PlaceEvents(past.places, s.replica.nextEvent,
                                                     CursorOf(s.replica, s.source.id, Event), batch.rows))
                   else past)
  }

  predicate Initial(s: System) {
    && s.source.id != "" && s.source.hostname != ""
    && s.edge == EMPTY_DATABASE && s.replica == EMPTY_DATABASE
    && s.pinned in {"", s.source.id}
    && s.sent == {}
    && s.past == History(map[FastSample := START, PlatformSample := START, MinuteRollup := START, Event := START],
                         Places(map[], map[]), {}, map[])
  }

  /** A run is any interleaving of enabled steps. */
  ghost predicate IsRun(states: seq<System>, steps: seq<Step>) {
    && |states| == |steps| + 1
    && Initial(states[0])
    && forall i :: 0 <= i < |steps| ==> Enabled(states[i], steps[i]) && states[i + 1] == Next(states[i], steps[i])
  }

  lemma RunGrows(states: seq<System>, steps: seq<Step>, step: Step)
    requires IsRun(states, steps) && Enabled(states[|steps|], step)
    ensures IsRun(states + [Next(states[|steps|], step)], steps + [step])
  {
  }

  /** Some run ends here. */
  ghost predicate Reachable(s: System) {
    exists states, steps :: IsRun(states, steps) && states[|steps|] == s
  }

  lemma ReachableFirst(s: System)
    requires Initial(s)
    ensures Reachable(s)
  {
    assert IsRun([s], []) && [s][0] == s;
  }

  lemma ReachableNext(s: System, step: Step)
    requires Reachable(s) && Enabled(s, step)
    ensures Reachable(Next(s, step))
  {
    var states, steps :| IsRun(states, steps) && states[|steps|] == s;
    RunGrows(states, steps, step);
    assert (states + [Next(s, step)])[|steps + [step]|] == Next(s, step);
  }

  // ---------------------------------------------------------------- invariant

  /** Not yet removed by the replica's own retention. */
  predicate Kept(floors: map<Table, int>, row: Row) {
    TableOf(row) in floors ==> floors[TableOf(row)] <= AgeOf(row)
  }

  /** The row as the replica files it: under its local stream. */
  function Localised(db: Database, source: string, row: Row): Row
    requires row.FastRow? ==> (source, row.streamId) in db.links
  {
    if row.FastRow? then row.(streamId := db.links[(source, row.streamId)]) else row
  }

  /** A keyed table of the replica holds exactly the mirrored rows it kept. */
  ghost predicate StoredRows(db: Database, source: string, table: Table, mirror: Rows, floors: map<Table, int>) {
    && (forall k :: k in mirror ==>
                      && TableOf(mirror[k]) == table && KeyOf(mirror[k]) == k
                      && (mirror[k].FastRow? ==> (source, mirror[k].streamId) in db.links)
                      && (Kept(floors, mirror[k]) ==> k in RowsOf(db, table)))
    && (forall k :: k in RowsOf(db, table) ==> k in mirror && RowsOf(db, table)[k] == Localised(db, source, mirror[k]))
  }

  /** Every mirrored event has one place of its own in the event table, and
      every other event there is local. */
  ghost predicate StoredEvents(db: Database, mirror: Rows, past: History) {
    && past.places.local.Keys == mirror.Keys
    && (forall r :: r in mirror ==> EventPlaced(db, mirror[r], r, past))
    && (forall i :: i in db.event ==>
          i < db.nextEvent
          && (i in past.locals || (i in past.places.remote && past.places.remote[i] in mirror
                                   && past.places.local[past.places.remote[i]] == i)))
    && (forall i :: i in past.locals ==> i < db.nextEvent)
  }

  ghost predicate EventPlaced(db: Database, row: Row, remote: int, past: History)
    requires remote in past.places.local
  {
    var i := past.places.local[remote];
    && row.EventRow?
    && i < db.nextEvent && i !in past.locals
    && i in past.places.remote && past.places.remote[i] == remote
    && (i in db.event ==> db.event[i] == EventRow(i, row.body))
    && (Kept(past.floors, row) ==> i in db.event)
  }

  ghost predicate Stored(db: Database, source: string, table: Table, mirror: Rows, past: History) {
    if table == Event then StoredEvents(db, mirror, past) else StoredRows(db, source, table, mirror, past.floors)
  }

  ghost predicate LinksOk(db: Database) {
    && (forall p :: p in db.links ==> db.links[p] < db.nextStream)
    && (forall p, q :: p in db.links && q in db.links && db.links[p] == db.links[q] ==> p == q)
  }

  predicate NonNegative(p: Position) {
    p.key >= 0 && p.tie >= 0
  }

  ghost predicate TableOk(s: System, t: Table) {
    && t in s.past.links
    && Inv(s.past.links[t])
    && s.past.links[t].edge == RowsOf(s.edge, t)
    && s.past.links[t].cursor == CursorOf(s.replica, s.source.id, t)
    && (forall r :: r in s.past.links[t].ever ==> TableOf(r) == t && Decodes(s.layout, r) && NonNegative(PositionOf(r)))
    && (forall p :: p in s.past.links[t].held ==> NonNegative(p))
    && Stored(s.replica, s.source.id, t, s.past.links[t].mirror, s.past)
  }

  ghost predicate BatchOk(s: System, batch: Batch) {
    && batch.version == 1 && batch.schema == SCHEMA_VERSION && batch.source == Some(s.source)
    && batch.table.Some? && batch.table.value in s.past.links
    && PageOf(batch) in s.past.links[batch.table.value].pages
    && (forall r :: r in batch.rows && r.FastRow? ==> exists item :: item in batch.streams && item.id == r.streamId)
    && (forall i, j :: 0 <= i < j < |batch.streams| ==> batch.streams[i].id < batch.streams[j].id)
  }

  ghost predicate TablesOk(s: System) {
    forall t: Table :: TableOk(s, t)
  }

  lemma TablesTogether(s: System)
    requires TableOk(s, FastSample) && TableOk(s, PlatformSample) && TableOk(s, MinuteRollup) && TableOk(s, Event)
    ensures TablesOk(s)
  {
    forall t: Table
      ensures TableOk(s, t)
    {
      match t
      case FastSample =>
      case PlatformSample =>
      case MinuteRollup =>
      case Event =>
    }
  }

  ghost predicate WasSent(sent: set<Batch>, t: Table, page: Page) {
    exists batch :: batch in sent && batch.table == Some(t) && PageOf(batch) == page
  }

  /** The served pages are those of the batches sent. */
  ghost predicate SentOk(s: System) {
    && (forall batch :: batch in s.sent ==> BatchOk(s, batch))
    && (forall t, page :: t in s.past.links && page in s.past.links[t].pages ==> WasSent(s.sent, t, page))
  }

  /** Stream ids come from a counter, and so does every local stream. */
  ghost predicate StreamsFiled(db: Database) {
    && (forall id :: id in db.streams ==> id < db.nextStream)
    && (forall p :: p in db.links ==> db.links[p] in db.streams)
  }

  /** Event ids come from a counter: none was ever given to two events, and none
      served or passed lies ahead of it. */
  ghost predicate EventsOk(s: System) {
    && Event in s.past.links
    && (forall r :: r in s.past.links[Event].ever ==> r.EventRow? && r.id < s.edge.nextEvent)
    && (forall r, q :: r in s.past.links[Event].ever && q in s.past.links[Event].ever && KeyOf(r) == KeyOf(q) ==> r == q)
    && s.past.links[Event].cursor.key < s.edge.nextEvent
    && (forall page :: page in s.past.links[Event].pages ==> page.cursor.key < s.edge.nextEvent)
  }

  ghost predicate EdgeFiled(s: System) {
    && (forall k :: k in s.edge.fast && s.edge.fast[k].FastRow? ==> s.edge.fast[k].streamId in s.edge.streams)
    && (forall id :: id in s.edge.streams ==> id < s.edge.nextStream)
  }

  predicate SourceOk(s: System) {
    s.source.id != "" && s.source.hostname != "" && s.pinned in {"", s.source.id}
  }

  ghost predicate SystemOk(s: System) {
    && SourceOk(s) && TablesOk(s) && SentOk(s) && EventsOk(s) && EdgeFiled(s)
    && LinksOk(s.replica) && StreamsFiled(s.replica)
  }

  // ------------------------------------------------------------- import facts

  /** Every listed stream ends up linked, no link is moved or shared, and
      nothing but the streams changes. */
  ghost predicate StreamsOnly(db: Database, out: Database) {
    && LinksOk(out)
    && (StreamsFiled(db) ==> StreamsFiled(out))
    && out.fast == db.fast && out.platform == db.platform && out.rollup == db.rollup
    && out.event == db.event && out.nextEvent == db.nextEvent
    && out.sources == db.sources && out.cursors == db.cursors
    && (forall p :: p in db.links ==> p in out.links && out.links[p] == db.links[p])
  }

  lemma ImportStreamLinks(db: Database, source: string, item: StreamItem)
    requires LinksOk(db)
    ensures StreamsOnly(db, ImportStream(db, source, item))
    ensures (source, item.id) in ImportStream(db, source, item).links
  {
    var out := ImportStream(db, source, item);
    if (source, item.id) !in db.links {
      assert out.links == db.links[(source, item.id) := db.nextStream];
      forall p, q | p in out.links && q in out.links && out.links[p] == out.links[q]
        ensures p == q
      {
        if p in db.links && q in db.links {
          assert out.links[p] == db.links[p] && out.links[q] == db.links[q];
        }
      }
    }
  }

  lemma {:induction false} ImportStreamsLinks(db: Database, source: string, items: seq<StreamItem>)
    requires LinksOk(db)
    ensures StreamsOnly(db, ImportStreams(db, source, items))
    ensures forall item :: item in items ==> (source, item.id) in ImportStreams(db, source, items).links
    decreases |items|
  {
    if items != [] {
      var first := ImportStream(db, source, items[0]);
      ImportStreamLinks(db, source, items[0]);
      ImportStreamsLinks(first, source, items[1..]);
      forall item | item in items
        ensures (source, item.id) in ImportStreams(db, source, items).links
      {
        assert item == items[0] || item in items[1..];
      }
    }
  }

  ghost predicate Importable(db: Database, source: string, layout: Layout, table: Table, row: Row) {
    && TableOf(row) == table
    && Decodes(layout, row)
    && (row.FastRow? ==> (source, row.streamId) in db.links)
  }

  /** Every mirrored row lies before `row`. */
  ghost predicate AllBefore(mirror: Rows, row: Row) {
    forall k :: k in mirror ==> KeyOf(mirror[k]) == k && Before(PositionOf(mirror[k]), PositionOf(row))
  }

  /** The history after one more row of the table was stored. */
  function PlaceRow(past: History, row: Row, next: int): History {
    if row.EventRow? then past.(places := Place(past.places, row.id, next)) else past
  }

  /** Only the table's rows changed, and the event counter if it is the event table. */
  predicate TableOnly(db: Database, out: Database, table: Table) {
    && out.streams == db.streams && out.nextStream == db.nextStream && out.links == db.links
    && out.sources == db.sources && out.cursors == db.cursors
    && (table != FastSample ==> out.fast == db.fast)
    && (table != PlatformSample ==> out.platform == db.platform)
    && (table != MinuteRollup ==> out.rollup == db.rollup)
    && (table != Event ==> out.event == db.event && out.nextEvent == db.nextEvent)
  }

  ghost predicate StoresRow(db: Database, source: string, layout: Layout, row: Row, mirror: Rows, past: History) {
    var r := StoreRow(db, source, layout, row);
    && r.Success? && r.value.1
    && TableOnly(db, r.value.0, TableOf(row))
    && (row.EventRow? ==> r.value.0.nextEvent == db.nextEvent + 1)
    && Stored(r.value.0, source, TableOf(row), mirror[KeyOf(row) := row], PlaceRow(past, row, db.nextEvent))
  }

  lemma StoredWithRow(db: Database, out: Database, source: string, table: Table, mirror: Rows, row: Row, floors: map<Table, int>)
    requires StoredRows(db, source, table, mirror, floors)
    requires TableOf(row) == table && out.links == db.links && (row.FastRow? ==> (source, row.streamId) in db.links)
    requires RowsOf(out, table) == RowsOf(db, table)[KeyOf(row) := Localised(db, source, row)]
    ensures StoredRows(out, source, table, mirror[KeyOf(row) := row], floors)
  {
  }

  lemma StoreKeyedRow(db: Database, source: string, layout: Layout, row: Row, mirror: Rows, past: History)
    requires Stored(db, source, TableOf(row), mirror, past)
    requires Importable(db, source, layout, TableOf(row), row) && AllBefore(mirror, row) && !row.EventRow?
    ensures StoresRow(db, source, layout, row, mirror, past)
  {
    var k := KeyOf(row);
    assert !row.RollupRow? && k in mirror ==> PositionOf(mirror[k]) == PositionOf(row);
    var out := StoreRow(db, source, layout, row).value.0;
    StoredWithRow(db, out, source, TableOf(row), mirror, row, past.floors);
  }

  lemma StoreEventRow(db: Database, source: string, layout: Layout, row: Row, mirror: Rows, past: History)
    requires StoredEvents(db, mirror, past)
    requires Importable(db, source, layout, Event, row) && AllBefore(mirror, row)
    ensures StoresRow(db, source, layout, row, mirror, past)
  {
    assert row.id in mirror ==> PositionOf(mirror[row.id]) == PositionOf(row);
    var out := StoreRow(db, source, layout, row).value.0;
    var then_ := PlaceRow(past, row, db.nextEvent);
    var grown := mirror[row.id := row];
    forall r | r in grown
      ensures EventPlaced(out, grown[r], r, then_)
    {
      if r != row.id {
        assert EventPlaced(db, mirror[r], r, past);
      }
    }
  }

  /** Storing one row beyond everything mirrored so far succeeds and mirrors it. */
  lemma StoreRowMirrors(db: Database, source: string, layout: Layout, row: Row, mirror: Rows, past: History)
    requires Stored(db, source, TableOf(row), mirror, past)
    requires Importable(db, source, layout, TableOf(row), row) && AllBefore(mirror, row)
    ensures StoresRow(db, source, layout, row, mirror, past)
  {
    if row.EventRow? {
      StoreEventRow(db, source, layout, row, mirror, past);
    } else {
      StoreKeyedRow(db, source, layout, row, mirror, past);
    }
  }

  function PlaceRows(past: History, table: Table, next: int, cursor: Position, rows: seq<Row>): History {
    if table == Event then past.(places := PlaceEvents(past.places, next, cursor, rows)) else past
  }

  ghost predicate StoresRows(p: Progress, source: string, layout: Layout, table: Table, current: Position,
                             rows: seq<Row>, mirror: Rows, past: History)
  {
    var r := ImportRows(p, source, layout, table, current, rows);
    && r.Success?
    && r.value.previous == EndOf(p.previous, rows)
    && TableOnly(p.db, r.value.db, table)
    && Stored(r.value.db, source, table, Apply(mirror, current, rows), PlaceRows(past, table, p.db.nextEvent, current, rows))
  }

  /** The mirrored rows lie at or below the cursor or the last row looked at. */
  ghost predicate Behind(mirror: Rows, current: Position, previous: Position) {
    forall k :: k in mirror ==>
                  KeyOf(mirror[k]) == k
                  && (AtOrBefore(PositionOf(mirror[k]), current) || AtOrBefore(PositionOf(mirror[k]), previous))
  }

  lemma ImportRowsUnfold(p: Progress, source: string, layout: Layout, table: Table, current: Position,
                         rows: seq<Row>, mirror: Rows, past: History, q: Progress)
    requires rows != [] && TableOf(rows[0]) == table
    requires ImportRow(p, source, layout, table, current, rows[0]) == Success(q) && q.previous == PositionOf(rows[0])
    requires TableOnly(p.db, q.db, table)
    requires q.db.nextEvent == p.db.nextEvent + if table == Event && Before(current, PositionOf(rows[0])) then 1 else 0
    requires StoresRows(q, source, layout, table, current, rows[1..],
                        if Before(current, PositionOf(rows[0])) then mirror[KeyOf(rows[0]) := rows[0]] else mirror,
                        if Before(current, PositionOf(rows[0])) then PlaceRow(past, rows[0], p.db.nextEvent) else past)
    ensures StoresRows(p, source, layout, table, current, rows, mirror, past)
  {
    var row, rest := rows[0], rows[1..];
    var taken := Before(current, PositionOf(row));
    var mirrored := if taken then mirror[KeyOf(row) := row] else mirror;
    var placed := if taken then PlaceRow(past, row, p.db.nextEvent) else past;
    assert rest != [] ==> rest[|rest| - 1] == rows[|rows| - 1];
    assert ImportRows(p, source, layout, table, current, rows) == ImportRows(q, source, layout, table, current, rest);
    assert Apply(mirror, current, rows) == Apply(mirrored, current, rest);
    assert PlaceRows(past, table, p.db.nextEvent, current, rows) == PlaceRows(placed, table, q.db.nextEvent, current, rest);
  }

  lemma StillBehind(mirror: Rows, current: Position, previous: Position, row: Row)
    requires Behind(mirror, current, previous) && Before(previous, PositionOf(row))
    ensures Behind(mirror, current, PositionOf(row))
    ensures Before(current, PositionOf(row)) ==>
              AllBefore(mirror, row) && Behind(mirror[KeyOf(row) := row], current, PositionOf(row))
  {
  }

  ghost predicate AllImportable(db: Database, source: string, layout: Layout, table: Table, rows: seq<Row>) {
    forall r :: r in rows ==> Importable(db, source, layout, table, r)
  }

  lemma StillImportable(db: Database, out: Database, source: string, layout: Layout, table: Table, rows: seq<Row>)
    requires rows != [] && AllImportable(db, source, layout, table, rows) && TableOnly(db, out, table)
    ensures Importable(db, source, layout, table, rows[0])
    ensures AllImportable(out, source, layout, table, rows[1..])
  {
    assert rows[0] in rows;
    assert forall r :: r in rows[1..] ==> r in rows;
  }

  /** The row loop of an import, over rows the protocol can deliver, never fails
      and does to the table what `Apply` does to the mirror. */
  lemma {:induction false} ImportRowsMirrors(p: Progress, source: string, layout: Layout, table: Table, current: Position,
                                             rows: seq<Row>, mirror: Rows, past: History)
    requires Stored(p.db, source, table, mirror, past)
    requires Ascending(rows) && (rows != [] ==> Before(p.previous, PositionOf(rows[0])))
    requires AllImportable(p.db, source, layout, table, rows)
    requires Behind(mirror, current, p.previous)
    ensures StoresRows(p, source, layout, table, current, rows, mirror, past)
    decreases |rows|
  {
    if rows != [] {
      var row, rest := rows[0], rows[1..];
      StillImportable(p.db, p.db, source, layout, table, rows);
      StillBehind(mirror, current, p.previous, row);
      var q := ImportRow(p, source, layout, table, current, row);
      if AtOrBefore(PositionOf(row), current) {
        ImportRowsMirrors(q.value, source, layout, table, current, rest, mirror, past);
      } else {
        StoreRowMirrors(p.db, source, layout, row, mirror, past);
        StillImportable(p.db, q.value.db, source, layout, table, rows);
        ImportRowsMirrors(q.value, source, layout, table, current, rest, mirror[KeyOf(row) := row],
                          PlaceRow(past, row, p.db.nextEvent));
      }
      ImportRowsUnfold(p, source, layout, table, current, rows, mirror, past, q.value);
    }
  }

  /** Importing any page ever sent succeeds; it delivers the page to its own
      table and leaves the other tables alone. */
  ghost predicate Commits(s: System, batch: Batch, stamp: int)
    requires batch.table.Some? && batch.table.value in s.past.links
  {
    var t, link := batch.table.value, s.past.links[batch.table.value];
    var r := ImportBatch(s.replica, s.layout, batch, s.pinned, stamp);
    && r.Success?
    && Stored(r.value.0, s.source.id, t, Apply(link.mirror, link.cursor, batch.rows),
              PlaceRows(s.past, t, s.replica.nextEvent, link.cursor, batch.rows))
    && r.value.0.cursors == s.replica.cursors[(s.source.id, t) := CursorRow(Later(link.cursor, batch.cursor), stamp)]
    && LinksOk(r.value.0) && StreamsFiled(r.value.0)
    && LeavesOthers(s.replica, r.value.0, t)
  }

  ghost predicate LeavesOthers(db: Database, out: Database, table: Table) {
    && (table != FastSample ==> out.fast == db.fast)
    && (table != PlatformSample ==> out.platform == db.platform)
    && (table != MinuteRollup ==> out.rollup == db.rollup)
    && (table != Event ==> out.event == db.event && out.nextEvent == db.nextEvent)
    && (forall p :: p in db.links ==> p in out.links && out.links[p] == db.links[p])
  }

  lemma StoredFrame(db: Database, out: Database, source: string, table: Table, mirror: Rows, past: History, later: History)
    requires Stored(db, source, table, mirror, past)
    requires RowsOf(out, table) == RowsOf(db, table) && (table == Event ==> out.nextEvent == db.nextEvent)
    requires forall p :: p in db.links ==> p in out.links && out.links[p] == db.links[p]
    requires later.floors == past.floors
    requires table == Event ==> later.places == past.places && later.locals == past.locals
    ensures Stored(out, source, table, mirror, later)
  {
    if table == Event {
      forall r | r in mirror
        ensures EventPlaced(out, mirror[r], r, later)
      {
        assert EventPlaced(db, mirror[r], r, past);
      }
    }
  }

  lemma OpenedStores(s: System, batch: Batch, stamp: int)
    requires SystemOk(s) && batch in s.sent
    ensures BatchOk(s, batch)
    ensures var t, db := batch.table.value, Opened(s.replica, batch, stamp);
            && Stored(db, s.source.id, t, s.past.links[t].mirror, s.past)
            && AllImportable(db, s.source.id, s.layout, t, batch.rows)
            && LinksOk(db) && StreamsFiled(db)
            && LeavesOthers(s.replica, db, t) && db.nextEvent == s.replica.nextEvent
            && RowsOf(db, t) == RowsOf(s.replica, t) && db.cursors == s.replica.cursors
  {
    assert BatchOk(s, batch);
    var t := batch.table.value;
    assert TableOk(s, t) && PageOk(s.past.links[t], PageOf(batch));
    var noted := NoteSource(s.replica, s.source, stamp);
    var db := Opened(s.replica, batch, stamp);
    if t == FastSample {
      ImportStreamsLinks(noted, s.source.id, batch.streams);
    }
    StoredFrame(s.replica, db, s.source.id, t, s.past.links[t].mirror, s.past, s.past);
    forall r | r in batch.rows
      ensures Importable(db, s.source.id, s.layout, t, r)
    {
      assert r in s.past.links[t].ever;
    }
  }

  lemma EndIsNonNegative(s: System, batch: Batch)
    requires SystemOk(s) && batch in s.sent
    ensures NonNegative(batch.cursor)
  {
    assert BatchOk(s, batch);
    var t := batch.table.value;
    assert TableOk(s, t) && PageOk(s.past.links[t], PageOf(batch));
    assert batch.rows != [] ==> batch.rows[|batch.rows| - 1] in batch.rows;
  }

  lemma ImportBatchUnfold(db: Database, layout: Layout, batch: Batch, expected: string, stamp: int, p: Progress)
    requires Refusal(batch, expected) == None
    requires ImportRows(Progress(Opened(db, batch, stamp), NO_POSITION, 0, 0), batch.source.value.id, layout,
                        batch.table.value, CursorOf(db, batch.source.value.id, batch.table.value), batch.rows) == Success(p)
    requires batch.rows != [] ==> batch.cursor == p.previous
    ensures ImportBatch(db, layout, batch, expected, stamp)
            == var cursor := Later(CursorOf(db, batch.source.value.id, batch.table.value), batch.cursor);
               Success((SetCursor(p.db, batch.source.value.id, batch.table.value, cursor, stamp),
                        Report(p.imported, p.skipped, cursor)))
  {
  }

  lemma RowsCommit(s: System, batch: Batch, stamp: int) returns (p: Progress)
    requires SystemOk(s) && batch in s.sent
    ensures BatchOk(s, batch)
    ensures var t, link := batch.table.value, s.past.links[batch.table.value];
            var start := Progress(Opened(s.replica, batch, stamp), NO_POSITION, 0, 0);
            && ImportRows(start, s.source.id, s.layout, t, link.cursor, batch.rows) == Success(p)
            && (batch.rows != [] ==> batch.cursor == p.previous)
            && TableOnly(start.db, p.db, t)
            && Stored(p.db, s.source.id, t, Apply(link.mirror, link.cursor, batch.rows),
                      PlaceRows(s.past, t, s.replica.nextEvent, link.cursor, batch.rows))
  {
    OpenedStores(s, batch, stamp);
    var t := batch.table.value;
    var link := s.past.links[t];
    assert TableOk(s, t) && PageOk(link, PageOf(batch));
    var start := Progress(Opened(s.replica, batch, stamp), NO_POSITION, 0, 0);
    assert batch.rows != [] ==> batch.rows[0] in link.ever;
    ImportRowsMirrors(start, s.source.id, s.layout, t, link.cursor, batch.rows, link.mirror, s.past);
    p := ImportRows(start, s.source.id, s.layout, t, link.cursor, batch.rows).value;
  }

  lemma StoredWithCursor(db: Database, source: string, table: Table, mirror: Rows, past: History,
                         position: Position, stamp: int)
    requires Stored(db, source, table, mirror, past)
    ensures Stored(SetCursor(db, source, table, position, stamp), source, table, mirror, past)
  {
    StoredFrame(db, SetCursor(db, source, table, position, stamp), source, table, mirror, past, past);
  }

  lemma LeavesOthersOn(db: Database, mid: Database, out: Database, table: Table)
    requires LeavesOthers(db, mid, table) && TableOnly(mid, out, table)
    ensures LeavesOthers(db, out, table)
  {
  }

  lemma ImportCommits(s: System, batch: Batch, stamp: int)
    requires SystemOk(s) && batch in s.sent
    ensures BatchOk(s, batch) && Commits(s, batch, stamp)
  {
    OpenedStores(s, batch, stamp);
    EndIsNonNegative(s, batch);
    var p := RowsCommit(s, batch, stamp);
    var t := batch.table.value;
    var link := s.past.links[t];
    assert link.cursor == CursorOf(s.replica, s.source.id, t) by {
      assert TableOk(s, t);
    }
    ImportBatchUnfold(s.replica, s.layout, batch, s.pinned, stamp, p);
    LeavesOthersOn(s.replica, Opened(s.replica, batch, stamp), p.db, t);
    StoredWithCursor(p.db, s.source.id, t, Apply(link.mirror, link.cursor, batch.rows),
                     PlaceRows(s.past, t, s.replica.nextEvent, link.cursor, batch.rows),
                     Later(link.cursor, batch.cursor), stamp);
  }

  // --------------------------------------------------------------- induction

  lemma OkInitially(s: System)
    requires Initial(s)
    ensures SystemOk(s)
  {
    InvStart();
    TablesTogether(s);
  }

  /** A step that leaves the table, its link and what they mean alone. */
  ghost predicate Untouched(s: System, s': System, t: Table) {
    && s'.source == s.source && s'.layout == s.layout
    && t in s.past.links && t in s'.past.links && s'.past.links[t] == s.past.links[t]
    && RowsOf(s'.edge, t) == RowsOf(s.edge, t)
    && RowsOf(s'.replica, t) == RowsOf(s.replica, t)
    && CursorOf(s'.replica, s.source.id, t) == CursorOf(s.replica, s.source.id, t)
    && (forall p :: p in s.replica.links ==> p in s'.replica.links && s'.replica.links[p] == s.replica.links[p])
    && s'.past.floors == s.past.floors
    && (t == Event ==> s'.replica.nextEvent == s.replica.nextEvent
                       && s'.past.places == s.past.places && s'.past.locals == s.past.locals)
  }

  lemma UntouchedOk(s: System, s': System, t: Table)
    requires TableOk(s, t) && Untouched(s, s', t)
    ensures TableOk(s', t)
  {
    StoredFrame(s.replica, s'.replica, s.source.id, t, s.past.links[t].mirror, s.past, s'.past);
  }

  /** No page was withdrawn, and new pages come from new batches. */
  lemma SentKept(s: System, s': System, more: set<Batch>)
    requires SentOk(s)
    requires s'.source == s.source && s'.sent == s.sent + more && s'.past.links.Keys == s.past.links.Keys
    requires forall t :: t in s.past.links ==> s.past.links[t].pages <= s'.past.links[t].pages
    requires forall batch :: batch in more ==> BatchOk(s', batch)
    requires forall t, page :: t in s.past.links && page in s'.past.links[t].pages && page !in s.past.links[t].pages ==>
                                 WasSent(more, t, page)
    ensures SentOk(s')
  {
    forall batch | batch in s'.sent
      ensures BatchOk(s', batch)
    {
      if batch in s.sent {
        assert BatchOk(s, batch);
      }
    }
    forall t, page | t in s'.past.links && page in s'.past.links[t].pages
      ensures WasSent(s'.sent, t, page)
    {
      if page in s.past.links[t].pages {
        StillSent(s.sent, s'.sent, t, page);
      } else {
        StillSent(more, s'.sent, t, page);
      }
    }
  }

  lemma StillSent(sent: set<Batch>, later: set<Batch>, t: Table, page: Page)
    requires WasSent(sent, t, page) && sent <= later
    ensures WasSent(later, t, page)
  {
    var batch :| batch in sent && batch.table == Some(t) && PageOf(batch) == page;
    assert batch in later;
  }

  /** A new event's id is beyond everything served or passed. */
  lemma EventsAreOnTime(s: System, row: Row)
    requires EventsOk(s) && row.EventRow? && row.id == s.edge.nextEvent
    ensures OnTime(s, row)
  {
  }

  lemma TableOkAfterEdgeWrite(s: System, row: Row)
    requires TableOk(s, TableOf(row)) && Possible(s, EdgeWrite(row)) && OnTime(s, row)
    ensures TableOk(Next(s, EdgeWrite(row)), TableOf(row))
  {
    var s', w := Next(s, EdgeWrite(row)), TableOf(row);
    InvNext(s.past.links[w], Write(row));
    StoredFrame(s.replica, s'.replica, s.source.id, w, s.past.links[w].mirror, s.past, s'.past);
  }

  lemma TablesAfterEdgeWrite(s: System, row: Row)
    requires TablesOk(s) && Possible(s, EdgeWrite(row)) && OnTime(s, row)
    ensures TablesOk(Next(s, EdgeWrite(row)))
  {
    var s', w := Next(s, EdgeWrite(row)), TableOf(row);
    forall t: Table
      ensures TableOk(s', t)
    {
      assert TableOk(s, t);
      if t == w {
        TableOkAfterEdgeWrite(s, row);
      } else {
        UntouchedOk(s, s', t);
      }
    }
  }

  lemma SentAfterEdgeWrite(s: System, row: Row)
    requires SentOk(s) && TableOf(row) in s.past.links
    ensures SentOk(Next(s, EdgeWrite(row)))
  {
    SentKept(s, Next(s, EdgeWrite(row)), {});
  }

  lemma RestAfterEdgeWrite(s: System, row: Row)
    requires EventsOk(s) && EdgeFiled(s) && Possible(s, EdgeWrite(row)) && TableOf(row) in s.past.links
    ensures EventsOk(Next(s, EdgeWrite(row))) && EdgeFiled(Next(s, EdgeWrite(row)))
  {
  }

  lemma OkAfterEdgeWrite(s: System, row: Row)
    requires SystemOk(s) && Enabled(s, EdgeWrite(row))
    ensures SystemOk(Next(s, EdgeWrite(row)))
  {
    if row.EventRow? {
      EventsAreOnTime(s, row);
    }
    TablesAfterEdgeWrite(s, row);
    SentAfterEdgeWrite(s, row);
    RestAfterEdgeWrite(s, row);
  }

  lemma TableOkAfterEdgeRetention(s: System, policy: HistorianStore.Retention, reference: int, t: Table)
    requires TableOk(s, t) && policy.enabled
    ensures TableOk(Next(s, EdgeRetention(policy, reference)), t)
  {
    var s' := Next(s, EdgeRetention(policy, reference));
    var expired := HistorianStore.Expired(RowsOf(s.edge, t), HistorianStore.CutoffOf(policy, reference, t));
    InvNext(s.past.links[t], Delete(expired));
    assert s'.past.links[t] == CursorProtocol.Next(s.past.links[t], Delete(expired));
    assert RowsOf(s'.edge, t) == RowsOf(s.edge, t) - expired;
    StoredFrame(s.replica, s'.replica, s.source.id, t, s.past.links[t].mirror, s.past, s'.past);
  }

  lemma OkAfterEdgeRetention(s: System, policy: HistorianStore.Retention, reference: int)
    requires SystemOk(s) && policy.enabled
    ensures SystemOk(Next(s, EdgeRetention(policy, reference)))
  {
    var s' := Next(s, EdgeRetention(policy, reference));
    forall t: Table
      ensures TableOk(s', t)
    {
      assert TableOk(s, t);
      TableOkAfterEdgeRetention(s, policy, reference, t);
    }
    SentKept(s, s', {});
  }

  lemma ReplyOk(s: System, table: Table, after: Position, limit: nat, batch: Batch)
    requires SystemOk(s) && Enabled(s, Reply(table, after, limit, batch))
    ensures TableOk(Next(s, Reply(table, after, limit, batch)), table)
    ensures BatchOk(Next(s, Reply(table, after, limit, batch)), batch)
  {
    var s' := Next(s, Reply(table, after, limit, batch));
    assert TableOk(s, table);
    InvNext(s.past.links[table], Serve(PageOf(batch), limit));
    StoredFrame(s.replica, s'.replica, s.source.id, table, s.past.links[table].mirror, s.past, s'.past);
    forall r | r in batch.rows && r.FastRow?
      ensures exists item :: item in batch.streams && item.id == r.streamId
    {
      assert table == FastSample && s.edge.fast[KeyOf(r)] == r;
      assert StreamItem(r.streamId, s.edge.streams[r.streamId]) in batch.streams;
    }
  }

  lemma TablesAfterReply(s: System, table: Table, after: Position, limit: nat, batch: Batch)
    requires SystemOk(s) && Enabled(s, Reply(table, after, limit, batch))
    ensures TablesOk(Next(s, Reply(table, after, limit, batch)))
  {
    var s' := Next(s, Reply(table, after, limit, batch));
    ReplyOk(s, table, after, limit, batch);
    forall t: Table
      ensures TableOk(s', t)
    {
      assert TableOk(s, t);
      if t != table {
        UntouchedOk(s, s', t);
      }
    }
  }

  /** A served page of events ends at an id already given. */
  lemma EventsAfterReply(s: System, after: Position, limit: nat, batch: Batch)
    requires SystemOk(s) && Enabled(s, Reply(Event, after, limit, batch))
    ensures batch.cursor.key < s.edge.nextEvent
  {
    assert TableOk(s, Event);
    var link := s.past.links[Event];
    if batch.rows != [] {
      var last := batch.rows[|batch.rows| - 1];
      assert last in batch.rows && link.edge[KeyOf(last)] == last;
    }
  }

  lemma SentAfterReply(s: System, table: Table, after: Position, limit: nat, batch: Batch)
    requires SentOk(s) && table in s.past.links && batch.table == Some(table)
    requires BatchOk(Next(s, Reply(table, after, limit, batch)), batch)
    ensures SentOk(Next(s, Reply(table, after, limit, batch)))
  {
    assert WasSent({batch}, table, PageOf(batch));
    SentKept(s, Next(s, Reply(table, after, limit, batch)), {batch});
  }

  lemma OkAfterReply(s: System, table: Table, after: Position, limit: nat, batch: Batch)
    requires SystemOk(s) && Enabled(s, Reply(table, after, limit, batch))
    ensures SystemOk(Next(s, Reply(table, after, limit, batch)))
  {
    TablesAfterReply(s, table, after, limit, batch);
    ReplyOk(s, table, after, limit, batch);
    SentAfterReply(s, table, after, limit, batch);
    if table == Event {
      EventsAfterReply(s, after, limit, batch);
    }
  }

  lemma OwnRowsAfterImport(s: System, batch: Batch, stamp: int)
    requires BatchOk(s, batch) && Commits(s, batch, stamp)
    ensures var s', t := Next(s, Import(batch, stamp)), batch.table.value;
            && t in s'.past.links && s'.past.links[t] == Delivered(s.past.links[t], PageOf(batch))
            && s'.source == s.source && s'.edge == s.edge && s'.layout == s.layout
            && CursorOf(s'.replica, s.source.id, t) == Later(s.past.links[t].cursor, batch.cursor)
            && (s.past.links[t].cursor == CursorOf(s.replica, s.source.id, t) ==>
                  Stored(s'.replica, s.source.id, t, s'.past.links[t].mirror, s'.past))
  {
    var s', t := Next(s, Import(batch, stamp)), batch.table.value;
    var past := PlaceRows(s.past, t, s.replica.nextEvent, s.past.links[t].cursor, batch.rows);
    if s.past.links[t].cursor == CursorOf(s.replica, s.source.id, t) {
      StoredFrame(s'.replica, s'.replica, s.source.id, t, s'.past.links[t].mirror, past, s'.past);
    }
  }

  lemma OwnTableAfterImport(s: System, batch: Batch, stamp: int)
    requires SystemOk(s) && batch in s.sent && BatchOk(s, batch) && Commits(s, batch, stamp) && NonNegative(batch.cursor)
    ensures TableOk(Next(s, Import(batch, stamp)), batch.table.value)
  {
    var t := batch.table.value;
    assert TableOk(s, t);
    InvNext(s.past.links[t], Deliver(PageOf(batch)));
    OwnRowsAfterImport(s, batch, stamp);
  }

  lemma OtherTableAfterImport(s: System, batch: Batch, stamp: int, t: Table)
    requires TableOk(s, t) && BatchOk(s, batch) && Commits(s, batch, stamp)
    requires t != batch.table.value
    ensures TableOk(Next(s, Import(batch, stamp)), t)
  {
    var s' := Next(s, Import(batch, stamp));
    assert RowsOf(s'.replica, t) == RowsOf(s.replica, t);
    UntouchedOk(s, s', t);
  }

  lemma TablesAfterImport(s: System, batch: Batch, stamp: int)
    requires SystemOk(s) && batch in s.sent && BatchOk(s, batch) && Commits(s, batch, stamp) && NonNegative(batch.cursor)
    ensures TablesOk(Next(s, Import(batch, stamp)))
  {
    forall t: Table
      ensures TableOk(Next(s, Import(batch, stamp)), t)
    {
      if t == batch.table.value {
        OwnTableAfterImport(s, batch, stamp);
      } else {
        OtherTableAfterImport(s, batch, stamp, t);
      }
    }
  }

  lemma OkAfterImport(s: System, batch: Batch, stamp: int)
    requires SystemOk(s) && batch in s.sent
    ensures SystemOk(Next(s, Import(batch, stamp)))
  {
    ImportCommits(s, batch, stamp);
    EndIsNonNegative(s, batch);
    TablesAfterImport(s, batch, stamp);
    SentKept(s, Next(s, Import(batch, stamp)), {});
  }

  lemma EventsAfterReplicaEvent(s: System, body: EventBody)
    requires TableOk(s, Event)
    ensures TableOk(Next(s, ReplicaEvent(body)), Event)
  {
    var s' := Next(s, ReplicaEvent(body));
    var mirror := s.past.links[Event].mirror;
    forall r | r in mirror
      ensures EventPlaced(s'.replica, mirror[r], r, s'.past)
    {
      assert EventPlaced(s.replica, mirror[r], r, s.past);
    }
  }

  lemma OkAfterReplicaEvent(s: System, body: EventBody)
    requires SystemOk(s)
    ensures SystemOk(Next(s, ReplicaEvent(body)))
  {
    var s' := Next(s, ReplicaEvent(body));
    forall t: Table
      ensures TableOk(s', t)
    {
      assert TableOk(s, t);
      if t == Event {
        EventsAfterReplicaEvent(s, body);
      } else {
        UntouchedOk(s, s', t);
      }
    }
    SentKept(s, s', {});
  }

  lemma OkAfterReplicaRetention(s: System, policy: HistorianStore.Retention, reference: int)
    requires SystemOk(s)
    ensures SystemOk(Next(s, ReplicaRetention(policy, reference)))
  {
    var s' := Next(s, ReplicaRetention(policy, reference));
    forall t: Table
      ensures TableOk(s', t)
    {
      assert TableOk(s, t);
      if policy.enabled {
        StoredAfterRetention(s, t, policy, reference);
      }
    }
    SentKept(s, s', {});
  }

  lemma StoredAfterRetention(s: System, t: Table, policy: HistorianStore.Retention, reference: int)
    requires TableOk(s, t) && policy.enabled
    ensures var s' := Next(s, ReplicaRetention(policy, reference));
            Stored(s'.replica, s.source.id, t, s.past.links[t].mirror, s'.past)
  {
    if t == Event {
      EventsAfterRetention(s, policy, reference);
    } else {
      RowsAfterRetention(s, t, policy, reference);
    }
  }

  lemma RowsAfterRetention(s: System, t: Table, policy: HistorianStore.Retention, reference: int)
    requires TableOk(s, t) && t != Event && policy.enabled
    ensures StoredRows(HistorianStore.Retained(s.replica, policy, reference), s.source.id, t, s.past.links[t].mirror,
                       RaiseFloors(s.past.floors, policy, reference))
  {
    var mirror, rows := s.past.links[t].mirror, RowsOf(s.replica, t);
    var cutoff := HistorianStore.CutoffOf(policy, reference, t);
    var floors := RaiseFloors(s.past.floors, policy, reference);
    assert floors[t] == RaisedFloor(s.past.floors, policy, reference, t);
    var kept := RowsOf(HistorianStore.Retained(s.replica, policy, reference), t);
    assert kept == rows - HistorianStore.Expired(rows, cutoff);
    forall k | k in mirror && Kept(floors, mirror[k])
      ensures k in kept
    {
      assert k in rows && AgeOf(rows[k]) == AgeOf(mirror[k]);
    }
  }

  lemma EventsAfterRetention(s: System, policy: HistorianStore.Retention, reference: int)
    requires TableOk(s, Event) && policy.enabled
    ensures var s' := Next(s, ReplicaRetention(policy, reference));
            StoredEvents(s'.replica, s.past.links[Event].mirror, s'.past)
  {
    var s' := Next(s, ReplicaRetention(policy, reference));
    var mirror := s.past.links[Event].mirror;
    var cutoff := HistorianStore.CutoffOf(policy, reference, Event);
    assert s'.past.floors[Event] == RaisedFloor(s.past.floors, policy, reference, Event);
    assert s'.replica.event == s.replica.event - HistorianStore.Expired(s.replica.event, cutoff);
    forall r | r in mirror
      ensures EventPlaced(s'.replica, mirror[r], r, s'.past)
    {
      assert EventPlaced(s.replica, mirror[r], r, s.past);
    }
  }

  lemma OkAfter(s: System, step: Step)
    requires SystemOk(s) && Enabled(s, step)
    ensures SystemOk(Next(s, step))
  {
    match step
    case EdgeWrite(row) => OkAfterEdgeWrite(s, row);
    case EdgeRetention(policy, reference) =>
      if policy.enabled {
        OkAfterEdgeRetention(s, policy, reference);
      }
    case Reply(table, after, limit, batch) => OkAfterReply(s, table, after, limit, batch);
    case Import(batch, stamp) => OkAfterImport(s, batch, stamp);
    case ReplicaEvent(body) => OkAfterReplicaEvent(s, body);
    case ReplicaRetention(policy, reference) => OkAfterReplicaRetention(s, policy, reference);
    case _ =>
      var s' := Next(s, step);
      forall t: Table
        ensures TableOk(s', t)
      {
        assert TableOk(s, t);
        UntouchedOk(s, s', t);
      }
      SentKept(s, s', {});
  }

  lemma {:induction false} OkThroughout(states: seq<System>, steps: seq<Step>, n: nat)
    requires IsRun(states, steps) && n < |states|
    ensures SystemOk(states[n])
    decreases n
  {
    if n == 0 {
      OkInitially(states[0]);
    } else {
      OkThroughout(states, steps, n - 1);
      OkAfter(states[n - 1], steps[n - 1]);
    }
  }

  lemma ReachableOk(s: System)
    requires Reachable(s)
    ensures SystemOk(s)
  {
    var states, steps :| IsRun(states, steps) && states[|steps|] == s;
    OkThroughout(states, steps, |steps|);
  }

  // ------------------------------------------------------------ main theorems

  /** Sequence and payload survive; the stream is renumbered by an injective map. */
  ghost predicate FastAgrees(s: System) {
    && Filed(FastSample, s.edge.fast)
    && (forall k :: k in s.edge.fast && AtOrBefore(Position(k, 0), CursorOf(s.replica, s.source.id, FastSample))
                    && Kept(s.past.floors, s.edge.fast[k]) ==>
                      && k in s.replica.fast
                      && (s.source.id, s.edge.fast[k].streamId) in s.replica.links
                      && s.replica.fast[k] == s.edge.fast[k].(streamId := s.replica.links[(s.source.id, s.edge.fast[k].streamId)]))
    && (forall p, q :: p in s.replica.links && q in s.replica.links && s.replica.links[p] == s.replica.links[q] ==> p == q)
  }

  ghost predicate PlatformAgrees(s: System) {
    forall k :: k in s.edge.platform && AtOrBefore(Position(k, 0), CursorOf(s.replica, s.source.id, PlatformSample))
                && Kept(s.past.floors, s.edge.platform[k]) ==>
                  k in s.replica.platform && s.replica.platform[k] == s.edge.platform[k]
  }

  /** However often the edge rewrote a bucket, its current content is here. */
  ghost predicate RollupsAgree(s: System) {
    forall b :: b in s.edge.rollup
                && AtOrBefore(PositionOf(s.edge.rollup[b]), CursorOf(s.replica, s.source.id, MinuteRollup))
                && Kept(s.past.floors, s.edge.rollup[b]) ==>
                  b in s.replica.rollup && s.replica.rollup[b] == s.edge.rollup[b]
  }

  /** Each edge event has exactly one imported copy. */
  ghost predicate EventsAgree(s: System) {
    && Filed(Event, s.edge.event)
    && (forall id :: id in s.edge.event && AtOrBefore(Position(id, 0), CursorOf(s.replica, s.source.id, Event))
                     && Kept(s.past.floors, s.edge.event[id]) ==>
                       && id in s.past.places.local && s.past.places.local[id] in s.replica.event
                       && s.replica.event[s.past.places.local[id]] == EventRow(s.past.places.local[id], s.edge.event[id].body))
    && (forall i :: i in s.replica.event && i !in s.past.locals ==>
                      && i in s.past.places.remote && s.past.places.remote[i] in s.past.places.local
                      && s.past.places.local[s.past.places.remote[i]] == i)
  }

  /** The replica holds no row that the edge never had. */
  ghost predicate NothingInvented(s: System) {
    && AllTables(s.past.links)
    && (forall k :: k in s.replica.fast ==> FastFromEdge(s, s.replica.fast[k]))
    && (forall k :: k in s.replica.platform ==> s.replica.platform[k] in s.past.links[PlatformSample].ever)
    && (forall b :: b in s.replica.rollup ==> s.replica.rollup[b] in s.past.links[MinuteRollup].ever)
    && (forall i :: i in s.replica.event && i !in s.past.locals ==> EventFromEdge(s, i))
  }

  /** An edge sample under its local stream. */
  ghost predicate FastFromEdge(s: System, row: Row)
    requires AllTables(s.past.links)
  {
    exists r :: r in s.past.links[FastSample].ever && r.FastRow? && (s.source.id, r.streamId) in s.replica.links
                && row == r.(streamId := s.replica.links[(s.source.id, r.streamId)])
  }

  ghost predicate EventFromEdge(s: System, i: int)
    requires AllTables(s.past.links) && i in s.replica.event
  {
    exists r :: r in s.past.links[Event].ever && r.EventRow? && s.replica.event[i] == EventRow(i, r.body)
  }

  ghost predicate AllTables(links: map<Table, Link>) {
    forall t: Table :: t in links
  }

  lemma FastAgreement(s: System)
    requires SystemOk(s)
    ensures FastAgrees(s)
  {
    assert TableOk(s, FastSample);
  }

  lemma KeyedAgreement(s: System)
    requires SystemOk(s)
    ensures PlatformAgrees(s) && RollupsAgree(s)
  {
    assert TableOk(s, PlatformSample) && TableOk(s, MinuteRollup);
  }

  lemma EventAgreement(s: System)
    requires SystemOk(s)
    ensures EventsAgree(s)
  {
    assert TableOk(s, Event);
    var mirror := s.past.links[Event].mirror;
    forall id | id in s.edge.event && AtOrBefore(Position(id, 0), CursorOf(s.replica, s.source.id, Event))
                && Kept(s.past.floors, s.edge.event[id])
      ensures id in mirror && mirror[id] == s.edge.event[id] && EventPlaced(s.replica, mirror[id], id, s.past)
    {
      assert KeyOf(s.edge.event[id]) == id;
    }
  }

  lemma LinksOfAllTables(s: System)
    requires TablesOk(s)
    ensures AllTables(s.past.links)
  {
    assert forall t: Table :: TableOk(s, t) ==> t in s.past.links;
  }

  lemma FastProvenance(s: System, k: int)
    requires AllTables(s.past.links) && TableOk(s, FastSample) && k in s.replica.fast
    ensures FastFromEdge(s, s.replica.fast[k])
  {
    assert s.past.links[FastSample].mirror[k] in s.past.links[FastSample].ever;
  }

  lemma KeyedProvenance(s: System)
    requires AllTables(s.past.links) && TableOk(s, PlatformSample) && TableOk(s, MinuteRollup)
    ensures forall k :: k in s.replica.platform ==> s.replica.platform[k] in s.past.links[PlatformSample].ever
    ensures forall b :: b in s.replica.rollup ==> s.replica.rollup[b] in s.past.links[MinuteRollup].ever
  {
    forall k | k in s.replica.platform
      ensures s.replica.platform[k] in s.past.links[PlatformSample].ever
    {
      assert s.replica.platform[k] == s.past.links[PlatformSample].mirror[k];
    }
    forall b | b in s.replica.rollup
      ensures s.replica.rollup[b] in s.past.links[MinuteRollup].ever
    {
      assert s.replica.rollup[b] == s.past.links[MinuteRollup].mirror[b];
    }
  }

  lemma EventProvenance(s: System, i: int)
    requires AllTables(s.past.links) && TableOk(s, Event) && i in s.replica.event && i !in s.past.locals
    ensures EventFromEdge(s, i)
  {
    var mirror := s.past.links[Event].mirror;
    var id := s.past.places.remote[i];
    assert EventPlaced(s.replica, mirror[id], id, s.past);
    assert mirror[id] in s.past.links[Event].ever;
  }

  lemma Provenance(s: System)
    requires SystemOk(s)
    ensures NothingInvented(s)
  {
    LinksOfAllTables(s);
    assert TableOk(s, FastSample) && TableOk(s, PlatformSample) && TableOk(s, MinuteRollup) && TableOk(s, Event);
    forall k | k in s.replica.fast ensures FastFromEdge(s, s.replica.fast[k]) { FastProvenance(s, k); }
    KeyedProvenance(s);
    forall i | i in s.replica.event && i !in s.past.locals ensures EventFromEdge(s, i) { EventProvenance(s, i); }
  }

  /** In every state of every run - pages lost, repeated, reordered or late,
      the replica restarted anywhere, either side pruning - edge and replica
      agree up to the cursor and the replica invents nothing. */
  lemma ReplicationAgreement(states: seq<System>, steps: seq<Step>, n: nat)
    requires IsRun(states, steps) && n < |states|
    ensures FastAgrees(states[n]) && PlatformAgrees(states[n]) && RollupsAgree(states[n]) && EventsAgree(states[n])
    ensures NothingInvented(states[n])
  {
    OkThroughout(states, steps, n);
    FastAgreement(states[n]);
    KeyedAgreement(states[n]);
    EventAgreement(states[n]);
    Provenance(states[n]);
  }

  /** No page ever sent can make an import fail, whenever it arrives. */
  lemma EverySentPageImports(states: seq<System>, steps: seq<Step>, n: nat, batch: Batch, stamp: int)
    requires IsRun(states, steps) && n < |states| && batch in states[n].sent
    ensures ImportBatch(states[n].replica, states[n].layout, batch, states[n].pinned, stamp).Success?
  {
    OkThroughout(states, steps, n);
    ImportCommits(states[n], batch, stamp);
  }

  /** What an import leaves behind. */
  lemma AfterImport(s: System, batch: Batch, stamp: int)
    requires SystemOk(s) && batch in s.sent
    ensures BatchOk(s, batch)
    ensures var s', t := Next(s, Import(batch, stamp)), batch.table.value;
            && ImportBatch(s.replica, s.layout, batch, s.pinned, stamp).Success?
            && s'.replica == ImportBatch(s.replica, s.layout, batch, s.pinned, stamp).value.0
            && s'.source == s.source && s'.edge == s.edge && s'.layout == s.layout && s'.sent == s.sent
            && s'.pinned == s.source.id
            && s'.past.links == s.past.links[t := Delivered(s.past.links[t], PageOf(batch))]
            && forall u :: CursorOf(s'.replica, s.source.id, u)
                           == if u == t then Later(CursorOf(s.replica, s.source.id, t), batch.cursor)
                              else CursorOf(s.replica, s.source.id, u)
  {
    ImportCommits(s, batch, stamp);
    assert TableOk(s, batch.table.value);
    forall u
      ensures CursorOf(Next(s, Import(batch, stamp)).replica, s.source.id, u)
              == if u == batch.table.value then Later(CursorOf(s.replica, s.source.id, batch.table.value), batch.cursor)
                 else CursorOf(s.replica, s.source.id, u)
    {
      ImportMovesCursor(s, batch, stamp, u);
    }
  }

  lemma ImportMovesCursor(s: System, batch: Batch, stamp: int, t: Table)
    requires BatchOk(s, batch) && Commits(s, batch, stamp) && TableOk(s, batch.table.value)
    ensures CursorOf(Next(s, Import(batch, stamp)).replica, s.source.id, t)
            == var before := CursorOf(s.replica, s.source.id, t);
               if t == batch.table.value then Later(before, batch.cursor) else before
  {
  }

  lemma StepAdvances(s: System, step: Step, t: Table)
    requires SystemOk(s) && Enabled(s, step)
    ensures AtOrBefore(CursorOf(s.replica, s.source.id, t), CursorOf(Next(s, step).replica, s.source.id, t))
  {
    if step.Import? {
      ImportCommits(s, step.batch, step.stamp);
      assert TableOk(s, step.batch.table.value);
      ImportMovesCursor(s, step.batch, step.stamp, t);
    }
  }

  lemma SourceStays(s: System, step: Step)
    ensures Next(s, step).source == s.source
  {
  }

  lemma StepOfRunAdvances(states: seq<System>, steps: seq<Step>, i: nat, t: Table)
    requires IsRun(states, steps) && i < |steps|
    ensures states[i + 1].source == states[i].source
    ensures AtOrBefore(CursorOf(states[i].replica, states[i].source.id, t),
                       CursorOf(states[i + 1].replica, states[i].source.id, t))
  {
    OkThroughout(states, steps, i);
    SourceStays(states[i], steps[i]);
    StepAdvances(states[i], steps[i], t);
  }

  ghost predicate Advances(a: System, b: System, t: Table) {
    a.source == b.source && AtOrBefore(CursorOf(a.replica, a.source.id, t), CursorOf(b.replica, a.source.id, t))
  }

  lemma {:induction false} ChainAdvances(states: seq<System>, m: nat, n: nat, t: Table)
    requires m <= n < |states|
    requires forall i :: 0 <= i < |states| - 1 ==> Advances(states[i], states[i + 1], t)
    ensures Advances(states[m], states[n], t)
    decreases n
  {
    if m < n {
      ChainAdvances(states, m, n - 1, t);
      assert Advances(states[n - 1], states[n - 1 + 1], t);
    }
  }

  /** No cursor ever moves back, whatever happens in between. */
  lemma CursorNeverFalls(states: seq<System>, steps: seq<Step>, m: nat, n: nat, t: Table)
    requires IsRun(states, steps) && m <= n < |states|
    ensures Advances(states[m], states[n], t)
  {
    forall i | 0 <= i < |states| - 1
      ensures Advances(states[i], states[i + 1], t)
    {
      StepOfRunAdvances(states, steps, i, t);
    }
    ChainAdvances(states, m, n, t);
  }
}
