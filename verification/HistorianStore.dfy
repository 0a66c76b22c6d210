/** The historian's store: the methods that read and change the database. */
module HistorianStore {
  import opened Wrappers
  import opened HistorianTables
  import CursorProtocol
  import opened ReplicaImport

  const MAX_REPLICA_BATCH_SIZE := 2000
  const DAY_US := 86400 * 1_000_000

  datatype RequestError = CursorNegative | LimitOutOfRange

  datatype Retention = Retention(enabled: bool, rawDays: nat, platformDays: nat, rollupDays: nat, eventDays: nat)

  function CutoffOf(policy: Retention, reference: int, table: Table): int {
    reference - DAY_US * match table
                         case FastSample => policy.rawDays
                         case PlatformSample => policy.platformDays
                         case MinuteRollup => policy.rollupDays
                         case Event => policy.eventDays
  }

  function Expired(rows: Rows, cutoff: int): set<int> {
    set k | k in rows && AgeOf(rows[k]) < cutoff
  }

  function Retained(db: Database, policy: Retention, reference: int): Database {
    db.(fast := db.fast - Expired(db.fast, CutoffOf(policy, reference, FastSample)),
        platform := db.platform - Expired(db.platform, CutoffOf(policy, reference, PlatformSample)),
        rollup := db.rollup - Expired(db.rollup, CutoffOf(policy, reference, MinuteRollup)),
        event := db.event - Expired(db.event, CutoffOf(policy, reference, Event)))
  }

  /** The first time at or after `time` that no row has yet. */
  function FreeTime(rows: Rows, time: int): (free: int)
    ensures time <= free && free !in rows
    ensures forall t :: time <= t < free ==> t in rows
    decreases |set k | k in rows && k >= time|
  {
    if time !in rows then time
    else
      assert (set k | k in rows && k >= time) == (set k | k in rows && k >= time + 1) + {time};
      FreeTime(rows, time + 1)
  }

  /** The streams of the page's samples and no others, each once, in id order. */
  ghost predicate ListsStreams(db: Database, rows: seq<Row>, items: seq<StreamItem>) {
    && (forall item :: item in items ==>
          && item.id in db.streams && db.streams[item.id] == item.row
          && exists r :: r in rows && r.FastRow? && r.streamId == item.id)
    && (forall i, j :: 0 <= i < j < |items| ==> items[i].id < items[j].id)
  }

  /** The request was answered from this database. */
  ghost predicate Answers(db: Database, source: Source, table: Table, after: Position, limit: nat, batch: Batch) {
    && batch.version == 1 && batch.schema == SCHEMA_VERSION
    && batch.source == Some(source)
    && batch.table == Some(table)
    && batch.after == after
    && CursorProtocol.IsPage(RowsOf(db, table), CursorProtocol.Page(after, batch.cursor, batch.rows), limit)
    && batch.hasMore == (|CursorProtocol.Pending(RowsOf(db, table), after)| > limit)
    && ListsStreams(db, batch.rows, batch.streams)
    && (table == FastSample ==>
          forall r :: r in batch.rows && r.FastRow? && r.streamId in db.streams ==>
                        StreamItem(r.streamId, db.streams[r.streamId]) in batch.streams)
  }

  // ------------------------------------------------- what recording comes to

  /** A stream opened under the next id. */
  function Begun(db: Database, bootId: string, sequence: Option<int>, reason: string, now: int): Database {
    db.(streams := db.streams[db.nextStream := StreamRow(if bootId == "" then "unknown" else bootId, now, None, sequence, sequence, reason)],
        nextStream := db.nextStream + 1)
  }

  /** A stream that is still open gets its end time. */
  function Ended(db: Database, id: int, now: int): Database {
    if id in db.streams && db.streams[id].endedUs.None?
    then db.(streams := db.streams[id := db.streams[id].(endedUs := Some(now))])
    else db
  }

  function FastRecorded(db: Database, receiveTime: int, streamId: int, sequence: Option<int>, payload: Blob): Database
    requires streamId in db.streams
  {
    var time := FreeTime(db.fast, receiveTime);
    db.(fast := db.fast[time := FastRow(time, streamId, sequence, payload)],
        streams := db.streams[streamId := db.streams[streamId].(lastSequence := sequence)])
  }

  function PlatformRecorded(db: Database, receiveTime: int, payload: Blob): Database {
    var time := FreeTime(db.platform, receiveTime);
    db.(platform := db.platform[time := PlatformRow(time, payload)])
  }

  function EventRecorded(db: Database, body: EventBody): Database {
    db.(event := db.event[db.nextEvent := EventRow(db.nextEvent, body)], nextEvent := db.nextEvent + 1)
  }

  function RollupWritten(db: Database, bucket: int, sampleCount: int, payload: Blob, now: int): Database {
    db.(rollup := db.rollup[bucket := RollupRow(bucket, sampleCount, payload, now)])
  }

  class HistorianStore {
    var db: Database
    const layout: Layout
    const retention: Retention

    constructor (layout: Layout, retention: Retention)
      ensures db == EMPTY_DATABASE && this.layout == layout && this.retention == retention
    {
      this.layout, this.retention := layout, retention;
      db := EMPTY_DATABASE;
    }

    method BeginStream(bootId: string, sequence: Option<int>, reason: string, now: int) returns (id: int)
      modifies this
      ensures id == old(db.nextStream) && db == Begun(old(db), bootId, sequence, reason, now)
    {
      id := db.nextStream;
      var boot := if bootId == "" then "unknown" else bootId;
      db := db.(streams := db.streams[id := StreamRow(boot, now, None, sequence, sequence, reason)],
                nextStream := id + 1);
    }

    method EndStream(id: int, now: int)
      modifies this
      ensures db == Ended(old(db), id, now)
    {
      if id in db.streams && db.streams[id].endedUs.None? {
        db := db.(streams := db.streams[id := db.streams[id].(endedUs := Some(now))]);
      }
    }

    /** A sample whose receive time is taken moves to the next free microsecond. */
    method RecordFast(receiveTime: int, streamId: int, sequence: Option<int>, payload: Blob) returns (time: int)
      requires streamId in db.streams
      modifies this
      ensures time == FreeTime(old(db.fast), receiveTime)
      ensures db == FastRecorded(old(db), receiveTime, streamId, sequence, payload)
    {
      time := receiveTime;
      while time in db.fast
        invariant receiveTime <= time
        invariant db == old(db)
        invariant FreeTime(db.fast, receiveTime) == FreeTime(db.fast, time)
        decreases FreeTime(db.fast, receiveTime) - time
      {
        time := time + 1;
      }
      db := db.(fast := db.fast[time := FastRow(time, streamId, sequence, payload)]);
      db := db.(streams := db.streams[streamId := db.streams[streamId].(lastSequence := sequence)]);
    }

    method RecordPlatform(receiveTime: int, payload: Blob) returns (time: int)
      modifies this
      ensures time == FreeTime(old(db.platform), receiveTime)
      ensures db == PlatformRecorded(old(db), receiveTime, payload)
    {
      time := receiveTime;
      while time in db.platform
        invariant receiveTime <= time
        invariant db == old(db)
        invariant FreeTime(db.platform, receiveTime) == FreeTime(db.platform, time)
        decreases FreeTime(db.platform, receiveTime) - time
      {
        time := time + 1;
      }
      db := db.(platform := db.platform[time := PlatformRow(time, payload)]);
    }

    method RecordEvent(body: EventBody)
      modifies this
      ensures db == EventRecorded(old(db), body)
    {
      db := db.(event := db.event[db.nextEvent := EventRow(db.nextEvent, body)], nextEvent := db.nextEvent + 1);
    }

    method WriteRollup(bucket: int, sampleCount: int, payload: Blob, now: int)
      modifies this
      ensures db == RollupWritten(old(db), bucket, sampleCount, payload, now)
    {
      db := db.(rollup := db.rollup[bucket := RollupRow(bucket, sampleCount, payload, now)]);
    }

    method ApplyRetention(reference: int)
      modifies this
      ensures db == if retention.enabled then Retained(old(db), retention, reference) else old(db)
    {
      if !retention.enabled {
        return;
      }
      var tables := [FastSample, PlatformSample, MinuteRollup, Event];
      for i := 0 to |tables|
        invariant db.fast == old(db.fast) - (if i > 0 then Expired(old(db.fast), CutoffOf(retention, reference, FastSample)) else {})
        invariant db.platform == old(db.platform) - (if i > 1 then Expired(old(db.platform), CutoffOf(retention, reference, PlatformSample)) else {})
        invariant db.rollup == old(db.rollup) - (if i > 2 then Expired(old(db.rollup), CutoffOf(retention, reference, MinuteRollup)) else {})
        invariant db.event == old(db.event) - (if i > 3 then Expired(old(db.event), CutoffOf(retention, reference, Event)) else {})
        invariant db == old(db).(fast := db.fast, platform := db.platform, rollup := db.rollup, event := db.event)
      {
        var rows := RowsOf(db, tables[i]);
        db := WithRows(db, tables[i], rows - Expired(rows, CutoffOf(retention, reference, tables[i])));
      }
    }

    method ReplicationCursor(source: string, table: Table) returns (position: Position)
      ensures position == CursorOf(db, source, table)
    {
      if (source, table) in db.cursors {
        position := db.cursors[(source, table)].position;
      } else {
        position := Position(0, 0);
      }
    }

    /** SELECT ... WHERE position > after ORDER BY position LIMIT limit */
    method SelectAfter(table: Table, after: Position, limit: nat) returns (rows: seq<Row>)
      requires Filed(table, RowsOf(db, table))
      ensures CursorProtocol.IsSelection(RowsOf(db, table), after, limit, rows)
    {
      var stored := RowsOf(db, table);
      var pending := CursorProtocol.Pending(stored, after);
      var rest := pending;
      rows := [];
      while |rows| < limit && rest != {}
        invariant rest <= pending
        invariant |rows| + |rest| == |pending| && |rows| <= limit
        invariant CursorProtocol.Ascending(rows)
        invariant forall r :: r in rows ==> KeyOf(r) in pending && KeyOf(r) !in rest && stored[KeyOf(r)] == r
        invariant forall k :: k in pending && k !in rest ==> stored[k] in rows
        invariant forall r, k :: r in rows && k in rest ==> Before(PositionOf(r), PositionOf(stored[k]))
        decreases |rest|
      {
        ghost var first := CursorProtocol.LeastExists(stored, rest);
        var least :| least in rest && forall k :: k in rest ==> AtOrBefore(PositionOf(stored[least]), PositionOf(stored[k]));
        forall k | k in rest - {least}
          ensures Before(PositionOf(stored[least]), PositionOf(stored[k]))
        {
          assert AtOrBefore(PositionOf(stored[least]), PositionOf(stored[k]));
          PositionsDiffer(table, stored, least, k);
        }
        rows := rows + [stored[least]];
        rest := rest - {least};
      }
      assert rest != {} ==> |rows| == limit;
    }

    /** SELECT ... FROM stream WHERE id IN (...) ORDER BY id */
    method SelectStreams(rows: seq<Row>) returns (items: seq<StreamItem>)
      ensures ListsStreams(db, rows, items)
      ensures forall r :: r in rows && r.FastRow? && r.streamId in db.streams ==>
                            StreamItem(r.streamId, db.streams[r.streamId]) in items
    {
      var wanted := set r | r in rows && r.FastRow? && r.streamId in db.streams :: r.streamId;
      ghost var all := wanted;
      items := [];
      while wanted != {}
        invariant wanted <= all
        invariant forall item :: item in items ==> item.id in all && db.streams[item.id] == item.row
        invariant forall id :: id in all ==> id in wanted || StreamItem(id, db.streams[id]) in items
        invariant forall i, id :: 0 <= i < |items| && id in wanted ==> items[i].id < id
        invariant forall i, j :: 0 <= i < j < |items| ==> items[i].id < items[j].id
        decreases |wanted|
      {
        ghost var first := CursorProtocol.LeastId(wanted);
        var id :| id in wanted && forall k :: k in wanted ==> id <= k;
        items := items + [StreamItem(id, db.streams[id])];
        wanted := wanted - {id};
      }
    }

    /** One page beyond the requested position.  One row more than the limit is
        read, to learn whether more follow. */
    method ReplicationBatch(source: Source, table: Table, after: Position, limit: int)
      returns (r: Result<Batch, RequestError>)
      requires Filed(table, RowsOf(db, table))
      ensures r.Failure? <==> after.key < 0 || after.tie < 0 || !(1 <= limit <= 2000)
      ensures r.Failure? ==> r.error == if after.key < 0 || after.tie < 0 then CursorNegative else LimitOutOfRange
      ensures r.Success? ==> Answers(db, source, table, after, limit, r.value)
    {
      if after.key < 0 || after.tie < 0 {
        return Failure(CursorNegative);
      }
      if !(1 <= limit <= MAX_REPLICA_BATCH_SIZE) {
        return Failure(LimitOutOfRange);
      }
      var selected := SelectAfter(table, after, limit + 1);
      var hasMore := |selected| > limit;
      var rows := if hasMore then selected[..limit] else selected;
      PrefixOfSelection(RowsOf(db, table), after, limit, selected, rows);
      var streams := [];
      if table == FastSample && rows != [] {
        streams := SelectStreams(rows);
      }
      var cursor := if rows == [] then after else PositionOf(rows[|rows| - 1]);
      r := Success(Batch(1, SCHEMA_VERSION, Some(source), Some(table), after, cursor, hasMore, streams, rows));
    }

    static lemma PrefixOfSelection(stored: Rows, after: Position, limit: nat, selected: seq<Row>, rows: seq<Row>)
      requires CursorProtocol.IsSelection(stored, after, limit + 1, selected)
      requires limit > 0
      requires rows == if |selected| > limit then selected[..limit] else selected
      ensures CursorProtocol.IsSelection(stored, after, limit, rows)
    {
      forall k | k in CursorProtocol.Pending(stored, after) && rows != []
                 && AtOrBefore(PositionOf(stored[k]), PositionOf(rows[|rows| - 1]))
        ensures stored[k] in rows
      {
        CursorProtocol.LastIsLatest(selected, rows[|rows| - 1]);
        assert stored[k] in selected;
        if |selected| > limit && stored[k] == selected[limit] {
          assert false;
        }
      }
    }

    /** Import one page and its cursor in one transaction: all of it, or, after
        any error, nothing. */
    method ImportReplicationBatch(batch: Batch, expectedSource: string, stamp: int) returns (r: Result<Report, Error>)
      modifies this
      ensures match ImportBatch(old(db), layout, batch, expectedSource, stamp)
              case Success((committed, report)) => r == Success(report) && db == committed
              case Failure(e) => r == Failure(e) && db == old(db)
    {
      var refusal := Refusal(batch, expectedSource);
      if refusal.Some? {
        return Failure(refusal.value);
      }
      var source, table := batch.source.value, batch.table.value;
      var begun := db;
      db := NoteSource(db, source, stamp);
      var current := ReplicationCursor(source.id, table);
      if table == FastSample {
        ImportEachStream(source.id, batch.streams);
      }
      ghost var ready := db;
      assert ready == Opened(begun, batch, stamp);

      var previous := NO_POSITION;
      var imported: nat, skipped: nat := 0, 0;
      for i := 0 to |batch.rows|
        invariant ImportRows(Progress(ready, NO_POSITION, 0, 0), source.id, layout, table, current, batch.rows)
               == ImportRows(Progress(db, previous, imported, skipped), source.id, layout, table, current, batch.rows[i..])
      {
        var row := batch.rows[i];
        assert batch.rows[i..][0] == row && batch.rows[i..][1..] == batch.rows[i + 1..];
        if TableOf(row) != table {
          db := begun;
          return Failure(RowInvalid);
        }
        var position := PositionOf(row);
        if AtOrBefore(position, previous) {
          db := begun;
          return Failure(RowsNotOrdered);
        }
        previous := position;
        if AtOrBefore(position, current) {
          skipped := skipped + 1;
          continue;
        }
        var stored := StoreRow(db, source.id, layout, row);
        if stored.Failure? {
          db := begun;
          return Failure(stored.error);
        }
        db := stored.value.0;
        if stored.value.1 {
          imported := imported + 1;
        } else {
          skipped := skipped + 1;
        }
      }
      assert batch.rows[|batch.rows|..] == [];
      if batch.rows != [] && batch.cursor != previous {
        db := begun;
        return Failure(CursorNotFinalRow);
      }
      var cursor := if Before(current, batch.cursor) then batch.cursor else current;
      db := db.(cursors := db.cursors[(source.id, table) := CursorRow(cursor, stamp)]);
      r := Success(Report(imported, skipped, cursor));
    }

    method ImportEachStream(source: string, items: seq<StreamItem>)
      modifies this
      ensures db == ImportStreams(old(db), source, items)
    {
      for i := 0 to |items|
        invariant ImportStreams(old(db), source, items) == ImportStreams(db, source, items[i..])
      {
        assert items[i..][0] == items[i] && items[i..][1..] == items[i + 1..];
        var item := items[i];
        if (source, item.id) in db.links {
          var local := db.links[(source, item.id)];
          db := db.(streams := db.streams[local := AsReplica(item.row)]);
        } else {
          var local := db.nextStream;
          db := db.(streams := db.streams[local := AsReplica(item.row)], nextStream := local + 1);
          db := db.(links := db.links[(source, item.id) := local]);
        }
      }
      assert items[|items|..] == [];
    }
  }
}
