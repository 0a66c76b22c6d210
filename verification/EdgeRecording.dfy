/** What the recorder's store methods do, as steps of the replication system, and
    what their ids are worth over whole runs. */
module EdgeRecording {
  import opened Wrappers
  import opened HistorianTables
  import CursorProtocol
  import opened ReplicationSystem
  import HistorianStore

  /** The wanted time lies beyond the cursor and every page served. */
  ghost predicate TimeIsClear(s: System, t: Table, time: int) {
    t in s.past.links && CursorProtocol.Clear(s.past.links[t], Position(time, 0))
  }

  /** Recording a fast sample on time is a write step at the first free microsecond,
      which is then on time too, and a note on its stream. */
  lemma RecordingFastIsAStep(s: System, receiveTime: int, streamId: int, sequence: Option<int>, payload: Blob)
    requires Reachable(s) && TimeIsClear(s, FastSample, receiveTime) && streamId in s.edge.streams
    requires Decodes(s.layout, FastRow(receiveTime, streamId, sequence, payload))
    ensures var time := HistorianStore.FreeTime(s.edge.fast, receiveTime);
            var write := EdgeWrite(FastRow(time, streamId, sequence, payload));
            var note := EdgeStream(streamId, s.edge.streams[streamId].(lastSequence := sequence));
            && Enabled(s, write) && Enabled(Next(s, write), note)
            && Next(Next(s, write), note).edge == HistorianStore.FastRecorded(s.edge, receiveTime, streamId, sequence, payload)
  {
    ReachableOk(s);
    assert TableOk(s, FastSample);
  }

  lemma RecordingPlatformIsAStep(s: System, receiveTime: int, payload: Blob)
    requires Reachable(s) && TimeIsClear(s, PlatformSample, receiveTime)
    requires Decodes(s.layout, PlatformRow(receiveTime, payload))
    ensures var write := EdgeWrite(PlatformRow(HistorianStore.FreeTime(s.edge.platform, receiveTime), payload));
            Enabled(s, write) && Next(s, write).edge == HistorianStore.PlatformRecorded(s.edge, receiveTime, payload)
  {
  }

  /** Recording an event is a write step whatever the clock says. */
  lemma RecordingEventIsAStep(s: System, body: EventBody)
    requires Reachable(s) && body.details.ObjectText?
    ensures var row := EventRow(s.edge.nextEvent, body);
            && Enabled(s, EdgeWrite(row)) && OnTime(s, row)
            && Next(s, EdgeWrite(row)).edge == HistorianStore.EventRecorded(s.edge, body)
  {
    ReachableOk(s);
    EventsAreOnTime(s, EventRow(s.edge.nextEvent, body));
  }

  /** Rewriting a bucket on time is a write step; the new version lies after every
      version of it that any page or the replica holds. */
  lemma WritingRollupIsAStep(s: System, bucket: nat, sampleCount: int, payload: Blob, now: int)
    requires Reachable(s) && payload.Encoded?
    requires OnTime(s, RollupRow(bucket, sampleCount, payload, now))
    ensures var row := RollupRow(bucket, sampleCount, payload, now);
            && Enabled(s, EdgeWrite(row))
            && Next(s, EdgeWrite(row)).edge == HistorianStore.RollupWritten(s.edge, bucket, sampleCount, payload, now)
            && (bucket in s.replica.rollup ==> Before(PositionOf(s.replica.rollup[bucket]), PositionOf(row)))
            && forall batch, r :: batch in s.sent && batch.table == Some(MinuteRollup) && r in batch.rows ==>
                                    Before(PositionOf(r), PositionOf(row))
  {
    ReachableOk(s);
    assert TableOk(s, MinuteRollup);
    var row, link := RollupRow(bucket, sampleCount, payload, now), s.past.links[MinuteRollup];
    assert bucket in s.replica.rollup ==> s.replica.rollup[bucket] == link.mirror[bucket];
    assert bucket in link.mirror ==> AtOrBefore(PositionOf(link.mirror[bucket]), link.cursor);
    forall batch, r | batch in s.sent && batch.table == Some(MinuteRollup) && r in batch.rows
      ensures Before(PositionOf(r), PositionOf(row))
    {
      assert BatchOk(s, batch) && CursorProtocol.PageOk(link, PageOf(batch));
      CursorProtocol.LastIsLatest(batch.rows, r);
    }
  }

  /** Whether a row stays: each table has its own number of days, events go by their
      time and everything else by its key. */
  predicate Stays(policy: HistorianStore.Retention, reference: int, row: Row) {
    match row
    case FastRow(time, _, _, _) => time >= reference - policy.rawDays * 86_400_000_000
    case PlatformRow(time, _) => time >= reference - policy.platformDays * 86_400_000_000
    case RollupRow(bucket, _, _, _) => bucket >= reference - policy.rollupDays * 86_400_000_000
    case EventRow(_, body) => body.timeUs >= reference - policy.eventDays * 86_400_000_000
  }

  /** Retention takes exactly the rows that do not stay, and nothing besides rows. */
  lemma RetentionTakesExactly(db: Database, policy: HistorianStore.Retention, reference: int, t: Table, k: int)
    requires Filed(t, RowsOf(db, t))
    ensures var after := HistorianStore.Retained(db, policy, reference);
            && (k in RowsOf(after, t) <==> k in RowsOf(db, t) && Stays(policy, reference, RowsOf(db, t)[k]))
            && (k in RowsOf(after, t) ==> RowsOf(after, t)[k] == RowsOf(db, t)[k])
            && after.streams == db.streams && after.cursors == db.cursors && after.sources == db.sources && after.links == db.links
            && after.nextStream == db.nextStream && after.nextEvent == db.nextEvent
  {
  }

  /** Retention is a step that takes exactly the expired rows. */
  lemma RetentionIsAStep(s: System, policy: HistorianStore.Retention, reference: int, t: Table, k: int)
    requires policy.enabled
    ensures var after := Next(s, EdgeRetention(policy, reference)).edge;
            && Enabled(s, EdgeRetention(policy, reference)) && after == HistorianStore.Retained(s.edge, policy, reference)
            && (k in RowsOf(after, t) <==>
                  k in RowsOf(s.edge, t) && AgeOf(RowsOf(s.edge, t)[k]) >= HistorianStore.CutoffOf(policy, reference, t))
            && (k in RowsOf(after, t) ==> RowsOf(after, t)[k] == RowsOf(s.edge, t)[k])
  {
  }

  /** A stream begins under an id no stream had, and ends at most once. */
  lemma StreamBeginsAndEnds(s: System, bootId: string, sequence: Option<int>, reason: string, begin: int, end: int, again: int)
    requires Reachable(s)
    ensures var id, begun := s.edge.nextStream, HistorianStore.Begun(s.edge, bootId, sequence, reason, begin);
            var ended := HistorianStore.Ended(begun, id, end);
            && id !in s.edge.streams
            && begun.streams == s.edge.streams[id := StreamRow(if bootId == "" then "unknown" else bootId, begin, None,
                                                                sequence, sequence, reason)]
            && Enabled(s, EdgeStream(id, begun.streams[id])) && Next(s, EdgeStream(id, begun.streams[id])).edge == begun
            && ended.streams == s.edge.streams[id := begun.streams[id].(endedUs := Some(end))]
            && HistorianStore.Ended(ended, id, again) == ended
  {
    ReachableOk(s);
    var id := s.edge.nextStream;
    var begun := HistorianStore.Begun(s.edge, bootId, sequence, reason, begin);
    assert begun.streams[id := begun.streams[id].(endedUs := Some(end))]
           == s.edge.streams[id := begun.streams[id].(endedUs := Some(end))];
  }

  // ------------------------------------------------------------- ids over runs

  lemma EverGrows(s: System, step: Step)
    requires Event in s.past.links
    ensures Event in Next(s, step).past.links && s.past.links[Event].ever <= Next(s, step).past.links[Event].ever
  {
  }

  lemma {:induction false} EverGrowsOver(states: seq<System>, steps: seq<Step>, m: nat, n: nat)
    requires IsRun(states, steps) && m <= n < |states|
    ensures Event in states[m].past.links && Event in states[n].past.links
    ensures states[m].past.links[Event].ever <= states[n].past.links[Event].ever
    decreases n
  {
    OkThroughout(states, steps, m);
    if m < n {
      EverGrowsOver(states, steps, m, n - 1);
      EverGrows(states[n - 1], steps[n - 1]);
    }
  }

  /** An event id is never reused: wherever in a run two events have the same id,
      with deletions in between or not, they are the same event. */
  lemma EventIdsAreNeverReused(states: seq<System>, steps: seq<Step>, m: nat, n: nat, id: int)
    requires IsRun(states, steps) && m <= n < |states|
    requires id in states[m].edge.event && id in states[n].edge.event
    ensures states[m].edge.event[id] == states[n].edge.event[id]
  {
    EverGrowsOver(states, steps, m, n);
    OkThroughout(states, steps, m);
    OkThroughout(states, steps, n);
    assert TableOk(states[m], Event) && TableOk(states[n], Event);
  }
}
