/** What the replica's copy of an edge stream says, over whole runs: stream rows
    travel only with pages of that stream's samples. */
module StreamCopies {
  import opened Wrappers
  import opened HistorianTables
  import CursorProtocol
  import opened ReplicaImport
  import opened ReplicationSystem
  import opened StreamReplay

  /** The replica's copy of this stream of the source, when there is one. */
  function CopyOf(db: Database, source: string, id: int): Option<StreamRow> {
    if (source, id) in db.links && db.links[(source, id)] in db.streams
    then Some(db.streams[db.links[(source, id)]]) else None
  }

  /** What a page says of the stream, if it lists it. */
  function RowListed(items: seq<StreamItem>, id: int): Option<StreamRow>
    decreases |items|
  {
    if items == [] then None
    else if RowListed(items[1..], id).Some? then RowListed(items[1..], id)
    else if items[0].id == id then Some(items[0].row)
    else None
  }

  function Copied(row: Option<StreamRow>): Option<StreamRow> {
    if row.Some? then Some(AsReplica(row.value)) else None
  }

  lemma ItemIsCopied(db: Database, source: string, item: StreamItem, id: int)
    requires LinksOk(db) && StreamsFiled(db)
    ensures CopyOf(ImportStream(db, source, item), source, id)
            == if item.id == id then Some(AsReplica(item.row)) else CopyOf(db, source, id)
  {}

  lemma {:induction false} ItemsAreCopied(db: Database, source: string, items: seq<StreamItem>, id: int)
    requires LinksOk(db) && StreamsFiled(db)
    ensures CopyOf(ImportStreams(db, source, items), source, id)
            == if RowListed(items, id).Some? then Copied(RowListed(items, id)) else CopyOf(db, source, id)
    decreases |items|
  {
    if items != [] {
      ItemIsCopied(db, source, items[0], id);
      ImportStreamLinks(db, source, items[0]);
      ItemsAreCopied(ImportStream(db, source, items[0]), source, items[1..], id);
    }
  }

  /** The page this step imports lists the stream. */
  function ListedBy(step: Step, id: int): Option<StreamRow> {
    if step.Import? && step.batch.table == Some(FastSample) then RowListed(step.batch.streams, id) else None
  }

  lemma CopyAfterImport(s: System, batch: Batch, stamp: int, id: int)
    requires SystemOk(s) && batch in s.sent
    ensures var listed := ListedBy(Import(batch, stamp), id);
            CopyOf(Next(s, Import(batch, stamp)).replica, s.source.id, id)
            == if listed.Some? then Copied(listed) else CopyOf(s.replica, s.source.id, id)
  {
    AfterImport(s, batch, stamp);
    StreamsAfterImport(s.replica, s.layout, batch, s.pinned, stamp);
    ItemsAreCopied(NoteSource(s.replica, s.source, stamp), s.source.id, batch.streams, id);
  }

  lemma CopyAfterStep(s: System, step: Step, id: int)
    requires SystemOk(s) && Enabled(s, step)
    ensures var listed := ListedBy(step, id);
            CopyOf(Next(s, step).replica, s.source.id, id)
            == if listed.Some? then Copied(listed) else CopyOf(s.replica, s.source.id, id)
    ensures Next(s, step).source == s.source
  {
    if step.Import? { CopyAfterImport(s, step.batch, step.stamp, id); AfterImport(s, step.batch, step.stamp); }
  }

  /** What the page imported last of those that list the stream says of it. */
  function LastListed(steps: seq<Step>, i: nat, id: int): Option<StreamRow>
    requires i <= |steps|
  {
    if i == 0 then None
    else if ListedBy(steps[i - 1], id).Some? then ListedBy(steps[i - 1], id)
    else LastListed(steps, i - 1, id)
  }

  /** There is a copy, and it says what the row says, field by field. */
  predicate IsCopyOf(copy: Option<StreamRow>, row: StreamRow) {
    copy.Some? && Says(copy.value, row)
  }

  /** In every state of every run the copy of a stream is what the page imported last of
      those that list it says, field by field, and there is none before the first. */
  lemma CopyIsLastListed(states: seq<System>, steps: seq<Step>, i: nat, id: int)
    requires IsRun(states, steps) && i <= |steps|
    ensures var copy, last := CopyOf(states[i].replica, states[i].source.id, id), LastListed(steps, i, id);
            if last.Some? then IsCopyOf(copy, last.value) else copy == None
  {
    CopyFollowsPages(states, steps, i, id);
  }

  lemma {:induction false} CopyFollowsPages(states: seq<System>, steps: seq<Step>, i: nat, id: int)
    requires IsRun(states, steps) && i <= |steps|
    ensures CopyOf(states[i].replica, states[i].source.id, id) == Copied(LastListed(steps, i, id))
  {
    if i > 0 {
      CopyFollowsPages(states, steps, i - 1, id);
      OkThroughout(states, steps, i - 1);
      CopyAfterStep(states[i - 1], steps[i - 1], id);
    }
  }

  lemma CopiesDiffer(copy: Option<StreamRow>, a: StreamRow, b: StreamRow)
    requires IsCopyOf(copy, a) && IsCopyOf(copy, b)
    ensures a == b
  {
    assert ("replica:" + a.reason)[8..] == a.reason;
    assert ("replica:" + b.reason)[8..] == b.reason;
  }

  /** The replica knows a stream as the edge has it now, its end included, if and only
      if the page imported last of those that list it says just that. */
  lemma StreamAgreesExactly(states: seq<System>, steps: seq<Step>, i: nat, id: int)
    requires IsRun(states, steps) && i <= |steps| && id in states[i].edge.streams
    ensures IsCopyOf(CopyOf(states[i].replica, states[i].source.id, id), states[i].edge.streams[id])
            <==> LastListed(steps, i, id) == Some(states[i].edge.streams[id])
  {
    CopyIsLastListed(states, steps, i, id);
    var copy, row := CopyOf(states[i].replica, states[i].source.id, id), states[i].edge.streams[id];
    if LastListed(steps, i, id).Some? && IsCopyOf(copy, row) { CopiesDiffer(copy, LastListed(steps, i, id).value, row); }
  }

  /** So a stream that ends after its last sample was served stays open on the replica,
      though nothing is pending. */
  lemma LateEndIsReachable() returns (s: System)
    ensures Reachable(s) && s.edge.streams == map[1 := ENDED]
    ensures CursorProtocol.Pending(s.edge.fast, CursorOf(s.replica, s.source.id, FastSample)) == {}
    ensures IsCopyOf(CopyOf(s.replica, s.source.id, 1), OPEN) && OPEN.endedUs == None && ENDED.endedUs == Some(15)
  {
    var begun := StreamOpened();
    var shipped := SampleTravels(begun, map[], OPEN, ORIGIN, {}, 10);
    s := StreamStep(shipped, map[][10 := EARLY], OPEN, Position(10, 0), {} + {FIRST}, ENDED);
    assert PositionOf(EARLY) == Position(10, 0);
  }
}
