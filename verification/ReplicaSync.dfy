/** Catching up with the edge, and replaying old pages. */
module ReplicaSync {
  import opened Wrappers
  import opened HistorianTables
  import CursorProtocol
  import opened ReplicaImport
  import opened ReplicationSystem
  import HistorianStore

  // ----------------------------------------------------------------- catch-up

  /** Every row the edge has of this table is on the replica. */
  ghost predicate CaughtUp(s: System, t: Table) {
    match t
    case FastSample =>
      forall k :: k in s.edge.fast && s.edge.fast[k].FastRow? && Kept(s.past.floors, s.edge.fast[k]) ==>
                    && k in s.replica.fast && (s.source.id, s.edge.fast[k].streamId) in s.replica.links
                    && s.replica.fast[k] == s.edge.fast[k].(streamId := s.replica.links[(s.source.id, s.edge.fast[k].streamId)])
    case PlatformSample =>
      forall k :: k in s.edge.platform && Kept(s.past.floors, s.edge.platform[k]) ==>
                    k in s.replica.platform && s.replica.platform[k] == s.edge.platform[k]
    case MinuteRollup =>
      forall k :: k in s.edge.rollup && Kept(s.past.floors, s.edge.rollup[k]) ==>
                    k in s.replica.rollup && s.replica.rollup[k] == s.edge.rollup[k]
    case Event =>
      forall k :: k in s.edge.event && s.edge.event[k].EventRow? && Kept(s.past.floors, s.edge.event[k]) ==>
                    && k in s.past.places.local && s.past.places.local[k] in s.replica.event
                    && s.replica.event[s.past.places.local[k]] == EventRow(s.past.places.local[k], s.edge.event[k].body)
  }

  lemma NothingPendingMeansCaughtUp(s: System, t: Table)
    requires SystemOk(s)
    requires CursorProtocol.Pending(RowsOf(s.edge, t), CursorOf(s.replica, s.source.id, t)) == {}
    ensures CaughtUp(s, t)
  {
    assert TableOk(s, t);
    forall k | k in RowsOf(s.edge, t)
      ensures AtOrBefore(PositionOf(RowsOf(s.edge, t)[k]), CursorOf(s.replica, s.source.id, t))
    {
      assert k !in CursorProtocol.Pending(RowsOf(s.edge, t), CursorOf(s.replica, s.source.id, t));
    }
    FastAgreement(s);
    KeyedAgreement(s);
    EventAgreement(s);
  }

  /** One request, one reply, one import. */
  function Round(s: System, table: Table, limit: nat, batch: Batch, stamp: int): System {
    Next(Next(s, Reply(table, CursorOf(s.replica, s.source.id, table), limit, batch)), Import(batch, stamp))
  }

  lemma RoundIsOk(s: System, table: Table, limit: nat, batch: Batch, stamp: int)
    requires SystemOk(s)
    requires HistorianStore.Answers(s.edge, s.source, table, CursorOf(s.replica, s.source.id, table), limit, batch)
    ensures SystemOk(Round(s, table, limit, batch, stamp))
    ensures var s' := Round(s, table, limit, batch, stamp);
            && ImportBatch(s.replica, s.layout, batch, s.pinned, stamp).Success?
            && s'.replica == ImportBatch(s.replica, s.layout, batch, s.pinned, stamp).value.0
            && s'.source == s.source && s'.edge == s.edge && s'.layout == s.layout && s'.pinned == s.source.id
            && CursorOf(s'.replica, s.source.id, table) == Later(CursorOf(s.replica, s.source.id, table), batch.cursor)
  {
    var cursor := CursorOf(s.replica, s.source.id, table);
    assert Enabled(s, Reply(table, cursor, limit, batch)) by {
      assert TableOk(s, table);
    }
    var mid := Next(s, Reply(table, cursor, limit, batch));
    OkAfterReply(s, table, cursor, limit, batch);
    AfterImport(mid, batch, stamp);
    OkAfterImport(mid, batch, stamp);
  }

  lemma RoundCatchesUp(edge: Rows, cursor: Position, limit: nat, batch: Batch)
    requires forall k :: k in edge ==> KeyOf(edge[k]) == k
    requires batch.after == cursor && CursorProtocol.IsPage(edge, PageOf(batch), limit)
    requires batch.hasMore == (|CursorProtocol.Pending(edge, cursor)| > limit)
    ensures |CursorProtocol.Pending(edge, Later(cursor, batch.cursor))|
            == if batch.hasMore then |CursorProtocol.Pending(edge, cursor)| - limit else 0
  {
    CursorProtocol.RoundShrinksPending(edge, PageOf(batch), limit);
  }

  function PendingCount(edge: Database, replica: Database, source: string, table: Table): nat {
    |CursorProtocol.Pending(RowsOf(edge, table), CursorOf(replica, source, table))|
  }

  /** After `rounds` full rounds exactly `limit` rows each have moved; the last
      round may be short. */
  predicate Moved(start: nat, left: nat, rounds: nat, limit: nat, more: bool) {
    if more then left == start - rounds * limit && (rounds > 0 ==> left > 0)
    else left == 0 && (if start == 0 then rounds == 1 else (rounds - 1) * limit < start <= rounds * limit)
  }

  lemma MovedOnce(start: nat, left: nat, rounds: nat, limit: nat)
    requires Moved(start, left, rounds, limit, true) && limit > 0
    ensures Moved(start, if left > limit then left - limit else 0, rounds + 1, limit, left > limit)
  {
    assert (rounds + 1) * limit == rounds * limit + limit;
  }

  /** The stores on both sides are the system's. */
  ghost predicate Runs(s: System, edge: HistorianStore.HistorianStore, replica: HistorianStore.HistorianStore,
                       source: Source, pinned: string)
    reads edge, replica
  {
    && SystemOk(s) && s.source == source && s.edge == edge.db && s.replica == replica.db
    && s.layout == replica.layout && s.pinned == pinned
  }

  /** One turn of `_sync_table`'s loop: cursor, request, import. */
  method SyncRound(edge: HistorianStore.HistorianStore, replica: HistorianStore.HistorianStore, source: Source,
                   table: Table, limit: int, pinned: string, stamp: int, ghost s: System)
    returns (more: Result<bool, HistorianStore.RequestError>, ghost s': System)
    requires edge != replica && Runs(s, edge, replica, source, pinned)
    modifies replica
    ensures edge.db == old(edge.db)
    ensures more.Failure? <==> !(1 <= limit <= HistorianStore.MAX_REPLICA_BATCH_SIZE)
    ensures more.Failure? ==> Runs(s', edge, replica, source, pinned)
    ensures more.Success? ==> Runs(s', edge, replica, source, source.id)
    ensures more.Success? ==>
              var before := old(PendingCount(edge.db, replica.db, source.id, table));
              && more.value == (before > limit)
              && PendingCount(edge.db, replica.db, source.id, table) == if before > limit then before - limit else 0
  {
    assert Filed(table, RowsOf(edge.db, table)) && NonNegative(CursorOf(replica.db, source.id, table)) by {
      assert TableOk(s, table);
    }
    var cursor := replica.ReplicationCursor(source.id, table);
    var reply := edge.ReplicationBatch(source, table, cursor, limit);
    if reply.Failure? {
      return Failure(reply.error), s;
    }
    var batch := reply.value;
    RoundIsOk(s, table, limit, batch, stamp);
    RoundCatchesUp(RowsOf(edge.db, table), cursor, limit, batch);
    s' := Round(s, table, limit, batch, stamp);
    var report := replica.ImportReplicationBatch(batch, pinned, stamp);
    more := Success(batch.hasMore);
  }

  /** `_sync_table` against an edge that is quiescent meanwhile.  It ends, each
      round but the last moves exactly `limit` rows, and at the end the replica
      holds every row the edge holds. */
  method SyncTable(edge: HistorianStore.HistorianStore, replica: HistorianStore.HistorianStore, source: Source,
                   table: Table, limit: int, expectedSource: string, stamp: int, ghost s: System)
    returns (outcome: Result<nat, HistorianStore.RequestError>, ghost s': System)
    requires edge != replica && Runs(s, edge, replica, source, expectedSource)
    modifies replica
    ensures edge.db == old(edge.db)
    ensures SystemOk(s') && s'.edge == edge.db && s'.replica == replica.db && s'.source == source
    ensures outcome.Failure? <==> !(1 <= limit <= HistorianStore.MAX_REPLICA_BATCH_SIZE)
    ensures outcome.Success? ==>
              && CaughtUp(s', table)
              && Moved(old(PendingCount(edge.db, replica.db, source.id, table)), 0, outcome.value, limit, false)
  {
    s' := s;
    var rounds: nat := 0;
    var more := true;
    var pinned := expectedSource;
    ghost var start := PendingCount(edge.db, replica.db, source.id, table);
    while more
      invariant edge.db == old(edge.db)
      invariant Runs(s', edge, replica, source, pinned)
      invariant rounds > 0 ==> 1 <= limit <= HistorianStore.MAX_REPLICA_BATCH_SIZE
      invariant more || rounds > 0
      invariant if rounds > 0 then Moved(start, PendingCount(edge.db, replica.db, source.id, table), rounds, limit, more)
                else PendingCount(edge.db, replica.db, source.id, table) == start
      decreases more, PendingCount(edge.db, replica.db, source.id, table)
    {
      ghost var left := PendingCount(edge.db, replica.db, source.id, table);
      var answer;
      answer, s' := SyncRound(edge, replica, source, table, limit, pinned, stamp, s');
      if answer.Failure? {
        return Failure(answer.error), s';
      }
      MovedOnce(start, left, rounds, limit);
      pinned := source.id;
      more := answer.value;
      rounds := rounds + 1;
    }
    AllMoved(s', table, start, rounds, limit);
    outcome := Success(rounds);
  }

  lemma AllMoved(s: System, table: Table, start: nat, rounds: nat, limit: nat)
    requires SystemOk(s)
    requires Moved(start, PendingCount(s.edge, s.replica, s.source.id, table), rounds, limit, false)
    ensures CaughtUp(s, table)
  {
    NothingPendingMeansCaughtUp(s, table);
  }

  // ------------------------------------------------------------ stale replays

  lemma {:induction false} OldRowsAreSkipped(p: Progress, source: string, layout: Layout, table: Table, current: Position, rows: seq<Row>)
    requires forall r :: r in rows ==> AtOrBefore(PositionOf(r), current)
    requires ImportRows(p, source, layout, table, current, rows).Success?
    ensures var q := ImportRows(p, source, layout, table, current, rows).value;
            q.db == p.db && q.imported == p.imported && q.skipped == p.skipped + |rows|
    decreases |rows|
  {
    if rows != [] {
      assert rows[0] in rows;
      var q := ImportRow(p, source, layout, table, current, rows[0]).value;
      OldRowsAreSkipped(q, source, layout, table, current, rows[1..]);
    }
  }

  lemma {:induction false} StreamImportKeepsRows(db: Database, source: string, items: seq<StreamItem>)
    ensures var out := ImportStreams(db, source, items);
            && out.fast == db.fast && out.platform == db.platform && out.rollup == db.rollup && out.event == db.event
            && out.nextEvent == db.nextEvent && out.cursors == db.cursors
    decreases |items|
  {
    if items != [] {
      StreamImportKeepsRows(ImportStream(db, source, items[0]), source, items[1..]);
    }
  }

  /** Whatever database it meets, a page that ends at or below the cursor
      changes no sample, rollup or event, and no cursor position. */
  lemma OldPageChangesNoRow(db: Database, layout: Layout, batch: Batch, expected: string, stamp: int)
    requires ImportBatch(db, layout, batch, expected, stamp).Success?
    requires batch.source.Some? && batch.table.Some?
    requires AtOrBefore(batch.cursor, CursorOf(db, batch.source.value.id, batch.table.value))
    requires forall r :: r in batch.rows ==> AtOrBefore(PositionOf(r), batch.cursor)
    ensures var out := ImportBatch(db, layout, batch, expected, stamp).value.0;
            && out.fast == db.fast && out.platform == db.platform && out.rollup == db.rollup
            && out.event == db.event && out.nextEvent == db.nextEvent
            && forall source, t :: CursorOf(out, source, t) == CursorOf(db, source, t)
  {
    var source, table := batch.source.value.id, batch.table.value;
    var start := Progress(Opened(db, batch, stamp), NO_POSITION, 0, 0);
    StreamImportKeepsRows(NoteSource(db, batch.source.value, stamp), source, batch.streams);
    OldRowsAreSkipped(start, source, layout, table, CursorOf(db, source, table), batch.rows);
  }

  /** Once imported, a page can be replayed: no row and no cursor moves. */
  lemma ReplayChangesNoRow(s: System, batch: Batch, first: int, second: int)
    requires SystemOk(s) && batch in s.sent
    ensures var s' := Next(s, Import(batch, first));
            var s'' := Next(s', Import(batch, second));
            && s''.replica.fast == s'.replica.fast && s''.replica.platform == s'.replica.platform
            && s''.replica.rollup == s'.replica.rollup && s''.replica.event == s'.replica.event
            && forall t :: CursorOf(s''.replica, s.source.id, t) == CursorOf(s'.replica, s.source.id, t)
  {
    var s' := Next(s, Import(batch, first));
    AfterImport(s, batch, first);
    OkAfterImport(s, batch, first);
    AfterImport(s', batch, second);
    assert BatchOk(s, batch);
    forall r | r in batch.rows
      ensures AtOrBefore(PositionOf(r), batch.cursor)
    {
      EndsLast(s, batch, r);
    }
    OldPageChangesNoRow(s'.replica, s'.layout, batch, s'.pinned, second);
  }

  lemma EndsLast(s: System, batch: Batch, row: Row)
    requires SystemOk(s) && batch in s.sent && row in batch.rows
    ensures AtOrBefore(PositionOf(row), batch.cursor)
  {
    assert BatchOk(s, batch);
    var t := batch.table.value;
    assert TableOk(s, t) && CursorProtocol.PageOk(s.past.links[t], PageOf(batch));
    CursorProtocol.LastIsLatest(batch.rows, row);
  }

  // --------------------------------------------------- newer versions prevail

  /** The version mirrored under a key never gets older. */
  ghost predicate KeepsNewer(s: System, s': System, t: Table, k: int) {
    t in s.past.links && k in s.past.links[t].mirror ==>
      && t in s'.past.links && k in s'.past.links[t].mirror
      && AtOrBefore(PositionOf(s.past.links[t].mirror[k]), PositionOf(s'.past.links[t].mirror[k]))
  }

  lemma ImportKeepsNewer(s: System, batch: Batch, stamp: int, t: Table, k: int)
    requires SystemOk(s) && batch in s.sent && t in s.past.links
    ensures KeepsNewer(s, Next(s, Import(batch, stamp)), t, k)
  {
    AfterImport(s, batch, stamp);
    assert TableOk(s, t);
    if t == batch.table.value {
      CursorProtocol.NextAdvances(s.past.links[t], CursorProtocol.Deliver(PageOf(batch)), k);
    }
  }

  lemma StepKeepsNewer(s: System, step: Step, t: Table, k: int)
    requires SystemOk(s) && Enabled(s, step)
    ensures KeepsNewer(s, Next(s, step), t, k)
  {
    if step.Import? && t in s.past.links {
      ImportKeepsNewer(s, step.batch, step.stamp, t, k);
    }
  }

  lemma {:induction false} MirrorNeverRegresses(states: seq<System>, steps: seq<Step>, m: nat, n: nat, t: Table, k: int)
    requires IsRun(states, steps) && m <= n < |states|
    ensures KeepsNewer(states[m], states[n], t, k)
    decreases n
  {
    if m < n {
      MirrorNeverRegresses(states, steps, m, n - 1, t, k);
      OkThroughout(states, steps, n - 1);
      StepKeepsNewer(states[n - 1], steps[n - 1], t, k);
    }
  }

  lemma RollupIsMirrored(s: System, bucket: int)
    requires SystemOk(s) && bucket in s.replica.rollup
    ensures MinuteRollup in s.past.links && bucket in s.past.links[MinuteRollup].mirror
    ensures s.replica.rollup[bucket] == s.past.links[MinuteRollup].mirror[bucket]
  {
    assert TableOk(s, MinuteRollup);
  }

  /** A stale page delivered late never overwrites a newer rollup. */
  lemma RollupNeverRegresses(states: seq<System>, steps: seq<Step>, m: nat, n: nat, bucket: int)
    requires IsRun(states, steps) && m <= n < |states|
    requires bucket in states[m].replica.rollup && bucket in states[n].replica.rollup
    ensures AtOrBefore(PositionOf(states[m].replica.rollup[bucket]), PositionOf(states[n].replica.rollup[bucket]))
  {
    MirrorNeverRegresses(states, steps, m, n, MinuteRollup, bucket);
    OkThroughout(states, steps, m);
    OkThroughout(states, steps, n);
    RollupIsMirrored(states[m], bucket);
    RollupIsMirrored(states[n], bucket);
  }
}
