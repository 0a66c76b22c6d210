# GIZMo in Dafny

A model of the parts of GIZMo whose correctness is hardest to see from one place, with proofs. GIZMo
measures impedance on a small board (ZMon, in C), publishes the result and takes commands over OPC UA
(Python), and keeps a history that an off-board replica copies over HTTP (Python).

`dafny verify dfyconfig.toml` checks everything. All modules are independent of Dafny's libraries.

## How the model is laid out

**Replication** (`HistorianTables`, `ReplicaImport`, `ImportMeaning`, `HistorianStore`, `CursorProtocol`, `ReplicationSystem`,
`ReplicaSync`, `EdgeRecording`, `ClockStep`, `StreamReplay`, `StreamCopies`). `HistorianStore` is the class whose methods change the tables; tables are finite maps and
a transaction is one step. `ImportBatch` is what an import must do, and the import method is proved equal to it.
`CursorProtocol` is the protocol of one table with abstract rows. `ReplicationSystem` is an edge, a replica and
the set of every page ever served: any of these pages may arrive at any time, any number of times, or never,
the replica may restart anywhere, and either side may prune. The one assumption about the edge is that a row is
written on time: beyond the replica's cursor and the end of every page served so far. The code takes sample and
rollup positions from the wall clock, which need not advance; `MissedExactlyWhenLate` says that a row can be missed
exactly when it is not written on time, and `LeftBehindForGood` that it then stays away. `docs/historian.md` says
that a clock correction cannot overwrite an earlier sample. That is so (`FreeTime`), but a late row is not shipped.

**Minute rollups** (`RollupFold`, `RollupMeaning`, `MinuteRollups`, `RollupQuery`, `RollupCache`, `RollupShipping`). The accumulator object, its
serialised form, the points made from it, their coarsening, and the recorder's write-back line. Each is proved
against one fold over the raw samples. `RollupShipping` composes the recorder with replication.

**Commands** (`CommandState`, `CommandInvariant`, `CommandSafety`, `CommandStrays`, `CommandFindings`,
`CommandWitnesses`, `CommandOutcomes`, `CommandGate`). The command gate as a state machine. A step rewrites the state file at most
once, so that a crash may fall between any two, and outside the stretches that hold the command lock it touches at
most once what the two threads share. So the server thread accepts, dispatches, writes a node, marks the command and
notes the value it expects in separate steps; the main loop looks the command up, reads a node, decides, takes the
engine's answer, tells the command and handles what was raised in separate steps; and any step of one may fall
between any two of the other, as may the clock, a change of the executable and a crash. `CommandGate` is the object
with the server's fields; each of its methods extends a run of that machine that ends in the fields' present values,
so the theorems about runs hold of it. `CommandOutcomes` says in plain terms what each command comes to. Its longer methods put the steps of one thread in order with nothing in
between; the single steps are methods of their own.

**ZMon** (`SplineTheory`, `Spline`, `InverseInterpolation`, `Relays`). The natural cubic spline by tridiagonal
elimination into arrays, its evaluation and inverse, and the calibration sweep, for any number of knots and any
number of relays.

**Two formats** (`SdrStream`, `MeasurementRecord`). The non-blocking frame sender with its fixed-size reader, and
the measurement record printed in C, scanned in Python and split by the display.

## What turned out not to hold

Each comes with its exact condition and a run from a first start that reaches it.

* A write can be recorded Succeeded by a forwarding pass, without any readback, if and only if it is `Unguarded`
  (`UnreadExactlyWhenUnguarded`, for every reachable state): it is not marked yet, or it is marked and what the main
  loop holds and the nodes show lets a pass settle it. As long as no value has lost its owner, that is one of three
  situations for a changed value (`UnreadSituations`): the write is not marked yet when a pass deals with it; the
  pass hands a fit value over after it had looked up no command or one of another name; or the pass read the node
  before the write landed and decides with the mark in sight. Making write and mark one step is therefore not
  enough. Once guarded a write succeeds by its readback or not at all (`GuardedIsReadBack`), and a write that is
  marked when a pass begins is settled before the pass is over (`PassSettlesPending`). The runs are
  `UnmarkedIsReachable`, `NobodyIsReachable`, `OtherNameIsReachable`, `OvertakenIsReachable` and, for the pass that
  had looked up an earlier command of the same name and so fails the write, `FormerWriteFailsIt`, each for both
  settings.
* In the last of the three situations the value stays on the node with no command to answer for it
  (`OvertakenLeavesValue`), and nothing else brings that about (`OwnedExactlyWhenNotOvertaken`). The next pass sends
  a fit one to the engine under no command and takes an unfit one back (`StrayIsSent`, `StrayIsHanded`); if it has
  looked up a later write of that name, it tells that one to wait for the value it did not ask for (`StrayIsTold`,
  reached by `StrayForAnotherIsReachable`). Until then everything sent was asked for by the command it was sent for
  (`ChangedWriteWasReadBack`).
* Readback is taken from the last record of any quality. It is a good one if and only if no bad one came after the
  last good one (`RecordIsGoodExactlyWhenLast`); otherwise a bad record that shows the value is enough
  (`BadRecordSatisfies`, reached by `LatchWaitIsReachable` and `WriteWaitIsReachable`). It is always newer than the
  request.
* A crash restarts unlocked with the engine still calibrating if and only if no command is active, the gate is not
  locked and the operation has no owner (`ExposedExactlyWhenUnowned`). That is so between the record of a superseded
  calibration and that of the superseding abort (`WindowIsReachable`); and after a crash there, or after an abort
  that has taken a calibration over and never reaches its callback (`UndispatchedAbortIsReachable`), until the next
  operation is announced or a crash during a command makes it unknown (`BusyOwnedExactly`).
* A row written after the clock stepped back can be missed by the replica if and only if it lies at or below the
  replica's cursor or the end of a page already served (`MissedExactlyWhenLate`, reached by
  `LateRowsAreReachable`).
* Replaying an old page changes no sample, rollup, event or cursor. It leaves the streams alone if and only if every
  stream it lists is linked and already says what the page says (`StreamsKeptExactlyWhenSettled`);
  `OldPageReopensStream` is a run in which it does not. A stream row travels only with that stream's samples: the
  replica's copy is the edge's if and only if the page imported last of those that list it says just that
  (`StreamAgreesExactly`), so an end that comes after the last sample was served is not seen (`LateEndIsReachable`).
* A query whose interval holds more raw samples than the limit, and no stored minute yet, is answered with no points
  at all rather than refused; otherwise its answer is empty exactly when there is nothing to show
  (`AnswersWhatThereIs`).
* `interpolate_y` is zero at and beyond the last knot, because the last `a`, `b` and `d` are never written
  (`CurveMeetsData`); the phase curve meets every knot (`PhaseMeetsData`). `interpolate_x` never gives its
  not-a-number answer, whatever the table (`NeverStopped`).
* The swept resistances ascend, as the spline needs, if and only if each resistor swept exceeds the sum of the
  smaller ones (`TotalsAscendExactly`).

## Model

| member | source | states |
|---|---|---|
| HistorianStore.FreeTime | src/python/gizmo_historian.py:603-607 | the first microsecond at or after the wanted one that no row has; every one skipped is taken |
| HistorianStore.HistorianStore.RecordFast | src/python/gizmo_historian.py:597-622 | the sample is filed at the first free microsecond, no earlier sample is overwritten, and its stream's last sequence follows |
| HistorianStore.HistorianStore.RecordPlatform | src/python/gizmo_historian.py:624-641 | the same for platform samples |
| EdgeRecording.RecordingFastIsAStep | src/python/gizmo_historian.py:597-622 | recording a sample at a time that is on time is a step of the replication system, even when microseconds have to be skipped |
| EdgeRecording.RecordingPlatformIsAStep | src/python/gizmo_historian.py:624-641 | the same for platform samples |
| EdgeRecording.RecordingEventIsAStep | src/python/gizmo_historian.py:643-678 | recording an event is such a step whatever the clock says |
| EdgeRecording.EventIdsAreNeverReused | src/python/gizmo_historian.py:643-678 | wherever in a run two events have the same id, with deletions in between or not, they are the same event |
| EdgeRecording.WritingRollupIsAStep | src/python/gizmo_historian.py:680-700 | rewriting a bucket on time is a step, and the new version lies after every version any served page or the replica holds |
| EdgeRecording.RetentionIsAStep | src/python/gizmo_historian.py:1110-1143 | retention is a step after which exactly the rows at or above each cutoff remain, unchanged |
| EdgeRecording.RetentionTakesExactly | src/python/gizmo_historian.py:1110-1143 | each table has its own number of days; events go by their time, rollups by their bucket and samples by their receive time; nothing but rows goes |
| EdgeRecording.StreamBeginsAndEnds | src/python/gizmo_historian.py:575-595 | a stream begins under an id no stream had, ends with the time given, and a second end changes nothing |
| HistorianStore.HistorianStore.ApplyRetention | src/python/gizmo_historian.py:1110-1143 | exactly the rows older than each table's cutoff go, and none when retention is off |
| HistorianStore.HistorianStore.ReplicationCursor | src/python/gizmo_historian.py:1265-1284 | the stored cursor, or the origin when there is none |
| HistorianStore.HistorianStore.SelectAfter | src/python/gizmo_historian.py:1174-1220 | the rows beyond the position in ascending order, none left out before the last one given, all of them when they fit |
| HistorianStore.HistorianStore.SelectStreams | src/python/gizmo_historian.py:1222-1241 | every stream the page's samples belong to, each once, ascending |
| HistorianStore.HistorianStore.ReplicationBatch | src/python/gizmo_historian.py:1159-1263 | refuses a negative cursor or a limit out of range, otherwise a page of at most the limit, with its end position and whether more rows follow |
| HistorianStore.HistorianStore.ImportReplicationBatch | src/python/gizmo_historian.py:1292-1596 | either the whole page with its new cursor, as the specification `ImportBatch` says, or an error and an unchanged database |
| ImportMeaning.ImportSucceedsExactly | src/python/gizmo_historian.py:1292-1596 | for any database and any page: an import succeeds if and only if version, schema, identity and cursor are in order, and the rows are of the table, rise strictly, end at the cursor, and each beyond the stored cursor decodes, belongs to a stream that is linked or listed, and does not contradict a sample that is there |
| ImportMeaning.RowsImportExactly | src/python/gizmo_historian.py:1430-1588 | the rows are taken if and only if all of them fit; a new one beyond the cursor counts as imported and every other one as skipped |
| ImportMeaning.ImportLeaves | src/python/gizmo_historian.py:1337-1359 | afterwards the source keeps its first sight and has a new last one, only the table's own cursor has moved, to the later position, no other table has changed, and the report counts every row once |
| ImportMeaning.PageRefusedFor | src/python/gizmo_historian.py:1298-1330 | the first thing out of order decides the refusal |
| ImportMeaning.RowRefusedFor | src/python/gizmo_historian.py:1443-1535 | a row is refused for its payload before its stream, and for its stream before a collision |
| HistorianTables.PositionsDiffer | src/python/gizmo_historian.py:1149-1157 | two rows of a table never share a position, so positions order the rows strictly |
| CursorProtocol.ApplyTakesLatest | src/python/gizmo_historian.py:1430-1443 | a row of the page beyond the cursor is what the mirror holds afterwards |
| CursorProtocol.ApplyOldRows | src/python/gizmo_historian.py:1440-1443 | rows at or below the cursor change nothing |
| CursorProtocol.InvNext | src/python/gizmo_historian.py:1159-1596 | every write, deletion, page and delivery, in any order, keeps the mirror equal to the edge up to the cursor |
| CursorProtocol.NextAdvances | src/python/gizmo_historian.py:1432-1443 | no step moves the cursor back or a mirrored row to an older version |
| CursorProtocol.DeliverTwice | src/python/gizmo_historian.py:1440-1443 | delivering a page a second time changes nothing |
| CursorProtocol.RoundShrinksPending | src/python/gizmo_historian.py:1222-1252 | one page from the current cursor leaves exactly the pending rows beyond its end |
| CursorProtocol.NothingPending | src/python/gizmo_historian.py:2155-2183 | with nothing pending the mirror contains everything the edge has |
| ReplicationSystem.ImportRowsMirrors | src/python/gizmo_historian.py:1430-1588 | the row loop of an import mirrors exactly the rows beyond the cursor, with renumbered streams and events |
| ReplicationSystem.ImportCommits | src/python/gizmo_historian.py:1292-1596 | importing any page ever sent succeeds and its effect is that of one delivery |
| ReplicationSystem.OkAfter | src/python/gizmo_historian.py:1110-1596 | every step of edge, network and replica, a restart included, keeps the invariant |
| ReplicationSystem.OkThroughout | src/python/gizmo_historian.py:1110-1596 | the invariant holds in every state of every run |
| ReplicationSystem.ReplicationAgreement | src/python/gizmo_historian.py:1159-1596 | in every reachable state each edge row at or below the cursor (and not yet pruned by the replica's own retention) is on the replica with equal content, rollups in their current version, each event exactly once, streams under an injective renumbering; and the replica holds nothing the edge never had |
| ReplicationSystem.EverySentPageImports | src/python/gizmo_historian.py:1292-1596 | a page that was ever sent can be imported at any later time |
| ReplicationSystem.AfterImport | src/python/gizmo_historian.py:1537-1588 | an import moves only its own table's cursor, to the later of cursor and page end |
| ReplicationSystem.CursorNeverFalls | src/python/gizmo_historian.py:1537-1570 | no cursor ever moves back in any run |
| ReplicaSync.SyncRound | src/python/gizmo_historian.py:2155-2183 | one request and import moves exactly `limit` rows, or the rest when fewer are left, and reports whether more follow |
| ReplicaSync.SyncTable | src/python/gizmo_historian.py:2155-2183 | against a quiescent edge the loop ends, after as many full rounds as the row count demands, with every edge row on the replica |
| ReplicaSync.NothingPendingMeansCaughtUp | src/python/gizmo_historian.py:2155-2183 | in any reachable state an empty next page means every edge row is on the replica |
| ReplicaSync.MovedOnce | src/python/gizmo_historian.py:2155-2183 | each full round brings the remaining count down by exactly the limit |
| ReplicaSync.OldPageChangesNoRow | src/python/gizmo_historian.py:1430-1443 | a page wholly at or below the cursor changes no data row and no cursor, in any database |
| ReplicaSync.ReplayChangesNoRow | src/python/gizmo_historian.py:1430-1443 | importing a page twice is importing it once, as far as data rows and cursors go |
| ReplicaSync.MirrorNeverRegresses | src/python/gizmo_historian.py:1432-1443 | over any run the mirrored version under a key only gets newer |
| ReplicaSync.RollupNeverRegresses | src/python/gizmo_historian.py:1515-1536 | a stale page delivered late never overwrites a newer rollup |
| StreamReplay.UnchangedExactlyWhenSettled | src/python/gizmo_historian.py:1360-1427 | a page's streams change nothing if and only if each is linked and already holds what the page says |
| StreamReplay.StreamsKeptExactlyWhenSettled | src/python/gizmo_historian.py:1404-1427 | in every reachable state that is the exact condition for an import, replayed or not, to leave the stream table alone |
| StreamReplay.OldPageReopensStream | src/python/gizmo_historian.py:1404-1427 | a run after which a page already imported, arriving again, takes a stream's end time back |
| StreamCopies.CopyIsLastListed | src/python/gizmo_historian.py:1360-1427 | in every state of every run the replica's copy of a stream has the boot, times and sequences of the row in the page imported last of those that list it, and its reason behind "replica:"; there is none before the first |
| StreamCopies.StreamAgreesExactly | src/python/gizmo_historian.py:1222-1241 | so it agrees with the edge's own row in every field, its end included, if and only if that page says just that |
| StreamCopies.LateEndIsReachable | src/python/gizmo_historian.py:1222-1241 | a run to a stream that has ended on the edge, stays open on the replica, and has nothing pending |
| ClockStep.MissedExactlyWhenLate | src/python/gizmo_historian.py:597-607 | a new row can come to be passed by the cursor and yet missed if and only if, when written, it lies at or below the cursor or the end of a page already served |
| ClockStep.LeftBehindForGood | src/python/gizmo_historian.py:1440-1443 | once the cursor has passed it, no imports whatever bring the row to its key; at most a later version comes there |
| ClockStep.LateRowsAreReachable | src/python/gizmo_historian.py:597-607 | runs to a late sample below a page in flight and to one below the cursor |
| RollupMeaning.RanksInOrder | src/python/gizmo_historian.py:219-228 | whatever the case of the letters, bad outranks uncertain, uncertain outranks whatever else is not plainly good, and good ranks lowest |
| RollupMeaning.PayloadTable | src/python/gizmo_historian.py:230-237 | booleans count as one and zero, text and what is not finite do not count, and a missing status is that of missing data |
| RollupMeaning.SummaryMeans | src/python/gizmo_historian.py:306-332 | a series' count is the number of readings with a value, its first and last are the first and last of these, and its extremes are attained and bound them all |
| RollupMeaning.SummaryGrows | src/python/gizmo_historian.py:322-332 | its total grows by each value, and a status replaces one that does not outrank it |
| RollupMeaning.WorstIsLatest | src/python/gizmo_historian.py:322-323 | so its status is the latest of those that none outranks |
| RollupMeaning.RangeColumns | src/python/gizmo_historian.py:291-304 | the range columns count all samples and those out of range |
| RollupMeaning.RangeGrows | src/python/gizmo_historian.py:299-304 | and keep the latest of the worst statuses of those out of range |
| RollupMeaning.EncodedColumns | src/python/gizmo_historian.py:334-360 | every column written for a series is its own, with the mean in place of the total |
| RollupFold.GoodRanksLowest | src/python/gizmo_historian.py:219-228 | no status ranks below Good |
| RollupFold.WorstOutranksAll | src/python/gizmo_historian.py:219-228 | the status kept is one of those seen and none of them outranks it |
| RollupFold.SummarySnoc | src/python/gizmo_historian.py:299-332 | one more reading turns the summary of the readings before it into that of all |
| RollupFold.FoldSnoc | src/python/gizmo_historian.py:291-332 | updating the accumulator is folding one sample more |
| RollupFold.FoldIsConsistent | src/python/gizmo_historian.py:334-360 | what is folded can be serialised without losing its total |
| RollupFold.MeanTimesCount | src/python/gizmo_historian.py:362-388 | the total is recovered from mean and count |
| RollupFold.DecodeEncode | src/python/gizmo_historian.py:334-388 | decoding what was encoded gives the same minute back, totals included |
| MinuteRollups.MinuteAccumulator.Update | src/python/gizmo_historian.py:291-332 | the object's new state is the old one extended by the sample, series by series |
| MinuteRollups.MinuteAccumulator.Encode | src/python/gizmo_historian.py:334-360 | the body lists every series once, in index order, with mean in place of total |
| MinuteRollups.MinuteAccumulator.Decode | src/python/gizmo_historian.py:361-388 | a new accumulator with the state the body stands for |
| MinuteRollups.Reload | src/python/gizmo_historian.py:334-388 | writing an accumulator and reading it back restores its state |
| RollupQuery.RollupPoints | src/python/gizmo_historian.py:784-848 | one point per stored minute, with mean, extremes, first, last and status of each series |
| RollupQuery.DigestConcat | src/python/gizmo_historian.py:935-1029 | the digest of two stretches joined is that of one stretch after the other |
| RollupQuery.CoarsenSeries | src/python/gizmo_historian.py:945-1005 | the coarse value carries the joined digest of the group's values |
| RollupQuery.CoarsenGroup | src/python/gizmo_historian.py:942-1028 | one point per group, with the middle time, all series and the range columns |
| RollupQuery.CoarsenRollupPoints | src/python/gizmo_historian.py:935-1029 | consecutive groups of equal width that cover all points, and at most `limit` of them |
| RollupQuery.FewGroups | src/python/gizmo_historian.py:940-943 | the chosen width never gives more groups than the limit |
| RollupQuery.Query | src/python/gizmo_historian.py:850-916 | every refusal exactly when its condition is the first to hold; raw points that fit are the answer, stored minutes where there are none or too many, and too many points are refused only where raw ones were insisted on |
| RollupQuery.AnswersWhatThereIs | src/python/gizmo_historian.py:897-910 | the answer is empty exactly when there is nothing to show, or when there are too many raw points and no minute is stored |
| RollupQuery.RollupAnswerSays | src/python/gizmo_historian.py:784-1029 | every point of an answer from stored minutes, coarsened or not, says of its own stretch of minutes what one fold over all their raw samples says; the stretches follow each other and have the least width that meets the limit |
| RollupQuery.RollupAnswerCovers | src/python/gizmo_historian.py:940-943 | and together they cover all the minutes |
| RollupQuery.RollupAnswerIsTimed | src/python/gizmo_historian.py:1008-1010 | each point carries the time of the middle minute of its stretch |
| RollupQuery.PointSays | src/python/gizmo_historian.py:805-847 | the point of one minute is timed and stamped at its middle and says what one fold over its samples says |
| RollupQuery.WidthIsLeast | src/python/gizmo_historian.py:940 | no smaller width would keep the groups within the limit |
| RollupQuery.FirstWorstIs | src/python/gizmo_historian.py:954-961 | a coarse status is the first of those that none outranks |
| RollupQuery.CoarseningRefinesFolding | src/python/gizmo_historian.py:935-1029 | coarsening decoded minutes gives count, mean, minimum, maximum, first, last and status rank of one fold over all raw samples |
| RollupQuery.RangeRefinesFolding | src/python/gizmo_historian.py:1006-1027 | a group is out of range exactly when a raw sample was, with the worst of their statuses |
| RollupQuery.AnswerRefinesFolding | src/python/gizmo_historian.py:911-1029 | every point of a coarsened answer says of its minutes what one fold over all their raw samples says, through encoding and decoding |
| RollupCache.HistorianRecorder.WriteRollup | src/python/gizmo_historian.py:680-700 | the stored row then decodes to the accumulator's state |
| RollupCache.HistorianRecorder.LoadRollup | src/python/gizmo_historian.py:702-708 | the stored minute, or nothing when there is none |
| RollupCache.HistorianRecorder.SwitchTo | src/python/gizmo_historian.py:1890-1896 | another minute's line is written back before this minute's is loaded |
| RollupCache.HistorianRecorder.UpdateRollup | src/python/gizmo_historian.py:1889-1900 | the line of the sample's minute takes the sample, and is written through when ten seconds have passed |
| RollupCache.HistorianRecorder.Stop | src/python/gizmo_historian.py:1783-1791 | the line is written back |
| RollupCache.NextFolds | src/python/gizmo_historian.py:1889-1900 | the cache of folds follows, step by step, a cache of sample lists |
| RollupCache.OverlayIsTheFold | src/python/gizmo_historian.py:1889-1900 | in any order of minutes, clock jumps, retention and crashes included, table and line together are the per-minute fold of the kept samples |
| RollupCache.CrashLeavesPrefixes | src/python/gizmo_historian.py:1889-1900 | at any moment each stored minute is the fold of a prefix of its samples |
| RollupCache.CrashLosesOneTail | src/python/gizmo_historian.py:1889-1900 | a crash loses at most a tail of the one minute in memory |
| RollupCache.CleanStopLeavesTheFold | src/python/gizmo_historian.py:1783-1791 | after a clean stop the table is exactly the fold of all samples, minute by minute |
| RollupShipping.KeptIsPart | src/python/gizmo_historian.py:1889-1900 | what a minute accounts for is what arrived for it, in order, less what crashes lost |
| RollupShipping.StoredFoldsSome | src/python/gizmo_historian.py:1889-1900 | so every stored minute, after any crashes, is the fold of such a part of its samples |
| RollupShipping.ReplicaRollupsFoldSamples | src/python/gizmo_historian.py:1515-1536 | and so is every rollup on the replica in every reachable state |
| CommandInvariant.CoreKept | src/python/gizmo_opcua.py:2386-4059 | every step of server thread, main loop and restart keeps the core invariant: the record is the active command's, memory equals disk, a locked gate runs only RestoreNormalState, every wait belongs to its command and operation |
| CommandInvariant.HistoryKept | src/python/gizmo_opcua.py:2568-2739 | every step keeps the log a serial history and every recorded success supported |
| CommandInvariant.EveryStateOk | src/python/gizmo_opcua.py:2386-4059 | both invariants hold in every state of every run |
| CommandInvariant.FinishHistory | src/python/gizmo_opcua.py:2592-2619 | finishing a command closes exactly its own chapter of the log |
| CommandInvariant.AchieveOk | src/python/gizmo_opcua.py:3877-4004 | recording a verified command's outcome keeps the invariant |
| CommandInvariant.ExpireOk | src/python/gizmo_opcua.py:4006-4059 | a deadline's restoration, fault or timeout keeps the invariant |
| CommandSafety.SerialHistory | src/python/gizmo_opcua.py:2568-2739 | in every run each request and each change to running follows its own command's acceptance with nothing of another command between, running at most once, and nothing new begins before the terminal entry; a value nobody active asked for is sent under an entry of its own |
| CommandSafety.IdsGrow | src/python/gizmo_opcua.py:2709-2738 | no command is accepted twice |
| CommandSafety.CrashIsSafe | src/python/gizmo_opcua.py:2515-2533 | a crash anywhere between acceptance and terminal entry leaves the record failed, operation and restoration unknown and the gate locked, in memory and on disk |
| CommandSafety.RequestsFollowAcceptance | src/python/gizmo_opcua.py:2693-2739 | a device request made for a command finds its acceptance on disk |
| CommandSafety.ExposedExactlyWhenUnowned | src/python/gizmo_opcua.py:2515-2533 | in every state of every run a crash restarts unlocked with a busy engine if and only if no command is active and the gate is not locked while the operation shown is busy; and that is inside a supersession, or after the operation was orphaned and not repaired |
| CommandSafety.OrphanedExactlySince | src/python/gizmo_opcua.py:2697-2703 | an operation is without an owner outside a supersession if and only if a crash fell into one, or an abort that took it over was not dispatched, or the first file showed it so, and no operation was announced and no command cut short by a crash since |
| CommandSafety.BusyOwnedExactly | src/python/gizmo_opcua.py:2546-2566 | Starting, Running and Restoring are shown either while an owning command is active, and then the right one of them, or inside a supersession, or since such an event: always exactly one of the three |
| CommandSafety.LockPersists | src/python/gizmo_opcua.py:2683-2707 | a locked gate stays locked over all steps and restarts until a RestoreNormalState is verified, and only that command can be active |
| CommandSafety.CrashBeforeSuccessRelocks | src/python/gizmo_opcua.py:3962-3974 | a crash after the lock was cleared and before success is recorded locks again |
| CommandSafety.RecordKeptByOwner | src/python/gizmo_opcua.py:2568-2648 | a command's record changes only under its own identity and never back from running; a new record starts only when none is active |
| CommandSafety.ConcurrentRequestChangesNothing | src/python/gizmo_opcua.py:2568-2578 | a request refused while a command is active changes nothing at all; the only one let through supersedes a calibration |
| CommandSafety.SuccessCarriesEvidence | src/python/gizmo_opcua.py:3843-4004 | every recorded success had a newer good measurement, another process than the one known at the start and the recorded executable (for a latch clear the first; for a write, unless a pass ended it while it was marked as pending, with the readback of the value it waited for) |
| CommandSafety.DifferedExactly | src/python/gizmo_opcua.py:3703-3810 | a write is noted as changed if and only if the engine's last value was another one at some time since it landed on its node |
| CommandSafety.RecordIsGoodExactlyWhenLast | src/python/gizmo_opcua.py:3187-3190 | the record a success rests on is good if and only if no bad one came after the last good one |
| CommandSafety.ChancesFall | src/python/gizmo_opcua.py:4006-4059 | each expired tick uses up one of a command's chances and no step gives one back |
| CommandSafety.BoundedExpiries | src/python/gizmo_opcua.py:4006-4059 | over the rest of any run a command sees at most one expired tick, a calibration at most two |
| CommandSafety.ExpiryDecides | src/python/gizmo_opcua.py:4006-4059 | an expired tick ends the command, or leaves only its record to conclude, or is a calibration's one restoration with a new deadline |
| CommandSafety.PassSettlesPending | src/python/gizmo_opcua.py:3703-3810 | a write that is marked when a pass begins is pending no longer when the main loop rests again, whatever else waits on the nodes |
| CommandSafety.PassEnds | src/python/gizmo_opcua.py:3703-3810 | every step of the main loop brings the end of its pass nearer, and no other step but a restart moves it |
| CommandStrays.OwnedExactlyWhenNotOvertaken | src/python/gizmo_opcua.py:3748-3756 | over any run every value on a node or in the main loop's hands is the active write's, or the engine's already, if and only if no success was recorded on a node read before the write landed |
| CommandStrays.OvertakenLeavesValue | src/python/gizmo_opcua.py:3748-3756 | such a success leaves the value on the node, different from the engine's, with no active command |
| CommandStrays.ChangedWriteWasReadBack | src/python/gizmo_opcua.py:3901-3928 | until then, since the last start, everything sent was asked for by the active command, and a write that succeeds by readback was shown by a record newer than the request with the value it asked for |
| CommandStrays.StrayIsSent | src/python/gizmo_opcua.py:3713-3723 | a value nobody active asked for is sent when it is fit and taken back when it is not, and no command is told |
| CommandStrays.StrayIsHanded | src/python/gizmo_opcua.py:3728-3730 | with any answer it counts as the engine's value from then on |
| CommandStrays.StrayIsTold | src/python/gizmo_opcua.py:3737-3747 | a later write of that name that the pass has looked up is told to wait for it |
| CommandFindings.UnreadExactlyWhenUnguarded | src/python/gizmo_opcua.py:2820-2830 | in every reachable state the active write can come to be recorded Succeeded by a pass, without readback, if and only if it is not marked yet or is marked and what the main loop holds and the nodes show lets a pass settle it |
| CommandFindings.UnreadSituations | src/python/gizmo_opcua.py:3703-3756 | until a success is overtaken: a marked write whose value was handed over before succeeds unread unless this pass is about to tell or fail it; one whose value still waits can if and only if the pass read the node too early or will hand the value over unnoticed |
| CommandFindings.UnreadSuccessWasUnguarded | src/python/gizmo_opcua.py:3748-3756 | in every run a write that a pass records Succeeded was unguarded in every state since its acceptance |
| CommandFindings.UnreadByPassOnly | src/python/gizmo_opcua.py:3748-3756 | nothing but a pass ends a write that is still marked as pending in success |
| CommandFindings.GuardedIsReadBack | src/python/gizmo_opcua.py:3901-3928 | in every run, once a write is guarded, its success carries the readback of the value it waited for |
| CommandWitnesses.UnmarkedIsReachable | src/python/gizmo_opcua.py:2820-2830 | a run to a pass that holds a changed value, fit or unfit, of a write not yet marked, for either setting |
| CommandWitnesses.NobodyIsReachable | src/python/gizmo_opcua.py:3703-3704 | a run to an answer in a pass that had looked up no command, for either setting |
| CommandWitnesses.OtherNameIsReachable | src/python/gizmo_opcua.py:3703-3747 | the same with a command of another name looked up |
| CommandWitnesses.FormerWriteFailsIt | src/python/gizmo_opcua.py:2631-2634 | with an earlier command of the same name looked up the write cannot succeed unread |
| CommandWitnesses.OvertakenIsReachable | src/python/gizmo_opcua.py:3705-3708 | a run to a success decided on a node read before the write landed, for either setting and any changed value |
| CommandWitnesses.StrayIsReachable | src/python/gizmo_opcua.py:3705-3723 | a run on to the next pass, which holds that value with no command active |
| CommandWitnesses.StrayForAnotherIsReachable | src/python/gizmo_opcua.py:3737-3747 | a run on to a later write about to be told to wait for it |
| CommandWitnesses.BadRecordSatisfies | src/python/gizmo_opcua.py:3877-3928 | for a latch clear, a threshold and an averages write a record of bad quality that shows what is waited for is enough |
| CommandWitnesses.LatchWaitIsReachable | src/python/gizmo_opcua.py:3877-3898 | a run to a latch clear that lacks only the record |
| CommandWitnesses.WriteWaitIsReachable | src/python/gizmo_opcua.py:3901-3928 | a run to a write that lacks only the record, for either setting |
| CommandWitnesses.CalibrationIsReachable | src/python/gizmo_opcua.py:2887-2936 | a run to a calibration that awaits its readback |
| CommandWitnesses.WindowIsReachable | src/python/gizmo_opcua.py:2697-2739 | a run through the window that ends unlocked with the engine still calibrating |
| CommandWitnesses.UndispatchedAbortIsReachable | src/python/gizmo_opcua.py:2779-2792 | a run without a crash to the same: an abort takes a calibration over and never reaches its callback; a restart leaves it so |
| CommandOutcomes.EveryLookDecides | src/python/gizmo_opcua.py:3868-4059 | one look at the active command, its conclusion included, as a table over what is waited for: with the evidence the command succeeds whatever the deadline (after the automatic restoration it times out), a calibration is shown completed, an abort aborted, a restoration idle, each verified, and only what restores unlocks; late without it everything times out, what calibrates or restores is shown failed, and that and a restart lock, but for a calibration's one restoration; otherwise nothing changes |
| CommandOutcomes.RefusesExactly | src/python/gizmo_opcua.py:2671-2707 | latch and settings need any role while commands are enabled, everything else the maintenance role in maintenance mode, and a locked gate takes only the command that restores; only an abort takes over, and only a calibration that waits or is being restored |
| CommandOutcomes.MarkedWriteOutcome | src/python/gizmo_opcua.py:3703-3810 | a pass begun for a marked write, with nothing in between: an unchanged value has succeeded; an unfit or unanswered one has failed and is taken back; a refused one has failed and stays; an accepted one is waited for, at least a second |
| CommandGate.CommandGate.constructor | src/python/gizmo_opcua.py:2420-2533 | a first start from any file, the one a crash left included |
| CommandGate.CommandGate.PersistCommandState | src/python/gizmo_opcua.py:2386-2418 | a restart then finds this record, operation and lock, and fails and locks a command that is not finished |
| CommandGate.CommandGate.RestoreCommandState | src/python/gizmo_opcua.py:2420-2533 | a missing file gives the defaults, an invalid one locks, an unfinished command fails and locks |
| CommandGate.CommandGate.SetCalibrationOperation | src/python/gizmo_opcua.py:2546-2566 | operation and restoration change and are persisted |
| CommandGate.CommandGate.RecordRejected | src/python/gizmo_opcua.py:2568-2590 | a rejection is recorded unless another command is active |
| CommandGate.CommandGate.FinishCommand | src/python/gizmo_opcua.py:2592-2619 | only the active command can be finished; its record, the lock and the file follow |
| CommandGate.CommandGate.SetCommandRunning | src/python/gizmo_opcua.py:2621-2648 | only the active command can start running, and it then waits for its readback for at least a second; otherwise nothing changes |
| CommandGate.CommandGate.BeginRemoteCommand | src/python/gizmo_opcua.py:2661-2739 | accepted exactly when role, mode, lock and the active command allow; its acceptance is on disk with the sequence, process, executable and time of that moment; a superseded calibration is closed first, in a step of its own |
| CommandGate.CommandGate.RequestMethod | src/python/gizmo_opcua.py:2861-2885 | one request; the readback of that very command is waited for when the engine accepts, and it has failed when it does not |
| CommandGate.CommandGate.SetSystemTimeMethod | src/python/gizmo_opcua.py:2981-3025 | no time, or one not between 2000 and 2100, fails without a request; otherwise as above |
| CommandGate.CommandGate.FailDispatch | src/python/gizmo_opcua.py:2779-2792 | a call that never reached its callback fails the command and leaves operation and lock as they are |
| CommandGate.CommandGate.StartCalibrationMethod | src/python/gizmo_opcua.py:2887-2936 | an argument out of range fails without a request; otherwise the operation is announced before the request |
| CommandGate.CommandGate.RestoreMethod | src/python/gizmo_opcua.py:3056-3130 | abort and restore announce Restoring; accepted, they wait to be shown aborted or idle; a failed request shows the restoration failed and locks the gate |
| CommandGate.CommandGate.NormalizeMagnitudeMethod | src/python/gizmo_opcua.py:2961-2979 | succeeds or fails at once, by what the state file reads back |
| CommandGate.CommandGate.RemoteWrite | src/python/gizmo_opcua.py:2795-2831 | the node is written, the command marked and its value noted in three steps, each of which reaches the command only if it is still active |
| CommandGate.CommandGate.ReadSetting | src/python/gizmo_opcua.py:3705-3708 | the node is read in a step of its own |
| CommandGate.CommandGate.SettingUnchanged | src/python/gizmo_opcua.py:3748-3756 | the mark is tested when the value read is found unchanged, whatever the node holds by then |
| CommandGate.CommandGate.SettingAnswered | src/python/gizmo_opcua.py:3722-3737 | without an answer the old value comes back and the pass raises; with one the new value counts as the engine's, and only a command of that name learns of a refusal |
| CommandGate.CommandGate.SettingTold | src/python/gizmo_opcua.py:2621-2648 | the command looked up is told, and the pass raises if it is no longer the active one |
| CommandGate.CommandGate.ForwardSetting | src/python/gizmo_opcua.py:3703-3756 | with nothing in between, a changed value in range is sent, one out of range or unanswered is taken back, and afterwards node and engine agree |
| CommandGate.CommandGate.ForwardConfigurationWrites | src/python/gizmo_opcua.py:3703-3810 | looks the command up first, then forwards threshold and averages, by the table of `Handles`: what changed and is in range is sent, and settings, command and record are left as the answers say; a raise leaves the averages to the next pass and fails what is pending |
| CommandGate.CommandGate.ApplyMeasurement | src/python/gizmo_opcua.py:3184-3190 | every record replaces the last one, only a good one counts as fresh |
| CommandGate.CommandGate.AdvanceActiveCommand | src/python/gizmo_opcua.py:3868-4059 | one look at the active command, by the table of `LookOutcome`, which leaves nothing half recorded |
| CommandGate.CommandGate.Restart | src/python/gizmo_opcua.py:2420-2533 | a new start from the file that is there |
| SplineTheory.ForwardStep | src/zmon/gizmo-zmon.c:1389-1393 | every pivot is positive and every factor lies in [0, 1) |
| SplineTheory.SolutionIsUnique | src/zmon/gizmo-zmon.c:1385-1399 | the tridiagonal system with zero end values has at most one solution |
| SplineTheory.NaturalExactlyWhenSolved | src/zmon/gizmo-zmon.c:1380-1402 | pieces with given curvatures are a natural spline if and only if the curvatures solve the system |
| SplineTheory.OnlyNaturalSpline | src/zmon/gizmo-zmon.c:1380-1402 | at most one natural cubic spline passes through the data |
| Spline.ComputeSplineCoefficients | src/zmon/gizmo-zmon.c:1380-1430 | for any number of strictly increasing knots the arrays hold the natural spline: the pieces meet the data, join with equal value, slope and bend, and do not bend at the ends; the last `a`, `b` and `d` stay unwritten |
| Spline.PassesSolve | src/zmon/gizmo-zmon.c:1388-1397 | forward elimination and back substitution together solve the system |
| InverseInterpolation.InterpolateY | src/zmon/gizmo-zmon.c:1432-1440 | the value of the located piece |
| InverseInterpolation.CurveMeetsData | src/zmon/gizmo-zmon.c:1432-1440 | on each interval the curve is that interval's piece and meets the data at every knot but the last, from which on it is zero |
| InverseInterpolation.NeverStopped | src/zmon/gizmo-zmon.c:1481-1484 | a search that no interval stops has seen only smaller values, so not-a-number is never returned, whatever the table |
| InverseInterpolation.SearchEnds | src/zmon/gizmo-zmon.c:1444-1485 | for any table the search ends nowhere exactly when the value exceeds those at all knots, and otherwise at the first interval whose values it lies between or by which it is below everything seen, a zero at the far end apart |
| InverseInterpolation.Bisect | src/zmon/gizmo-zmon.c:1466-1479 | the answer lies in the interval and is within the tolerance or an end of a still enclosing bracket halved once per round |
| InverseInterpolation.HalvedIsQuotient | src/zmon/gizmo-zmon.c:1469-1478 | that bracket's width is the interval's over two to the number of rounds |
| InverseInterpolation.InterpolateX | src/zmon/gizmo-zmon.c:1444-1485 | always a number: 0.1 where the value falls below what was seen, 1050 above everything, otherwise a bisected point of the first enclosing interval |
| InverseInterpolation.IncreasingTableInverts | src/zmon/gizmo-zmon.c:1444-1485 | for an increasing positive table of two knots or more those cases are exactly below the first magnitude, above the last but one, and in between; with two knots the one value in between is not enclosed at the far end |
| InverseInterpolation.ResistanceFor | src/zmon/gizmo-zmon.c:468-509 | table to resistance: coefficients, then the inverse, within 0.000001 of the magnitude or at the end of a bracket halved 100 times |
| InverseInterpolation.InterpolatePhase | src/zmon/gizmo-zmon.c:1487-1506 | the value of the located piece, the last piece going on beyond the table |
| InverseInterpolation.PhaseMeetsData | src/zmon/gizmo-zmon.c:1487-1506 | the phase curve meets the data at every knot, the last included |
| InverseInterpolation.PhaseIsPiecewise | src/zmon/gizmo-zmon.c:1487-1506 | between two knots the phase is their piece, below the table the first piece and above it the last one continued |
| Relays.BitsOfSum | src/zmon/gizmo-zmon.c:659-672 | combination index + 1 is 2^k + mask: bit k and the mask's bits, no others |
| Relays.WordsDiffer | src/zmon/gizmo-zmon.c:632-652 | words that show different combinations differ |
| Relays.BaseWordIsTheConstant | src/zmon/gizmo-zmon.c:752 | the fields at rest are the word 0xA5556AAA |
| Relays.NumericIsInjective | src/zmon/gizmo-zmon.c:632-652 | a word and its two-bit fields determine each other |
| Relays.ResistorWord | src/zmon/gizmo-zmon.c:632-652 | the word shows the combination on the resistors, capacitors off, top fields forced |
| Relays.CapacitorWord | src/zmon/gizmo-zmon.c:752-769 | the word shows the combination on the capacitors, everything else on |
| Relays.CombinationTotals | src/zmon/gizmo-zmon.c:657-684 | entry i is the sum of the values in combination i + 1 |
| Relays.TotalsAscendExactly | src/zmon/gizmo-zmon.c:689-693 | the swept totals ascend strictly if and only if each value swept exceeds the sum of those before it |
| Relays.SweepResistors | src/zmon/gizmo-zmon.c:632-741 | row p shows combination p and has its total, the sum of the resistors whose field is ON; every field is ON or OFF, and the readings are those of that word |
| Relays.SweepCapacitors | src/zmon/gizmo-zmon.c:752-864 | the same for the capacitors |
| Relays.SortByTotal | src/zmon/gizmo-zmon.c:1565-1596 | ascending totals, and the same rows as before, each whole |
| Relays.CalibrateCapacitors | src/zmon/gizmo-zmon.c:752-873 | after the sort the table has each combination exactly once, with its total and the readings of its word |
| Relays.RelayBoard.ChangeRelay | src/zmon/gizmo-zmon.c:1088-1107 | one relay's field becomes ON or OFF, all others stay; odd addresses and states fall back as in the code |
| SdrStream.OfferedOk | src/python/gizmo_sdr.py:65-80 | whatever a send does, the client's bytes remain whole sampled frames and a prefix of its pending one |
| SdrStream.SdrSender.Accept | src/python/gizmo_sdr.py:54-61 | a new client starts with nothing pending |
| SdrStream.SdrSender.Serve | src/python/gizmo_sdr.py:65-80 | one client's entry and stream after one send |
| SdrStream.SdrSender.Pass | src/python/gizmo_sdr.py:63-80 | every client is served exactly once per pass, from its pending frame or the new one; a blocked send keeps client and frame, a send moves on by what was taken, and only a broken one or one of nothing closes |
| SdrStream.BlocksAreFrames | src/python/gizmo_opcua.py:3169-3182 | each fixed-size block of a client's bytes is one frame sampled as one piece |
| SdrStream.CollectFrame | src/python/gizmo_opcua.py:3169-3182 | the reader gets the first frame's worth of bytes however they are cut up, and fails exactly when there are fewer |
| SdrStream.ReadFrame | src/python/gizmo_opcua.py:3169-3182 | a reader succeeds exactly when a whole frame was sent, and holds the first one |
| MeasurementRecord.ScanPrinted | src/zmon/gizmo-zmon.c:592 | scanning a printed record gives back its fields in order |
| MeasurementRecord.UnwrapPrinted | src/python/gizmo_model.py:433-435 | with or without the prefix the same record is scanned |
| MeasurementRecord.RecordRoundTrip | src/python/gizmo_model.py:433-438 | for any comma-free values the parsed map is exactly the printed names with the printed values up to trimming |
| MeasurementRecord.ParseCsv | src/display/eve_example.c:325-360 | the first eleven non-empty tokens, filled up with empty text |
| MeasurementRecord.DisplayAgrees | src/display/eve_example.c:325-360 | the display's i-th token is the i-th printed field, and its value is what the server parses for that name |

## Left out

- IEEE floating point: all measured values are reals. The float partial sums of the sweep, the mean-times-count
  decoding of rollups and the bisection are exact only over reals.
- HTTP, sockets, ZeroMQ, OPC UA transport and address space, publishing of values, health aggregation and
  scheduling.
- Authentication, certificates and file modes: role and gate mode are inputs of `BeginRemoteCommand`.
- zlib, base64, JSON and SHA-256 bodies: a payload is either damaged or an encoding that decodes; a hash is text.
- The two reads of `replication_batch` (rows and streams) are one snapshot, as is the reply they make up.
- ReplicationSystem.ReplicationAgreement: holds for rows written on time, because a late one can be missed
  (`MissedExactlyWhenLate`). Rollup buckets are taken to be no earlier than the epoch.
- A replica that already knows several sources and has none pinned: the model has one edge and one replica.
- `_check_disk`, connection events and the recorder's other threads; an import that fails is retried by the caller.
- Failed writes of the command state file: persisting is taken to succeed, as one atomic replacement.
- A stored command state that is invalid only in its second half, after the audit record was already read.
- The legacy nodes beside the two canonical settings, and the other legacy commands of the forwarding pass: remote
  sessions can write the canonical nodes only, so a pass finds nothing new there.
- The main loop's look at the active command holds the lock and is one step; the server thread's mark, which does
  not take the lock, falls before or after it, or before or after the change to running.
- Results, parameters, requesters and progress percentages of commands; a command's identifier is a number that
  was never used before.
- The checks of `capture-adc` on the file are one boolean input; requests to the engine are answered good, bad or
  not at all.
- Reloads of the whole measured table from files, `findCenterOfCap`, the sine table, lock-in sums, latch files and
  the phase value the calibration overwrites at row zero.
- Relay words are sequences of two-bit fields; the shifts and masks of the code act on whole fields.
- Relays.SweepResistors: the converter's reading is a function of the relay word, because what it measures is
  outside the program.
- Relays.RelayBoard.ChangeRelay: addresses are not negative, because the code would shift by them.
- SdrStream.SdrSender.Pass: frames are not empty, because an empty send closes the client at once.
- Unicode blanks: blanks are the six ASCII ones, for the pattern and for trimming alike.
- `parse_legacy_measurement` after its field map: the interpretation of each value.
