/** What the command gate guarantees over every run, crashes included, and where
    it does not. */
module CommandSafety {
  import opened Wrappers
  import opened CommandState
  import opened CommandInvariant

  // ------------------------------------------------------------ serial history

  predicate IsOwn(entry: Entry, id: int) {
    (entry.RequestEntry? || entry.RunningEntry?) && entry.id == id
  }

  /** From the acceptance at `p` up to `q` the log speaks of that command alone,
      which was seen running at most once; besides, a value nobody active has asked
      for may have been sent. */
  ghost predicate Chapter(log: seq<Entry>, p: nat, q: nat) {
    && p < q <= |log|
    && log[p].AcceptedEntry?
    && (forall k :: p < k < q ==> log[k].StrayEntry? || IsOwn(log[k], log[p].ticket.id))
    && (forall j, k :: p < j < k < q && log[j].RunningEntry? ==> !log[k].RunningEntry?)
  }

  lemma {:induction false} PrefixSerial(log: seq<Entry>, k: nat)
    requires TrackOf(log) != Broken && k <= |log|
    ensures TrackOf(log[..k]) != Broken
    decreases |log|
  {
    if k < |log| {
      PrefixSerial(log[..|log| - 1], k);
      assert log[..|log| - 1][..k] == log[..k];
    } else {
      assert log[..k] == log;
    }
  }

  /** An open history was opened by its own acceptance, and nothing else since. */
  lemma {:induction false} OpenSince(log: seq<Entry>) returns (p: nat)
    requires TrackOf(log).Pending? || TrackOf(log).Underway?
    ensures Chapter(log, p, |log|) && log[p].ticket == TrackOf(log).ticket
    ensures TrackOf(log).Pending? ==> forall k :: p < k < |log| ==> !log[k].RunningEntry?
    decreases |log|
  {
    var front, last := log[..|log| - 1], log[|log| - 1];
    if last.AcceptedEntry? {
      p := |log| - 1;
    } else {
      p := OpenSince(front);
      assert forall k :: 0 <= k < |front| ==> log[k] == front[k];
    }
  }

  predicate Closes(entry: Entry) {
    entry.RejectedEntry? || entry.TerminalEntry?
  }

  /** The last entry before `q` that is not a stray one. */
  ghost predicate LastBefore(log: seq<Entry>, r: nat, q: nat) {
    r < q <= |log| && !log[r].StrayEntry? && forall k :: r < k < q ==> log[k].StrayEntry?
  }

  /** Between commands the last entry closed one. */
  ghost predicate BetweenChapters(log: seq<Entry>, q: nat) {
    forall r: nat :: LastBefore(log, r, q) ==> Closes(log[r])
  }

  lemma {:induction false} QuietBetween(log: seq<Entry>)
    requires TrackOf(log).Quiet?
    ensures BetweenChapters(log, |log|)
  {
    if log != [] {
      var front, last := log[..|log| - 1], log[|log| - 1];
      if last.StrayEntry? { QuietBetween(front); }
      forall r: nat | LastBefore(log, r, |log|)
        ensures Closes(log[r])
      {
        if last.StrayEntry? { assert LastBefore(front, r, |front|); }
      }
    }
  }

  /** The log of every run is a sequence of chapters: a rejection by itself, or an
      acceptance, that command's own requests with at most one change to running,
      and its terminal entry, before anything else begins.  What nobody active has
      asked for is sent under an entry of its own. */
  lemma SerialHistory(states: seq<State>, steps: seq<Step>, i: nat, q: nat)
    requires IsRun(states, steps) && i <= |steps| && q < |states[i].past.log|
    ensures var log := states[i].past.log;
            match log[q]
            case RejectedEntry(_) => BetweenChapters(log, q)
            case AcceptedEntry(_) => BetweenChapters(log, q)
            case StrayEntry(_, _) => true
            case RequestEntry(id) => exists p: nat :: Chapter(log, p, q) && log[p].ticket.id == id
            case RunningEntry(id) => exists p: nat :: Chapter(log, p, q + 1) && log[p].ticket.id == id
            case TerminalEntry(ticket, state, _, _, _, _, _) =>
              && state in {Succeeded, Failed, TimedOut}
              && exists p: nat :: Chapter(log, p, q) && log[p].ticket == ticket
  {
    EveryStateOk(states, steps, i);
    var log := states[i].past.log;
    PrefixSerial(log, q + 1);
    var upTo, before := log[..q + 1], log[..q];
    assert upTo[..q] == before;
    if log[q].RequestEntry? || log[q].RunningEntry? || log[q].TerminalEntry? {
      var p := OpenSince(before);
      assert Chapter(log, p, q);
      if log[q].RunningEntry? { assert Chapter(log, p, q + 1); }
    } else if !log[q].StrayEntry? {
      QuietBetween(before);
      forall r: nat | LastBefore(log, r, q)
        ensures Closes(log[r])
      {
        assert LastBefore(before, r, q);
      }
    }
  }

  /** No command is accepted twice. */
  lemma {:induction false} IdsGrow(log: seq<Entry>, p: nat, q: nat)
    requires TrackOf(log) != Broken && p < q < |log|
    requires log[p].AcceptedEntry? && log[q].AcceptedEntry?
    ensures log[p].ticket.id < log[q].ticket.id
  {
    PrefixSerial(log, q + 1);
    assert log[..q + 1][..q] == log[..q];
    IdsBelow(log[..q], p);
  }

  function Bound(track: Track): int
    requires track != Broken
  {
    if track.Quiet? then track.next else track.ticket.id + 1
  }

  lemma {:induction false} IdsBelow(log: seq<Entry>, p: nat)
    requires TrackOf(log) != Broken && p < |log| && log[p].AcceptedEntry?
    ensures log[p].ticket.id < Bound(TrackOf(log))
    decreases |log|
  {
    var front := log[..|log| - 1];
    if p < |front| { IdsBelow(front, p); }
  }

  // --------------------------------------------------------------- crash safety

  /** After a command's acceptance and before its terminal entry, a crash leaves a
      failed record, an unknown operation and a locked gate, in memory and on disk. */
  lemma CrashIsSafe(states: seq<State>, steps: seq<Step>, i: nat, threshold: int, averages: int)
    requires IsRun(states, steps) && i <= |steps|
    requires var track := TrackOf(states[i].past.log); track.Pending? || track.Underway?
    ensures var id, after := TrackOf(states[i].past.log).ticket.id, Restarted(states[i], threshold, averages);
            && states[i].audit.id == id && Unfinished(states[i].audit.state)
            && after.active == None
            && after.audit == Audit(id, Failed)
            && after.calibration == Calibration(OperationUnknown, RestorationUnknown)
            && after.locked
            && after.disk == Record(true, after.audit, after.calibration)
  {
    EveryStateOk(states, steps, i);
  }

  /** A device request made for a command finds the command's acceptance on disk. */
  lemma RequestsFollowAcceptance(states: seq<State>, steps: seq<Step>, i: nat, id: int)
    requires IsRun(states, steps) && i < |steps|
    requires states[i + 1].past.log == states[i].past.log + [RequestEntry(id)]
    ensures var disk := states[i].disk;
            disk.Record? && disk.audit.id == id && Unfinished(disk.audit.state)
    ensures exists p: nat :: Chapter(states[i].past.log, p, |states[i].past.log|) && states[i].past.log[p].ticket.id == id
  {
    EveryStateOk(states, steps, i);
    EveryStateOk(states, steps, i + 1);
    var log := states[i].past.log;
    assert (log + [RequestEntry(id)])[..|log|] == log;
    var p := OpenSince(log);
  }

  /** The engine may be calibrating or restoring, and the gate is open. */
  predicate Exposed(s: State, threshold: int, averages: int) {
    Busy(s.calibration.state) && !Restarted(s, threshold, averages).locked
  }

  /** The operation shown has lost its owner, and no supersession is under way. */
  predicate Orphaned(s: State) {
    Busy(s.calibration.state) && !Owned(s) && !s.server.Superseding?
  }

  /** A crash exposes the engine exactly when no command is active and the gate is
      not locked: between the superseded calibration's record and the abort's, or
      when the operation was orphaned before. */
  lemma ExposedExactlyWhenUnowned(states: seq<State>, steps: seq<Step>, i: nat, threshold: int, averages: int)
    requires IsRun(states, steps) && i <= |steps|
    ensures var s := states[i];
            && (Exposed(s, threshold, averages) <==> Busy(s.calibration.state) && s.active.None? && !s.locked)
            && (Exposed(s, threshold, averages) <==>
                  s.active.None? && !s.locked && (s.server.Superseding? || OrphanedSince(states, steps, i)))
  {
    EveryStateOk(states, steps, i);
    OrphanedExactlySince(states, steps, i);
  }

  /** An operation is orphaned by a crash in that window, and by an abort that took
      it over and never reached its callback. */
  predicate Orphans(s: State, step: Step) {
    || (step.Restart? && s.server.Superseding?)
    || (step.NotDispatched? && Owned(s))
  }

  /** It has an owner again with the next announced operation; and a crash during a
      command makes it unknown. */
  predicate Repairs(s: State, step: Step) {
    step.Prepare? || (step.Restart? && s.active.Some?)
  }

  /** What this step does to an operation's owner. */
  predicate OrphansInTurn(s: State, step: Step, t: State) {
    Orphaned(t) <==> Orphans(s, step) || (Orphaned(s) && !Repairs(s, step))
  }

  lemma DecideOrphansNothing(s: State, kind: Kind, who: Option<Captured>, value: int)
    requires CoreOk(s) && s.main == Deciding(kind, who, value)
    ensures Orphaned(DecideNext(s, kind, who, value)) <==> Orphaned(s)
  {}

  lemma AdvanceOrphansNothing(s: State, mono: int, adcOk: bool, restoreOk: bool, restoreTimeout: int)
    requires CoreOk(s) && s.main.Resting? && !s.server.Superseding?
    ensures Orphaned(AdvanceNext(s, mono, adcOk, restoreOk, restoreTimeout)) <==> Orphaned(s)
  {}

  lemma RestartOrphans(s: State, threshold: int, averages: int)
    requires CoreOk(s)
    ensures Orphaned(Restarted(s, threshold, averages)) <==> s.server.Superseding? || (Orphaned(s) && s.active.None?)
  {}

  lemma AccessOrphansNothing(s: State, step: Step)
    requires CoreOk(s) && Enabled(s, step) && IsAccess(step)
    ensures OrphansInTurn(s, step, Next(s, step))
  {}

  lemma CallbackOrphans(s: State, step: Step)
    requires CoreOk(s) && Enabled(s, step) && IsServerStep(step) && !IsAccess(step)
    ensures OrphansInTurn(s, step, Next(s, step))
  {}

  lemma AnsweredOrphansNothing(s: State, kind: Kind, who: Option<Captured>, value: int, answer: Answer)
    requires CoreOk(s) && s.main == Sent(kind, who, value)
    ensures Orphaned(AnsweredNext(s, kind, who, value, answer)) <==> Orphaned(s)
  {
    AnsweredMoves(s, kind, who, value, answer);
  }

  lemma PassOrphansNothing(s: State, step: Step)
    requires CoreOk(s) && Enabled(s, step) && IsPassStep(step)
    ensures OrphansInTurn(s, step, Next(s, step))
  {
    if step.Decide? { DecideOrphansNothing(s, s.main.kind, s.main.who, s.main.value); }
    else if step.Answered? { AnsweredOrphansNothing(s, s.main.kind, s.main.who, s.main.value, step.answer); }
  }

  lemma OrphanStep(s: State, step: Step)
    requires CoreOk(s) && Enabled(s, step)
    ensures OrphansInTurn(s, step, Next(s, step))
  {
    if IsAccess(step) { AccessOrphansNothing(s, step); }
    else if IsServerStep(step) { CallbackOrphans(s, step); }
    else if IsPassStep(step) { PassOrphansNothing(s, step); }
    else if step.Advance? { AdvanceOrphansNothing(s, step.mono, step.adcOk, step.restoreOk, step.restoreTimeout); }
    else if step.Restart? { RestartOrphans(s, step.thresholdOhm, step.averagesPer); }
  }

  /** It was orphaned by the step before state `k`, or before the first start, and
      nothing has repaired that until `i`. */
  ghost predicate LeftSince(states: seq<State>, steps: seq<Step>, k: nat, i: nat)
    requires |states| == |steps| + 1 && k <= i <= |steps|
  {
    && (if k == 0 then Busy(states[0].calibration.state) else Orphans(states[k - 1], steps[k - 1]))
    && forall j :: k <= j < i ==> !Repairs(states[j], steps[j])
  }

  ghost predicate OrphanedSince(states: seq<State>, steps: seq<Step>, i: nat)
    requires |states| == |steps| + 1 && i <= |steps|
  {
    exists k: nat :: k <= i && LeftSince(states, steps, k, i)
  }

  lemma SinceOneMore(states: seq<State>, steps: seq<Step>, i: nat)
    requires |states| == |steps| + 1 && 0 < i <= |steps|
    ensures OrphanedSince(states, steps, i) <==>
              || Orphans(states[i - 1], steps[i - 1])
              || (OrphanedSince(states, steps, i - 1) && !Repairs(states[i - 1], steps[i - 1]))
  {
    if Orphans(states[i - 1], steps[i - 1]) { assert LeftSince(states, steps, i, i); }
    if OrphanedSince(states, steps, i - 1) && !Repairs(states[i - 1], steps[i - 1]) {
      var k: nat :| k <= i - 1 && LeftSince(states, steps, k, i - 1);
      assert LeftSince(states, steps, k, i);
    }
    if OrphanedSince(states, steps, i) {
      var k: nat :| k <= i && LeftSince(states, steps, k, i);
      if k < i { assert LeftSince(states, steps, k, i - 1); }
    }
  }

  lemma OrphanedAfterStep(states: seq<State>, steps: seq<Step>, i: nat)
    requires IsRun(states, steps) && 0 < i <= |steps|
    ensures OrphansInTurn(states[i - 1], steps[i - 1], states[i])
  {
    EveryStateOk(states, steps, i - 1);
    OrphanStep(states[i - 1], steps[i - 1]);
  }

  lemma {:induction false} OrphanedExactlySince(states: seq<State>, steps: seq<Step>, i: nat)
    requires IsRun(states, steps) && i <= |steps|
    ensures Orphaned(states[i]) <==> OrphanedSince(states, steps, i)
  {
    if i == 0 {
      if Busy(states[0].calibration.state) { assert LeftSince(states, steps, 0, 0); }
    } else {
      OrphanedExactlySince(states, steps, i - 1);
      OrphanedAfterStep(states, steps, i);
      SinceOneMore(states, steps, i);
    }
  }

  /** Starting, Running and Restoring are shown either while an owning command is
      active, and then the right one of them, or inside a supersession, or since the
      operation was orphaned: never two of these, and always one. */
  lemma BusyOwnedExactly(states: seq<State>, steps: seq<Step>, i: nat)
    requires IsRun(states, steps) && i <= |steps| && Busy(states[i].calibration.state)
    ensures Owned(states[i]) <==> !states[i].server.Superseding? && !OrphanedSince(states, steps, i)
    ensures states[i].server.Superseding? ==> !OrphanedSince(states, steps, i)
    ensures Owned(states[i]) ==>
              var c := states[i].active.value;
              && NeedsOperation(c.name)
              && (c.verification == AwaitCalibration ==> states[i].calibration.state == Calibrating)
              && (c.verification in {AwaitTimeoutRestore, AwaitRestore} ==> states[i].calibration.state == Restoring)
  {
    EveryStateOk(states, steps, i);
    OrphanedExactlySince(states, steps, i);
  }

  // ----------------------------------------------------------------- fault lock

  /** The step that verifies a RestoreNormalState command. */
  predicate Unlocks(s: State, step: Step) {
    && step.Advance?
    && s.active.Some? && s.active.value.name == RestoreNormalState && s.active.value.verification == AwaitRestore
    && NormalModeVerified(s.active.value, s.seen)
  }

  lemma LockedStep(s: State, step: Step)
    requires CoreOk(s) && Enabled(s, step) && s.locked
    ensures Next(s, step).locked || Unlocks(s, step)
  {
    if IsPassStep(step) { LockedPass(s, step); }
    else if IsServerStep(step) { LockedServer(s, step); }
  }

  lemma LockedPass(s: State, step: Step)
    requires CoreOk(s) && Enabled(s, step) && s.locked && IsPassStep(step)
    ensures Next(s, step).locked
  {}

  lemma LockedServer(s: State, step: Step)
    requires CoreOk(s) && Enabled(s, step) && s.locked && IsServerStep(step)
    ensures Next(s, step).locked
  {}

  /** Once locked, the gate stays locked over every step and restart until a
      RestoreNormalState command is verified. */
  lemma {:induction false} LockPersists(states: seq<State>, steps: seq<Step>, i: nat, j: nat)
    requires IsRun(states, steps) && i <= j <= |steps|
    requires states[i].locked
    requires forall k :: i <= k < j ==> !Unlocks(states[k], steps[k])
    ensures states[j].locked
    ensures states[j].active.Some? ==> states[j].active.value.name == RestoreNormalState
    decreases j
  {
    EveryStateOk(states, steps, j);
    if i < j {
      LockPersists(states, steps, i, j - 1);
      EveryStateOk(states, steps, j - 1);
      LockedStep(states[j - 1], steps[j - 1]);
    }
  }

  /** The lock is cleared a little before the command's success is recorded: a
      crash in between locks the gate again. */
  lemma CrashBeforeSuccessRelocks(states: seq<State>, steps: seq<Step>, i: nat, threshold: int, averages: int)
    requires IsRun(states, steps) && i <= |steps|
    requires states[i].main.Concluding? && states[i].main.outcome == Succeeded
    ensures !states[i].main.lock
    ensures states[i].active.Some? && states[i].active.value.verification in {AwaitCalibration, AwaitRestore}
    ensures Restarted(states[i], threshold, averages).locked
  {
    EveryStateOk(states, steps, i);
  }

  // ------------------------------------------------------------------ ownership

  /** Nobody but its owner changes a command's record: it moves from accepted to
      running to a terminal state under its own identity, and only when no command
      is active does the record start afresh under a new one. */
  predicate KeptByOwner(s: State, t: State) {
    && (s.active.Some? ==> t.audit.id == s.audit.id)
    && (s.active.Some? && t.active.Some? ==>
          && t.active.value.id == s.active.value.id
          && t.active.value.name == s.active.value.name
          && t.active.value.requestedAt == s.active.value.requestedAt
          && t.active.value.expectedHash == s.active.value.expectedHash
          && (s.audit.state == Running ==> t.audit.state == Running))
    && (s.active.None? && t.audit != s.audit ==>
          t.audit == Audit(s.nextId, if t.active.Some? then Accepted else Rejected))
  }

  lemma RecordKeptByOwner(states: seq<State>, steps: seq<Step>, i: nat)
    requires IsRun(states, steps) && i < |steps|
    ensures KeptByOwner(states[i], states[i + 1])
  {
    EveryStateOk(states, steps, i);
    StepKeepsOwner(states[i], steps[i]);
  }

  lemma DecideKeepsOwner(s: State, kind: Kind, who: Option<Captured>, value: int)
    requires CoreOk(s)
    ensures KeptByOwner(s, DecideNext(s, kind, who, value))
  {}

  lemma AnsweredKeepsOwner(s: State, kind: Kind, who: Option<Captured>, value: int, answer: Answer)
    ensures KeptByOwner(s, AnsweredNext(s, kind, who, value, answer))
  {}

  lemma PassKeepsOwner(s: State, step: Step)
    requires CoreOk(s) && Enabled(s, step) && IsPassStep(step)
    ensures KeptByOwner(s, Next(s, step))
  {
    if step.Decide? { DecideKeepsOwner(s, s.main.kind, s.main.who, s.main.value); }
    else if step.Answered? { AnsweredKeepsOwner(s, s.main.kind, s.main.who, s.main.value, step.answer); }
  }

  lemma AccessKeepsOwner(s: State, step: Step)
    requires CoreOk(s) && Enabled(s, step) && IsAccess(step)
    ensures KeptByOwner(s, Next(s, step))
  {}

  lemma CallbackKeepsOwner(s: State, step: Step)
    requires CoreOk(s) && Enabled(s, step) && IsServerStep(step) && !IsAccess(step)
    ensures KeptByOwner(s, Next(s, step))
  {}

  lemma AdvanceKeepsOwner(s: State, mono: int, adcOk: bool, restoreOk: bool, restoreTimeout: int)
    requires CoreOk(s)
    ensures KeptByOwner(s, AdvanceNext(s, mono, adcOk, restoreOk, restoreTimeout))
  {
    if s.active.Some? {
      AchieveKeepsOwner(s);
      ExpireKeepsOwner(s, mono, restoreOk, restoreTimeout);
    }
  }

  lemma AchieveKeepsOwner(s: State)
    requires CoreOk(s) && s.active.Some?
    ensures KeptByOwner(s, Achieve(s, s.active.value)) && KeptByOwner(s, Finish(s, s.active.value.id, Succeeded, false))
  {}

  lemma ExpireKeepsOwner(s: State, mono: int, restoreOk: bool, restoreTimeout: int)
    requires CoreOk(s) && s.active.Some?
    ensures KeptByOwner(s, Expire(s, s.active.value, mono, restoreOk, restoreTimeout))
  {}

  lemma StepKeepsOwner(s: State, step: Step)
    requires CoreOk(s) && Enabled(s, step)
    ensures KeptByOwner(s, Next(s, step))
  {
    if IsPassStep(step) { PassKeepsOwner(s, step); }
    else if IsAccess(step) { AccessKeepsOwner(s, step); }
    else if IsServerStep(step) { CallbackKeepsOwner(s, step); }
    else if step.Advance? { AdvanceKeepsOwner(s, step.mono, step.adcOk, step.restoreOk, step.restoreTimeout); }
  }

  /** A request refused while another command is active leaves no trace at all;
      the only request that does not wait its turn supersedes a calibration. */
  lemma ConcurrentRequestChangesNothing(states: seq<State>, steps: seq<Step>, i: nat)
    requires IsRun(states, steps) && i < |steps|
    requires steps[i].Begin? && states[i].active.Some?
    ensures var name := steps[i].name;
            if !Refuses(states[i], name, steps[i].role, steps[i].gate) && Supersedes(states[i], name)
            then && states[i + 1].active.None? && states[i].active.value.name == StartCalibration
                 && states[i + 1].audit == Audit(states[i].active.value.id, Failed)
            else states[i + 1] == states[i]
  {
    EveryStateOk(states, steps, i);
  }

  // ----------------------------------------------------------- success evidence

  /** Every recorded success rests on the evidence its command asks for. */
  lemma SuccessCarriesEvidence(states: seq<State>, steps: seq<Step>, i: nat, q: nat)
    requires IsRun(states, steps) && i <= |steps| && q < |states[i].past.log|
    requires states[i].past.log[q].TerminalEntry? && states[i].past.log[q].state == Succeeded
    ensures var entry := states[i].past.log[q];
            Supported(entry.ticket, entry.at, entry.expected, entry.seen, entry.asked)
  {
    EveryStateOk(states, steps, i);
  }

  /** The engine's last value differs from what the command asked for. */
  predicate Differs(s: State, kind: Kind, value: int) {
    SettingOf(s, kind).last != value
  }

  /** While the command is active, what it asked for stays, and is noted to differ
      from the engine's last value as soon as it does. */
  predicate Compares(s: State, t: State, id: int) {
    Holds(s, id) && Holds(t, id) && s.past.asked.Some? ==>
      && t.past.asked == s.past.asked && t.active.value.name == s.active.value.name
      && (t.past.differed <==> s.past.differed || Differs(t, KindOf(s.active.value.name), s.past.asked.value))
  }

  lemma DecideCompares(s: State, kind: Kind, who: Option<Captured>, value: int, id: int)
    requires CoreOk(s)
    ensures Compares(s, DecideNext(s, kind, who, value), id)
  {}

  lemma AnsweredCompares(s: State, kind: Kind, who: Option<Captured>, value: int, answer: Answer, id: int)
    requires CoreOk(s)
    ensures Compares(s, AnsweredNext(s, kind, who, value, answer), id)
  {}

  lemma PassCompares(s: State, step: Step, id: int)
    requires CoreOk(s) && Enabled(s, step) && IsPassStep(step)
    ensures Compares(s, Next(s, step), id)
  {
    if step.Decide? { DecideCompares(s, s.main.kind, s.main.who, s.main.value, id); }
    else if step.Answered? { AnsweredCompares(s, s.main.kind, s.main.who, s.main.value, step.answer, id); }
  }

  lemma AdvanceCompares(s: State, mono: int, adcOk: bool, restoreOk: bool, restoreTimeout: int, id: int)
    requires CoreOk(s)
    ensures Compares(s, AdvanceNext(s, mono, adcOk, restoreOk, restoreTimeout), id)
  {
    if s.active.Some? {
      AchieveCompares(s, id);
      ExpireCompares(s, mono, restoreOk, restoreTimeout, id);
    }
  }

  lemma AchieveCompares(s: State, id: int)
    requires CoreOk(s) && s.active.Some?
    ensures Compares(s, Achieve(s, s.active.value), id) && Compares(s, Finish(s, s.active.value.id, Succeeded, false), id)
  {}

  lemma ExpireCompares(s: State, mono: int, restoreOk: bool, restoreTimeout: int, id: int)
    requires CoreOk(s) && s.active.Some?
    ensures Compares(s, Expire(s, s.active.value, mono, restoreOk, restoreTimeout), id)
  {}

  lemma ServerCompares(s: State, step: Step, id: int)
    requires CoreOk(s) && Enabled(s, step) && IsServerStep(step)
    ensures Compares(s, Next(s, step), id)
  {}

  lemma StepCompares(s: State, step: Step, id: int)
    requires CoreOk(s) && Enabled(s, step)
    ensures Compares(s, Next(s, step), id)
  {
    if IsPassStep(step) { PassCompares(s, step, id); }
    else if IsServerStep(step) { ServerCompares(s, step, id); }
    else if step.Advance? { AdvanceCompares(s, step.mono, step.adcOk, step.restoreOk, step.restoreTimeout, id); }
  }

  /** The engine's last value was another one at some time since the write landed. */
  ghost predicate DifferedBetween(states: seq<State>, i: nat, j: nat, kind: Kind, value: int)
    requires i <= j < |states|
  {
    exists k :: i < k <= j && Differs(states[k], kind, value)
  }

  lemma DifferedOneMore(states: seq<State>, i: nat, j: nat, kind: Kind, value: int)
    requires i < j < |states|
    ensures DifferedBetween(states, i, j, kind, value) <==>
              DifferedBetween(states, i, j - 1, kind, value) || Differs(states[j], kind, value)
  {}

  ghost predicate ActiveBetween(states: seq<State>, i: nat, j: nat, id: int)
    requires i <= j < |states|
  {
    forall k :: i <= k <= j ==> Holds(states[k], id)
  }

  lemma LandsNow(s: State, kind: Kind, value: int)
    requires CoreOk(s) && s.server.Writing? && s.server.kind == kind && Holds(s, s.server.id)
    ensures var t := WriteNext(s, true, value);
            && t.past.asked == Some(value) && t.active == s.active && s.active.value.name == NameOf(kind)
            && (t.past.differed <==> Differs(t, kind, value))
  {}

  lemma RunLands(states: seq<State>, steps: seq<Step>, i: nat, kind: Kind, value: int)
    requires IsRun(states, steps) && i < |steps| && steps[i] == WriteNode(true, value)
    requires states[i].server.Writing? && states[i].server.kind == kind && Holds(states[i], states[i].server.id)
    ensures states[i + 1].past.asked == Some(value) && states[i + 1].active == states[i].active
    ensures states[i].active.value.name == NameOf(kind)
    ensures states[i + 1].past.differed <==> Differs(states[i + 1], kind, value)
  {
    EveryStateOk(states, steps, i);
    LandsNow(states[i], kind, value);
    assert states[i + 1] == WriteNext(states[i], true, value);
  }

  lemma RunCompares(states: seq<State>, steps: seq<Step>, i: nat, id: int)
    requires IsRun(states, steps) && i < |steps|
    ensures Compares(states[i], states[i + 1], id)
  {
    EveryStateOk(states, steps, i);
    StepCompares(states[i], steps[i], id);
  }

  /** The write is noted as changed if and only if it has been since it landed. */
  ghost predicate NotedRight(states: seq<State>, i: nat, j: nat, kind: Kind, value: int)
    requires i <= j < |states|
  {
    && states[j].active.Some? && states[j].active.value.name == NameOf(kind) && states[j].past.asked == Some(value)
    && (states[j].past.differed <==> DifferedBetween(states, i, j, kind, value))
  }

  lemma NotedLater(states: seq<State>, i: nat, j: nat, id: int, kind: Kind, value: int)
    requires i < j && j + 1 < |states| && NotedRight(states, i, j, kind, value)
    requires Compares(states[j], states[j + 1], id) && Holds(states[j], id) && Holds(states[j + 1], id)
    ensures NotedRight(states, i, j + 1, kind, value)
  {
    DifferedOneMore(states, i, j + 1, kind, value);
  }

  ghost predicate ComparesBetween(states: seq<State>, i: nat, j: nat, id: int)
    requires i <= j < |states|
  {
    forall k :: i <= k < j ==> Compares(states[k], states[k + 1], id)
  }

  lemma {:induction false} NotedAlong(states: seq<State>, i: nat, j: nat, id: int, kind: Kind, value: int)
    requires i < j < |states| && NotedRight(states, i, i + 1, kind, value)
    requires ActiveBetween(states, i, j, id) && ComparesBetween(states, i, j, id)
    ensures NotedRight(states, i, j, kind, value)
    decreases j
  {
    if i + 1 < j {
      NotedAlong(states, i, j - 1, id, kind, value);
      NotedLater(states, i, j - 1, id, kind, value);
    }
  }

  lemma NotedFirst(states: seq<State>, steps: seq<Step>, i: nat, id: int, kind: Kind, value: int)
    requires IsRun(states, steps) && i < |steps|
    requires steps[i] == WriteNode(true, value) && states[i].server == Writing(id, kind) && Holds(states[i], id)
    ensures NotedRight(states, i, i + 1, kind, value)
  {
    RunLands(states, steps, i, kind, value);
  }

  lemma RunComparesBetween(states: seq<State>, steps: seq<Step>, i: nat, j: nat, id: int)
    requires IsRun(states, steps) && i <= j <= |steps|
    ensures ComparesBetween(states, i, j, id)
  {
    forall k | i <= k < j
      ensures Compares(states[k], states[k + 1], id)
    {
      RunCompares(states, steps, k, id);
    }
  }

  /** A write is noted as changed if and only if, at some time since it landed on
      its node, the engine's last value was another one. */
  lemma DifferedExactly(states: seq<State>, steps: seq<Step>, i: nat, j: nat, id: int, kind: Kind, value: int)
    requires IsRun(states, steps) && i < j <= |steps|
    requires steps[i] == WriteNode(true, value) && states[i].server == Writing(id, kind)
    requires ActiveBetween(states, i, j, id)
    ensures states[j].active.Some? && states[j].active.value.name == NameOf(kind) && states[j].past.asked == Some(value)
    ensures states[j].past.differed <==> exists k :: i < k <= j && Differs(states[k], kind, value)
  {
    NotedFirst(states, steps, i, id, kind, value);
    RunComparesBetween(states, steps, i, j, id);
    NotedAlong(states, i, j, id, kind, value);
  }

  /** A success that rests on the engine's record: a latch clear, or a write that was
      not ended by a forwarding pass. */
  predicate RestsOnRecord(entry: Entry) {
    && entry.TerminalEntry? && entry.state == Succeeded
    && (entry.ticket.name == ClearLatch || (IsWrite(entry.ticket.name) && entry.at != PendingWrite))
  }

  /** The record it rests on is good if and only if no bad one came after the last
      good one. */
  lemma RecordIsGoodExactlyWhenLast(states: seq<State>, steps: seq<Step>, i: nat, q: nat)
    requires IsRun(states, steps) && i <= |steps| && q < |states[i].past.log| && RestsOnRecord(states[i].past.log[q])
    ensures var seen := states[i].past.log[q].seen;
            && seen.snapshot.Some?
            && (seen.snapshot.value.good <==> seen.snapshot.value.sequence == seen.goodSequence)
            && seen.goodSequence <= seen.snapshot.value.sequence
  {
    EveryStateOk(states, steps, i);
  }

  // ---------------------------------------------------------- bounded completion

  /** The main loop looks at a command that waits for its readback after its deadline. */
  predicate ExpiredTick(s: State, step: Step, id: int) {
    && step.Advance? && Holds(s, id)
    && s.active.value.verification !in {Dispatching, PendingWrite}
    && step.mono >= s.active.value.deadline
  }

  /** How many expired ticks the command can still see. */
  function Chances(s: State, id: int): nat {
    if !Holds(s, id) || s.main.Concluding? then 0
    else if s.active.value.name == StartCalibration && !s.active.value.restoreAttempted then 2
    else 1
  }

  lemma ChancesInPass(s: State, step: Step, id: int)
    requires CoreOk(s) && Enabled(s, step) && IsPassStep(step) && id < s.nextId
    ensures Chances(Next(s, step), id) <= Chances(s, id)
  {
    if step.Decide? { ChancesAtDecision(s, s.main.kind, s.main.who, s.main.value, id); }
    else if step.Answered? { ChancesAtAnswer(s, s.main.kind, s.main.who, s.main.value, step.answer, id); }
  }

  lemma ChancesAtAnswer(s: State, kind: Kind, who: Option<Captured>, value: int, answer: Answer, id: int)
    requires s.main.Sent?
    ensures Chances(AnsweredNext(s, kind, who, value, answer), id) <= Chances(s, id)
  {}

  lemma ChancesAtDecision(s: State, kind: Kind, who: Option<Captured>, value: int, id: int)
    requires CoreOk(s) && s.main == Deciding(kind, who, value)
    ensures Chances(DecideNext(s, kind, who, value), id) <= Chances(s, id)
  {}

  lemma ChancesAtServer(s: State, step: Step, id: int)
    requires CoreOk(s) && Enabled(s, step) && IsServerStep(step) && id < s.nextId
    ensures Chances(Next(s, step), id) <= Chances(s, id)
  {}

  lemma ChancesAtTick(s: State, step: Step, id: int)
    requires CoreOk(s) && step.Advance? && Enabled(s, step) && id < s.nextId
    ensures Chances(Next(s, step), id) <= Chances(s, id) - (if ExpiredTick(s, step, id) then 1 else 0)
  {}

  /** Every expired tick uses up a chance and no step gives one back. */
  lemma ChancesFall(s: State, step: Step, id: int)
    requires CoreOk(s) && Enabled(s, step) && id < s.nextId
    ensures Chances(Next(s, step), id) <= Chances(s, id) - (if ExpiredTick(s, step, id) then 1 else 0)
  {
    if IsPassStep(step) { ChancesInPass(s, step, id); }
    else if IsServerStep(step) { ChancesAtServer(s, step, id); }
    else if step.Advance? { ChancesAtTick(s, step, id); }
  }

  lemma NextIdGrows(s: State, step: Step)
    requires CoreOk(s) && Enabled(s, step)
    ensures Next(s, step).nextId >= s.nextId
  {
    if IsPassStep(step) { NextIdStays(s, step); }
  }

  lemma NextIdStays(s: State, step: Step)
    requires CoreOk(s) && Enabled(s, step) && IsPassStep(step)
    ensures Next(s, step).nextId == s.nextId
  {}

  function Expiries(states: seq<State>, steps: seq<Step>, id: int, i: nat): nat
    requires |states| == |steps| + 1 && i <= |steps|
    decreases |steps| - i
  {
    if i == |steps| then 0
    else (if ExpiredTick(states[i], steps[i], id) then 1 else 0) + Expiries(states, steps, id, i + 1)
  }

  /** Over the rest of any run a command sees at most one expired tick, a
      calibration at most two. */
  lemma {:induction false} BoundedExpiries(states: seq<State>, steps: seq<Step>, id: int, i: nat)
    requires IsRun(states, steps) && i <= |steps| && id < states[i].nextId
    ensures Expiries(states, steps, id, i) <= Chances(states[i], id)
    ensures Chances(states[i], id) <= 2
    ensures Holds(states[i], id) && states[i].active.value.name != StartCalibration ==> Chances(states[i], id) <= 1
    decreases |steps| - i
  {
    if i < |steps| {
      EveryStateOk(states, steps, i);
      ChancesFall(states[i], steps[i], id);
      NextIdGrows(states[i], steps[i]);
      BoundedExpiries(states, steps, id, i + 1);
    }
  }

  /** The command is over, or its operation has been recorded and only its record
      is left to conclude, or this is a calibration's one automatic restoration
      with a new deadline. */
  predicate Decided(s: State, t: State, id: int, deadline: int) {
    || (t.active.None? && t.audit.id == id && t.audit.state in {Succeeded, TimedOut})
    || (t.main.Concluding? && t.main.id == id && Holds(t, id)
        && var over := FinishOn(t, id, t.main.outcome, t.main.lock, t.main.evidence);
           over.active.None? && over.audit == Audit(id, t.main.outcome))
    || (Holds(s, id) && s.active.value.verification == AwaitCalibration
        && Holds(t, id) && t.active.value.verification == AwaitTimeoutRestore && t.active.value.deadline == deadline)
  }

  lemma AchieveDecides(s: State)
    requires CoreOk(s) && s.main.Resting? && s.active.Some?
    ensures Decided(s, Achieve(s, s.active.value), s.active.value.id, 0)
  {}

  lemma ExpireDecides(s: State, mono: int, restoreOk: bool, restoreTimeout: int)
    requires CoreOk(s) && s.main.Resting? && s.active.Some?
    ensures Decided(s, Expire(s, s.active.value, mono, restoreOk, restoreTimeout), s.active.value.id, mono + restoreTimeout)
  {}

  lemma ExpiryDecides(states: seq<State>, steps: seq<Step>, i: nat, id: int)
    requires IsRun(states, steps) && i < |steps| && ExpiredTick(states[i], steps[i], id)
    ensures Decided(states[i], states[i + 1], id, steps[i].mono + steps[i].restoreTimeout)
  {
    EveryStateOk(states, steps, i);
    var s, step := states[i], steps[i];
    var c := s.active.value;
    assert states[i + 1] == AdvanceNext(s, step.mono, step.adcOk, step.restoreOk, step.restoreTimeout);
    if NormalModeVerified(c, s.seen) && ReadBack(c, s.seen, step.adcOk) {
      AchieveDecides(s);
    } else {
      ExpireDecides(s, step.mono, step.restoreOk, step.restoreTimeout);
    }
  }

  // -------------------------------------------------- a pending write is settled

  /** A command that was pending when this pass began is pending no longer once the
      pass is past its setting, or has raised and come to rest. */
  predicate UnderOwnPass(s: State, id: int) {
    && id < s.nextId
    && (Holds(s, id) ==> (s.server.Listening? || s.server.Marked?) && IsWrite(s.active.value.name))
    && (Holds(s, id) && s.active.value.verification == PendingWrite ==>
          || s.main.Raising?
          || (&& InPass(s.main) && s.main.who == LookedUp(s)
              && (s.main.kind == Threshold || s.active.value.name == AveragesPerCalculation)))
  }

  predicate InPass(main: Main) {
    main.Reading? || main.Deciding? || main.Sent? || main.Handed?
  }

  lemma OwnPassKept(s: State, step: Step, id: int)
    requires CoreOk(s) && Enabled(s, step) && UnderOwnPass(s, id)
    ensures UnderOwnPass(Next(s, step), id)
  {
    if IsPassStep(step) { OwnPassGoesOn(s, step, id); }
    else if IsServerStep(step) { OwnPassAtServer(s, step, id); }
    else if step.Advance? { OwnPassAtTick(s, step.mono, step.adcOk, step.restoreOk, step.restoreTimeout, id); }
  }

  lemma OwnPassGoesOn(s: State, step: Step, id: int)
    requires CoreOk(s) && Enabled(s, step) && IsPassStep(step) && UnderOwnPass(s, id)
    ensures UnderOwnPass(Next(s, step), id)
  {
    if step.Decide? { OwnPassDecides(s, s.main.kind, s.main.who, s.main.value, id); }
    else if step.Answered? { OwnPassAnswered(s, s.main.kind, s.main.who, s.main.value, step.answer, id); }
  }

  lemma OwnPassDecides(s: State, kind: Kind, who: Option<Captured>, value: int, id: int)
    requires CoreOk(s) && s.main == Deciding(kind, who, value) && UnderOwnPass(s, id)
    ensures UnderOwnPass(DecideNext(s, kind, who, value), id)
  {}

  lemma OwnPassAnswered(s: State, kind: Kind, who: Option<Captured>, value: int, answer: Answer, id: int)
    requires CoreOk(s) && s.main == Sent(kind, who, value) && UnderOwnPass(s, id)
    ensures UnderOwnPass(AnsweredNext(s, kind, who, value, answer), id)
  {}

  lemma OwnPassAtServer(s: State, step: Step, id: int)
    requires CoreOk(s) && Enabled(s, step) && IsServerStep(step) && UnderOwnPass(s, id)
    ensures UnderOwnPass(Next(s, step), id)
  {}

  lemma OwnPassAtTick(s: State, mono: int, adcOk: bool, restoreOk: bool, restoreTimeout: int, id: int)
    requires CoreOk(s) && s.main.Resting? && UnderOwnPass(s, id)
    ensures UnderOwnPass(AdvanceNext(s, mono, adcOk, restoreOk, restoreTimeout), id)
  {
    if s.active.Some? && s.active.value.verification !in {Dispatching, PendingWrite} {
      OwnPassAchieves(s, id);
      OwnPassExpires(s, mono, restoreOk, restoreTimeout, id);
    }
  }

  lemma OwnPassAchieves(s: State, id: int)
    requires CoreOk(s) && s.active.Some? && UnderOwnPass(s, id) && s.active.value.verification != PendingWrite
    ensures UnderOwnPass(Achieve(s, s.active.value), id) && UnderOwnPass(Finish(s, s.active.value.id, Succeeded, false), id)
  {}

  lemma OwnPassExpires(s: State, mono: int, restoreOk: bool, restoreTimeout: int, id: int)
    requires CoreOk(s) && s.active.Some? && UnderOwnPass(s, id) && s.active.value.verification != PendingWrite
    ensures UnderOwnPass(Expire(s, s.active.value, mono, restoreOk, restoreTimeout), id)
  {}

  predicate IsPending(s: State, id: int) {
    Holds(s, id) && s.active.value.verification == PendingWrite
  }

  lemma OwnPassBegins(s: State, id: int)
    requires CoreOk(s) && s.main.Resting? && IsPending(s, id)
    ensures UnderOwnPass(Next(s, Capture), id)
  {}

  lemma {:induction false} OwnPassThroughout(states: seq<State>, steps: seq<Step>, i: nat, j: nat, id: int)
    requires IsRun(states, steps) && i < j <= |steps| && steps[i] == Capture && IsPending(states[i], id)
    ensures UnderOwnPass(states[j], id)
    decreases j
  {
    EveryStateOk(states, steps, j - 1);
    if j == i + 1 {
      OwnPassBegins(states[i], id);
    } else {
      OwnPassThroughout(states, steps, i, j - 1, id);
      OwnPassKept(states[j - 1], steps[j - 1], id);
    }
  }

  /** A write that is marked when a pass begins is settled before the main loop rests
      again, whatever else waits on the nodes: recorded as succeeded or failed, or
      told to be running until its readback. */
  lemma PassSettlesPending(states: seq<State>, steps: seq<Step>, i: nat, j: nat, id: int)
    requires IsRun(states, steps) && i < j <= |steps| && steps[i] == Capture && IsPending(states[i], id)
    requires states[j].main.Resting?
    ensures !IsPending(states[j], id)
  {
    OwnPassThroughout(states, steps, i, j, id);
  }

  /** What is left of a pass, in steps of the main loop at most. */
  function Left(main: Main): nat {
    match main
    case Reading(kind, _) => if kind == Threshold then 9 else 5
    case Deciding(kind, _, _) => if kind == Threshold then 8 else 4
    case Sent(kind, _, _) => if kind == Threshold then 7 else 3
    case Handed(kind, _, _) => if kind == Threshold then 6 else 2
    case Raising => 1
    case _ => 0
  }

  /** A pass takes at most ten steps of the main loop, and nothing else prolongs it. */
  lemma PassEnds(s: State, step: Step)
    requires Enabled(s, step) && Left(s.main) > 0
    ensures Left(Next(s, step).main) <= Left(s.main) - (if IsPassStep(step) then 1 else 0)
    ensures Left(Next(s, step).main) == 0 ==> Next(s, step).main.Resting?
  {
    if step.Decide? { DecideGoesOn(s, s.main.kind, s.main.who, s.main.value); }
    else if IsServerStep(step) { ServerLeavesMain(s, step); }
  }

  lemma DecideGoesOn(s: State, kind: Kind, who: Option<Captured>, value: int)
    requires s.main == Deciding(kind, who, value)
    ensures var main := DecideNext(s, kind, who, value).main;
            Left(main) < Left(s.main) && (Left(main) == 0 ==> main.Resting?)
  {}

  lemma ServerLeavesMain(s: State, step: Step)
    requires Enabled(s, step) && IsServerStep(step)
    ensures Next(s, step).main == s.main
  {}
}
