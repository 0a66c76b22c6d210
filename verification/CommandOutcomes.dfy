/** What each command comes to, in plain terms: which evidence ends it in success,
    what its deadline does, and what is shown and locked afterwards. */
module CommandOutcomes {
  import opened Wrappers
  import opened CommandState
  import opened CommandInvariant

  // ---------------------------------------------------------------- the evidence

  /** A good measurement newer than the request. */
  predicate FreshGood(c: Active, seen: Seen) {
    seen.goodSequence > c.startSequence && seen.goodAt.Some? && seen.goodAt.value >= c.requestedAt
  }

  /** ... from another engine process than the one known at the start, with the
      executable recorded at acceptance. */
  predicate BackToNormal(c: Active, seen: Seen) {
    && FreshGood(c, seen)
    && seen.pid > 0 && (c.startPid <= 0 || seen.pid != c.startPid)
    && c.expectedHash != "" && seen.hash == c.expectedHash
  }

  /** Everything the command waits for is there. */
  predicate IsProved(c: Active, seen: Seen, adcOk: bool) {
    match c.verification
    case Dispatching => false
    case PendingWrite => false
    case AwaitLatch =>
      FreshGood(c, seen) && seen.snapshot.Some? && (!seen.snapshot.value.latched || seen.snapshot.value.alarm)
    case AwaitThreshold =>
      BackToNormal(c, seen) && seen.snapshot.Some? && seen.snapshot.value.threshold == Some(c.expectedValue)
    case AwaitAverages =>
      BackToNormal(c, seen) && seen.snapshot.Some? && seen.snapshot.value.averages == c.expectedValue
    case AwaitTime =>
      BackToNormal(c, seen) && seen.clock.Some? && -5 <= seen.clock.value - c.expectedValue <= 5
    case AwaitAdc => BackToNormal(c, seen) && adcOk
    case AwaitRestart => BackToNormal(c, seen)
    case AwaitCalibration => BackToNormal(c, seen)
    case AwaitTimeoutRestore => BackToNormal(c, seen)
    case AwaitRestore => BackToNormal(c, seen)
  }

  // ---------------------------------------------------------------- one look at it

  /** One look of the main loop, its conclusion included. */
  function Looked(s: State, mono: int, adcOk: bool, restoreOk: bool, restoreTimeout: int): State
    requires s.main.Resting? && !s.server.Superseding?
  {
    var t := Next(s, Advance(mono, adcOk, restoreOk, restoreTimeout));
    if t.main.Concluding? then Next(t, Conclude) else t
  }

  /** The command is over, in memory and on disk. */
  predicate IsOver(s: State, t: State, state: AuditState, calibration: Calibration, locked: bool) {
    && s.active.Some? && t.active == None && t.main == Resting
    && t.audit == Audit(s.active.value.id, state) && t.calibration == calibration && t.locked == locked
    && t.disk == Record(locked, t.audit, calibration)
    && t.threshold == s.threshold && t.averages == s.averages && t.seen == s.seen && t.server == s.server
    && t.nextId == s.nextId
  }

  /** With the evidence there, whatever the deadline: every command succeeds except the
      restoration after a timeout; a calibration is then shown completed, an abort
      aborted, a restoration idle, each verified; and only what restores unlocks. */
  predicate ProvedOutcome(s: State, t: State) {
    s.active.Some? &&
    match s.active.value.verification
    case AwaitCalibration => IsOver(s, t, Succeeded, Calibration(Completed, Verified), s.locked)
    case AwaitTimeoutRestore => IsOver(s, t, TimedOut, Calibration(OperationFailed, Verified), s.locked)
    case AwaitRestore =>
      var shown := if s.active.value.name == AbortCalibration then Aborted else OperationIdle;
      IsOver(s, t, Succeeded, Calibration(shown, Verified), false)
    case _ => IsOver(s, t, Succeeded, s.calibration, s.locked)
  }

  /** The one automatic restoration of a calibration that is late. */
  predicate RestoresOnce(s: State, t: State, deadline: int) {
    && s.active.Some? && t.main == Resting && t.audit == s.audit && t.locked == s.locked
    && t.calibration == Calibration(Restoring, Commanded)
    && t.active == Some(s.active.value.(restoreAttempted := true, verification := AwaitTimeoutRestore,
                                        startSequence := s.seen.goodSequence, startPid := s.seen.pid, deadline := deadline))
    && t.disk == Record(t.locked, t.audit, t.calibration)
    && t.past.log == s.past.log + [RequestEntry(s.active.value.id)]
  }

  /** Past its deadline without the evidence: a calibration asks once for normal
      acquisition; otherwise everything times out, what calibrates or restores is
      shown failed, and that and a restart of the engine lock the gate. */
  predicate LateOutcome(s: State, t: State, restoreOk: bool, deadline: int) {
    s.active.Some? &&
    match s.active.value.verification
    case AwaitCalibration =>
      if restoreOk then RestoresOnce(s, t, deadline)
      else IsOver(s, t, TimedOut, Calibration(OperationFailed, RestorationFailed), true)
    case AwaitTimeoutRestore => IsOver(s, t, TimedOut, Calibration(OperationFailed, RestorationFailed), true)
    case AwaitRestore => IsOver(s, t, TimedOut, Calibration(OperationFailed, RestorationFailed), true)
    case AwaitRestart => IsOver(s, t, TimedOut, s.calibration, true)
    case _ => IsOver(s, t, TimedOut, s.calibration, s.locked)
  }

  /** What one look comes to. */
  predicate LookOutcome(s: State, t: State, mono: int, adcOk: bool, restoreOk: bool, restoreTimeout: int) {
    if s.active.None? || s.active.value.verification in {Dispatching, PendingWrite} then t == s
    else if IsProved(s.active.value, s.seen, adcOk) then ProvedOutcome(s, t)
    else if mono < s.active.value.deadline then t == s
    else LateOutcome(s, t, restoreOk, mono + restoreTimeout)
  }

  lemma ProvedExactly(c: Active, seen: Seen, adcOk: bool)
    requires c.verification !in {Dispatching, PendingWrite}
    ensures IsProved(c, seen, adcOk) <==>
              || (c.verification == AwaitLatch && LatchVerified(c, seen))
              || (NormalModeVerified(c, seen) && ReadBack(c, seen, adcOk))
  {}

  function Concluded(t: State): State {
    if t.main.Concluding? then FinishOn(t, t.main.id, t.main.outcome, t.main.lock, t.main.evidence).(main := Resting) else t
  }

  lemma LookedIs(s: State, mono: int, adcOk: bool, restoreOk: bool, restoreTimeout: int)
    requires s.main.Resting? && !s.server.Superseding?
    ensures Looked(s, mono, adcOk, restoreOk, restoreTimeout) == Concluded(AdvanceNext(s, mono, adcOk, restoreOk, restoreTimeout))
  {}

  lemma FinishedIs(s: State, state: AuditState, lock: bool)
    requires CoreOk(s) && s.main.Resting? && s.active.Some?
    ensures IsOver(s, Concluded(Finish(s, s.active.value.id, state, lock)), state, s.calibration, s.locked || lock)
  {}

  lemma AchievedIs(s: State)
    requires CoreOk(s) && s.main.Resting? && s.active.Some? && s.active.value.verification !in {Dispatching, PendingWrite}
    ensures ProvedOutcome(s, Concluded(Achieve(s, s.active.value)))
  {
    FinishedIs(s, Succeeded, false);
  }

  lemma ExpiredIs(s: State, mono: int, restoreOk: bool, restoreTimeout: int)
    requires CoreOk(s) && s.main.Resting? && s.active.Some? && s.active.value.verification !in {Dispatching, PendingWrite}
    ensures LateOutcome(s, Concluded(Expire(s, s.active.value, mono, restoreOk, restoreTimeout)), restoreOk, mono + restoreTimeout)
  {
    FinishedIs(s, TimedOut, s.active.value.verification == AwaitRestart);
  }

  lemma AdvancedIs(s: State, mono: int, adcOk: bool, restoreOk: bool, restoreTimeout: int)
    requires CoreOk(s) && s.main.Resting? && s.active.Some? && s.active.value.verification !in {Dispatching, PendingWrite}
    ensures var c, t := s.active.value, AdvanceNext(s, mono, adcOk, restoreOk, restoreTimeout);
            if c.verification == AwaitLatch && LatchVerified(c, s.seen) then t == Finish(s, c.id, Succeeded, false)
            else if NormalModeVerified(c, s.seen) && ReadBack(c, s.seen, adcOk) then t == Achieve(s, c)
            else if mono < c.deadline then t == s
            else t == Expire(s, c, mono, restoreOk, restoreTimeout)
  {}

  /** In every state of every run, one look at the active command does nothing, ends it
      by its evidence, or ends it or restores by its deadline, exactly as the tables
      say. */
  lemma EveryLookDecides(s: State, mono: int, adcOk: bool, restoreOk: bool, restoreTimeout: int)
    requires CoreOk(s) && s.main.Resting? && !s.server.Superseding?
    ensures LookOutcome(s, Looked(s, mono, adcOk, restoreOk, restoreTimeout), mono, adcOk, restoreOk, restoreTimeout)
  {
    LookedIs(s, mono, adcOk, restoreOk, restoreTimeout);
    if s.active.Some? && s.active.value.verification !in {Dispatching, PendingWrite} {
      ProvedExactly(s.active.value, s.seen, adcOk);
      AdvancedIs(s, mono, adcOk, restoreOk, restoreTimeout);
      AchievedIs(s);
      FinishedIs(s, Succeeded, false);
      ExpiredIs(s, mono, restoreOk, restoreTimeout);
    }
  }

  // --------------------------------------------------------------------- a callback

  /** The command waits for this readback, and not less than a second. */
  predicate Waits(before: Active, after: Option<Active>, awaited: Verification, expected: int, terminal: Operation,
                  mono: int, timeout: int) {
    after == Some(before.(verification := awaited, expectedValue := expected, terminal := terminal,
                          deadline := mono + (if timeout < 1 then 1 else timeout)))
  }

  /** What a command that needs one request waits for once the engine accepts. */
  predicate WaitsByName(before: Active, after: Option<Active>, expected: int, mono: int, timeout: int) {
    match before.name
    case ClearLatch => Waits(before, after, AwaitLatch, expected, OperationIdle, mono, timeout)
    case CaptureAdc => Waits(before, after, AwaitAdc, expected, OperationIdle, mono, timeout)
    case SetSystemTime => Waits(before, after, AwaitTime, expected, OperationIdle, mono, timeout)
    case RestartMeasurementEngine => Waits(before, after, AwaitRestart, expected, OperationIdle, mono, timeout)
    case AbortCalibration => Waits(before, after, AwaitRestore, expected, Aborted, mono, timeout)
    case RestoreNormalState => Waits(before, after, AwaitRestore, expected, OperationIdle, mono, timeout)
    case _ => false
  }

  lemma WaitsByItsName(before: Active, after: Option<Active>, expected: int, mono: int, timeout: int)
    requires Waits(before, after, VerificationOf(before.name), expected, TerminalOf(before.name), mono, timeout)
    requires before.name in {ClearLatch, CaptureAdc, SetSystemTime, RestartMeasurementEngine, AbortCalibration, RestoreNormalState}
    ensures WaitsByName(before, after, expected, mono, timeout)
  {}

  // --------------------------------------------------------------------- acceptance

  /** Who may begin what: latch and settings with any role while commands are enabled,
      everything else with the maintenance role in maintenance mode; and while the gate
      is locked nothing but the command that restores. */
  predicate MayBegin(name: Name, role: Role, gate: GateMode, locked: bool) {
    && role != Anonymous && gate != GateDisabled
    && (locked ==> name == RestoreNormalState)
    && match name
       case ClearLatch => true
       case ThresholdOhm => true
       case AveragesPerCalculation => true
       case _ => role == Maintenance && gate == GateMaintenance
  }

  /** An abort may take over a calibration that waits, or is being restored. */
  predicate TakesOver(name: Name, active: Option<Active>) {
    && name == AbortCalibration && active.Some?
    && (active.value.verification == AwaitCalibration || active.value.verification == AwaitTimeoutRestore)
  }

  lemma RefusesExactly(s: State, name: Name, role: Role, gate: GateMode)
    ensures Refuses(s, name, role, gate) <==> !MayBegin(name, role, gate, s.locked)
    ensures Supersedes(s, name) <==> TakesOver(name, s.active)
  {}

  /** A new command with the terms of this moment. */
  predicate IsNew(c: Active, id: int, name: Name, seen: Seen, deadline: int) {
    c == Active(id, name, seen.now, deadline, Dispatching, seen.goodSequence, seen.pid, seen.hash, 0, OperationIdle, false)
  }

  // ------------------------------------------------------------------------- a pass

  /** What a pass without anything in between makes of one setting and of the command it
      has looked up. */
  datatype Handling = Handling(setting: Setting, active: Option<Active>, audit: Audit, on: bool)

  predicate Fits(kind: Kind, value: int) {
    if kind == Threshold then 0 <= value <= 1_000_000 else 1 <= value <= 1_000_000
  }

  /** Unchanged: a marked write of this setting succeeds.  Unfit or unanswered: the old
      value comes back and the pass raises.  Answered: the new value counts; a write of
      this setting waits for it from now on, or the pass raises when the engine refused
      or the write is no longer the active one. */
  predicate Handles(kind: Kind, who: Option<Captured>, answer: Answer, mono: int, timeout: int, h: Handling, g: Handling) {
    var value, last := h.setting.node, h.setting.last;
    var name, awaited := if kind == Threshold then ThresholdOhm else AveragesPerCalculation,
                         if kind == Threshold then AwaitThreshold else AwaitAverages;
    var named := who.Some? && who.value.name == name;
    var mine := named && h.active.Some? && h.active.value.id == who.value.id;
    if value == last then
      && g.setting == h.setting && g.on
      && if mine && h.active.value.verification == PendingWrite
         then g.active == None && g.audit == h.audit.(state := Succeeded)
         else g.active == h.active && g.audit == h.audit
    else if !Fits(kind, value) || answer == Lost then
      g == Handling(Setting(last, last), h.active, h.audit, false)
    else if !named then
      g == Handling(Setting(value, value), h.active, h.audit, true)
    else if answer == Refused || !mine then
      g == Handling(Setting(value, value), h.active, h.audit, false)
    else
      && g.setting == Setting(value, value) && g.on && g.audit == h.audit.(state := Running)
      && Waits(h.active.value, g.active, awaited, value, OperationIdle, mono, timeout)
  }

  /** The fields a pass deals with. */
  datatype Held = Held(threshold: Setting, averages: Setting, active: Option<Active>, audit: Audit)

  /** The threshold first, then the averages unless that raised. */
  ghost predicate Forwards(who: Option<Captured>, first: Answer, second: Answer, mono: int, timeout: int,
                           before: Held, after: Held, on: bool) {
    exists g :: && Handles(Threshold, who, first, mono, timeout, Handling(before.threshold, before.active, before.audit, true), g)
                && after.threshold == g.setting
                && if !g.on then !on && after == before.(threshold := g.setting, active := g.active, audit := g.audit)
                   else Handles(Averages, who, second, mono, timeout, Handling(before.averages, g.active, g.audit, true),
                                Handling(after.averages, after.active, after.audit, on))
  }

  /** A pass that raised fails the write that is pending. */
  predicate Raised(before: Held, after: Held) {
    if before.active.Some? && before.active.value.verification == PendingWrite
    then after == before.(active := None, audit := before.audit.(state := Failed))
    else after == before
  }

  ghost predicate Passes(who: Option<Captured>, first: Answer, second: Answer, mono: int, timeout: int,
                         before: Held, after: Held, completed: bool) {
    exists mid :: Forwards(who, first, second, mono, timeout, before, mid, completed)
                  && if completed then after == mid else Raised(mid, after)
  }

  /** A pass, with nothing in between, that was begun for a marked write and finds the
      other setting as the engine has it: unchanged values have succeeded; unfit ones,
      and those the engine did not take, have failed, and only what the engine answered
      stays on the node; what it took is waited for. */
  lemma MarkedWriteOutcome(c: Active, audit: Audit, first: Answer, second: Answer, mono: int, timeout: int,
                           before: Held, after: Held, completed: bool)
    requires c.verification == PendingWrite && (c.name == ThresholdOhm || c.name == AveragesPerCalculation)
    requires before.active == Some(c) && before.audit == audit
    requires if c.name == ThresholdOhm then before.averages.node == before.averages.last
             else before.threshold.node == before.threshold.last
    requires Passes(Some(Captured(c.id, c.name)), first, second, mono, timeout, before, after, completed)
    ensures var setting := if c.name == ThresholdOhm then before.threshold else before.averages;
            var now := if c.name == ThresholdOhm then after.threshold else after.averages;
            var answer := if c.name == ThresholdOhm then first else second;
            var fits := if c.name == ThresholdOhm then 0 <= setting.node <= 1_000_000 else 1 <= setting.node <= 1_000_000;
            if setting.node == setting.last then
              now == setting && after.active == None && after.audit == audit.(state := Succeeded)
            else if !fits || answer == Lost then
              now == Setting(setting.last, setting.last) && after.active == None && after.audit == audit.(state := Failed)
            else if answer == Refused then
              now == Setting(setting.node, setting.node) && after.active == None && after.audit == audit.(state := Failed)
            else
              && now == Setting(setting.node, setting.node) && after.audit == audit.(state := Running)
              && Waits(c, after.active, if c.name == ThresholdOhm then AwaitThreshold else AwaitAverages, setting.node,
                       OperationIdle, mono, timeout)
  {}
}
