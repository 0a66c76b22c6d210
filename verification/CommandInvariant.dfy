/** What every step of the command gate keeps. */
module CommandInvariant {
  import opened Wrappers
  import opened CommandState

  // ------------------------------------------------------------------ history

  /** Where a serial history stands: between commands (with every later id still
      to come), after an acceptance, or after a command was seen running. */
  datatype Track = Broken | Quiet(next: int) | Pending(ticket: Ticket) | Underway(ticket: Ticket)

  function Follow(track: Track, entry: Entry): Track {
    match entry
    case RejectedEntry(id) =>
      if track.Quiet? && track.next <= id then Quiet(id + 1) else Broken
    case AcceptedEntry(ticket) =>
      if track.Quiet? && track.next <= ticket.id then Pending(ticket) else Broken
    case RequestEntry(id) =>
      if (track.Pending? || track.Underway?) && track.ticket.id == id then track else Broken
    case StrayEntry(_, _) => track
    case RunningEntry(id) =>
      if track.Pending? && track.ticket.id == id then Underway(track.ticket) else Broken
    case TerminalEntry(ticket, state, _, _, _, _, _) =>
      if && (track.Pending? || track.Underway?) && track.ticket == ticket
         && state in {Succeeded, Failed, TimedOut}
      then Quiet(ticket.id + 1) else Broken
  }

  function TrackOf(log: seq<Entry>): Track {
    if log == [] then Quiet(0) else Follow(TrackOf(log[..|log| - 1]), log[|log| - 1])
  }

  // ----------------------------------------------------------------- evidence

  predicate FreshFor(t: Ticket, seen: Seen) {
    seen.goodSequence > t.startSequence && seen.goodAt.Some? && seen.goodAt.value >= t.requestedAt
  }

  /** A good measurement newer than the request, another engine process than the
      one known at the start, and the executable recorded at acceptance. */
  predicate Proven(t: Ticket, seen: Seen) {
    && FreshFor(t, seen)
    && seen.pid > 0
    && (t.startPid > 0 ==> seen.pid != t.startPid)
    && t.expectedHash != "" && seen.hash == t.expectedHash
  }

  /** The engine's last record, of whatever quality, is newer than the request. */
  predicate NewRecord(t: Ticket, snapshot: Option<Snapshot>) {
    snapshot.Some? && snapshot.value.sequence > t.startSequence
  }

  predicate Shows(snapshot: Option<Snapshot>, kind: Kind, value: int) {
    && snapshot.Some?
    && match kind
       case Threshold => snapshot.value.threshold == Some(value)
       case Averages => snapshot.value.averages == value
  }

  /** What a success of each command rests on.  A write that a forwarding pass ended
      was still marked as pending. */
  predicate Supported(t: Ticket, at: Verification, expected: int, seen: Seen, asked: Option<int>) {
    if t.name == NormalizeMagnitude then true
    else if t.name == ClearLatch then
      && FreshFor(t, seen) && NewRecord(t, seen.snapshot)
      && (!seen.snapshot.value.latched || seen.snapshot.value.alarm)
    else if !IsWrite(t.name) then Proven(t, seen)
    else if at == PendingWrite then asked.Some?
    else Proven(t, seen) && NewRecord(t, seen.snapshot) && Shows(seen.snapshot, KindOf(t.name), expected)
  }

  predicate EntryOk(entry: Entry) {
    entry.TerminalEntry? ==>
      SeenOk(entry.seen)
      && (entry.state == Succeeded ==> Supported(entry.ticket, entry.at, entry.expected, entry.seen, entry.asked))
  }

  // ---------------------------------------------------------------- invariant

  predicate AuditOk(s: State) {
    && s.audit.id < s.nextId && 0 < s.nextId
    && match s.active
       case None => !Unfinished(s.audit.state)
       case Some(c) => s.audit.id == c.id && Unfinished(s.audit.state)
  }

  predicate DiskOk(s: State) {
    match s.disk
    case Record(locked, audit, calibration) => locked == s.locked && audit == s.audit && calibration == s.calibration
    case _ => s.active.None? && (s.audit, s.calibration, s.locked, s.disk) == Restored(s.disk)
  }

  predicate LockOk(s: State) {
    s.locked && s.active.Some? ==> s.active.value.name == RestoreNormalState
  }

  /** The server thread's own command is active and not yet dispatched. */
  predicate Dispatches(s: State, id: int) {
    Holds(s, id) && s.active.value.verification == Dispatching
  }

  function OperationAsked(name: Name): Operation {
    if name == StartCalibration then Starting else Restoring
  }

  predicate ServerOk(s: State) {
    match s.server
    case Listening => s.active.Some? ==>
        s.active.value.verification != Dispatching && (IsWrite(s.active.value.name) ==> s.past.asked.Some?)
    case Superseding(_, _) => s.active.None? && !s.locked && s.calibration.state in {Calibrating, Restoring}
    case Dispatched(id) => Dispatches(s, id) && !IsWrite(s.active.value.name) && s.audit.state == Accepted
    case Prepared(id) => Dispatches(s, id) && NeedsOperation(s.active.value.name) && s.audit.state == Accepted
                         && s.calibration.state == OperationAsked(s.active.value.name)
    case Waiting(id) => Dispatches(s, id) && !IsWrite(s.active.value.name) && s.active.value.name != NormalizeMagnitude
                        && s.audit.state == Accepted
                        && (NeedsOperation(s.active.value.name) ==> s.calibration.state == OperationAsked(s.active.value.name))
    case Replied(id) => Dispatches(s, id) && s.active.value.name == StartCalibration && s.calibration.state == Calibrating
                        && s.audit.state == Accepted
    case Failing(id) => Dispatches(s, id) && NeedsOperation(s.active.value.name) && s.audit.state == Accepted
                        && !Busy(s.calibration.state)
    case Writing(id, kind) => WritesNow(s, id, kind) && s.past.asked == None
    case Written(id, kind, value) => WritesNow(s, id, kind) && (s.active.Some? ==> s.past.asked == Some(value))
    case Marked(id, kind, value) =>
      && id < s.nextId
      && (s.active.Some? ==>
            && Holds(s, id) && s.active.value.name == NameOf(kind) && s.past.asked == Some(value)
            && s.active.value.verification in {PendingWrite, VerificationOf(NameOf(kind))})
  }

  /** A write that is not marked yet: it may have been told to be running, or be
      over, when a pass found a value of another command on its node. */
  predicate WritesNow(s: State, id: int, kind: Kind) {
    && id < s.nextId
    && (s.active.Some? ==>
          && Holds(s, id) && s.active.value.name == NameOf(kind)
          && s.active.value.verification in {Dispatching, VerificationOf(NameOf(kind))}
          && (s.active.value.verification == Dispatching ==> s.audit.state == Accepted))
  }

  /** Unless noted otherwise, the engine's last value is the one asked for. */
  predicate AskedOk(s: State) {
    && (s.past.asked.Some? ==> s.active.Some? && IsWrite(s.active.value.name))
    && (s.past.differed ==> s.past.asked.Some?)
    && (s.past.asked.Some? && !s.past.differed ==>
          SettingOf(s, KindOf(s.active.value.name)).last == s.past.asked.value)
  }

  /** The last record is the last good one exactly when it is good, and else newer. */
  predicate SeenOk(seen: Seen) {
    match seen.snapshot
    case None => seen.goodSequence == 0 && seen.goodAt == None
    case Some(snapshot) =>
      0 <= seen.goodSequence <= snapshot.sequence && 0 < snapshot.sequence
      && (snapshot.good <==> seen.goodSequence == snapshot.sequence)
  }

  predicate CapturedOk(s: State, who: Option<Captured>) {
    who.Some? ==> who.value.id < s.nextId && (Holds(s, who.value.id) ==> s.active.value.name == who.value.name)
  }

  predicate IsCalibrating(v: Verification) {
    v in {AwaitCalibration, AwaitTimeoutRestore, AwaitRestore}
  }

  predicate MainOk(s: State) {
    match s.main
    case Resting => true
    case Reading(_, who) => CapturedOk(s, who)
    case Deciding(_, who, _) => CapturedOk(s, who)
    case Sent(kind, who, value) => CapturedOk(s, who) && InRange(kind, value)
    case Handed(kind, who, value) =>
      CapturedOk(s, who) && !Stale(kind, who) && SettingOf(s, kind).last == value
    case Raising => true
    case Concluding(id, outcome, lock, evidence) =>
      && Holds(s, id) && s.server == Listening && IsCalibrating(s.active.value.verification)
      && !Busy(s.calibration.state)
      && (lock ==> outcome == TimedOut) && SeenOk(evidence)
      && match s.active.value.verification
         case AwaitTimeoutRestore => outcome == TimedOut
         case _ => outcome in {Succeeded, TimedOut} && (outcome == Succeeded ==> NormalModeVerified(s.active.value, evidence))
  }

  /** Each wait belongs to its command, and a calibration's wait to its operation. */
  predicate WaitOk(s: State) {
    s.active.Some? ==>
      var c := s.active.value;
      && (c.verification == Dispatching || s.audit.state == Running || (c.verification == PendingWrite && IsWrite(c.name)))
      && (c.verification == PendingWrite ==> IsWrite(c.name) && s.past.asked.Some?)
      && (c.verification !in {Dispatching, PendingWrite, AwaitTimeoutRestore} ==> c.verification == VerificationOf(c.name))
      && (c.restoreAttempted <==> c.verification == AwaitTimeoutRestore)
      && (c.restoreAttempted ==> c.name == StartCalibration)
      && (c.verification == AwaitRestore ==> c.terminal == TerminalOf(c.name))
      && (IsCalibrating(c.verification) && !s.main.Concluding? ==>
            s.calibration.state == if c.verification == AwaitCalibration then Calibrating else Restoring)
  }

  predicate TicketOk(s: State) {
    match s.active
    case None => s.past.ticket == None
    case Some(c) =>
      && s.past.ticket.Some?
      && c.id < s.nextId
      && var t := s.past.ticket.value;
         && t.id == c.id && t.name == c.name && t.requestedAt == c.requestedAt && t.expectedHash == c.expectedHash
         && (!c.restoreAttempted ==> t.startSequence == c.startSequence && t.startPid == c.startPid)
  }

  /** The active command took charge of the operation: it announced one, or took
      a calibration over. */
  predicate Owned(s: State) {
    s.active.Some? && s.past.owner == Some(s.active.value.id)
  }

  /** Exactly the commands with an operation of their own take charge of it, an
      abort that takes over before it is dispatched. */
  predicate OwnerOk(s: State) {
    && (s.past.owner.Some? ==> s.past.owner.value < s.nextId)
    && (Owned(s) ==> NeedsOperation(s.active.value.name))
    && (s.active.Some? && NeedsOperation(s.active.value.name) && !s.server.Dispatched? ==> Owned(s))
    && (Owned(s) && s.server.Dispatched? ==> s.active.value.name == AbortCalibration && Busy(s.calibration.state))
  }

  predicate TrackOk(s: State) {
    var track := TrackOf(s.past.log);
    if s.active.None? then track.Quiet? && track.next <= s.nextId
    else s.past.ticket.Some? &&
         track == (if s.audit.state == Running then Underway(s.past.ticket.value) else Pending(s.past.ticket.value))
  }

  predicate EvidenceOk(s: State) {
    forall i :: 0 <= i < |s.past.log| ==> EntryOk(s.past.log[i])
  }

  predicate HistoryOk(s: State) {
    TrackOk(s) && EvidenceOk(s)
  }

  predicate CoreOk(s: State) {
    && AuditOk(s) && DiskOk(s) && LockOk(s) && ServerOk(s) && MainOk(s) && WaitOk(s) && TicketOk(s)
    && AskedOk(s) && OwnerOk(s) && SeenOk(s.seen)
  }

  predicate StateOk(s: State) {
    CoreOk(s) && HistoryOk(s)
  }

  // ------------------------------------------------------------- preservation

  lemma InitialOk(s: State)
    requires Initial(s)
    ensures StateOk(s)
  {}

  lemma RejectOk(s: State)
    requires CoreOk(s)
    ensures CoreOk(RejectNow(s))
  {}

  lemma AcceptOk(s: State, name: Name, mono: int, timeout: int)
    requires CoreOk(s) && s.active.None? && s.server.Listening? && !s.main.Concluding?
    requires s.locked ==> name == RestoreNormalState
    ensures CoreOk(Accept(s, name, mono, timeout))
  {}

  lemma SupersedeOk(s: State, mono: int, timeout: int)
    requires CoreOk(s) && s.server.Listening? && !s.main.Concluding? && !s.locked && Supersedes(s, AbortCalibration)
    ensures CoreOk(Finish(s, s.active.value.id, Failed, false).(server := Superseding(mono, timeout)))
  {}

  lemma BeginOk(s: State, name: Name, role: Role, gate: GateMode, mono: int, timeout: int)
    requires CoreOk(s) && s.server.Listening? && !s.main.Concluding?
    ensures CoreOk(BeginNext(s, name, role, gate, mono, timeout))
  {
    if Refuses(s, name, role, gate) || (s.active.Some? && !Supersedes(s, name)) { RejectOk(s); }
    else if Supersedes(s, name) { SupersedeOk(s, mono, timeout); }
    else { AcceptOk(s, name, mono, timeout); }
  }

  lemma AcceptAbortOk(s: State, step: Step)
    requires CoreOk(s) && Enabled(s, step) && step.AcceptAbort?
    ensures CoreOk(Next(s, step))
  {}

  lemma EndOk(s: State, step: Step)
    requires CoreOk(s) && Enabled(s, step)
    requires step.NotDispatched? || step.RejectArguments? || step.NowFailed? || step.Normalized?
    ensures CoreOk(Next(s, step))
  {}

  lemma RequestOk(s: State, step: Step)
    requires CoreOk(s) && Enabled(s, step)
    requires step.Prepare? || step.SendRequest?
    ensures CoreOk(Next(s, step))
  {}

  lemma ReplyGoodOk(s: State, mono: int, timeout: int, expected: int)
    requires CoreOk(s) && s.server.Waiting? && s.active.Some?
    ensures CoreOk(ReplyGoodNext(s, mono, timeout, expected))
  {}

  lemma ReplyBadOk(s: State)
    requires CoreOk(s) && s.server.Waiting? && s.active.Some?
    ensures CoreOk(ReplyBadNext(s))
  {}

  lemma NowRunningOk(s: State, step: Step)
    requires CoreOk(s) && Enabled(s, step) && step.NowRunning?
    ensures CoreOk(Next(s, step))
  {}

  lemma WriteOk(s: State, ok: bool, value: int)
    requires CoreOk(s) && s.server.Writing?
    ensures CoreOk(WriteNext(s, ok, value))
  {
    if ok { LandedOk(s, value); } else { NotWrittenOk(s, value); }
  }

  lemma LandedOk(s: State, value: int)
    requires CoreOk(s) && s.server.Writing?
    ensures CoreOk(WriteNext(s, true, value))
  {}

  lemma NotWrittenOk(s: State, value: int)
    requires CoreOk(s) && s.server.Writing?
    ensures CoreOk(WriteNext(s, false, value))
  {}

  lemma MarkOk(s: State)
    requires CoreOk(s) && s.server.Written?
    ensures CoreOk(MarkNext(s))
  {}

  lemma ExpectOk(s: State)
    requires CoreOk(s) && s.server.Marked?
    ensures CoreOk(ExpectNext(s))
  {}

  /** Finishing the active command, with its operation at rest. */
  lemma FinishOk(s: State, id: int, state: AuditState, lock: bool)
    requires CoreOk(s) && Holds(s, id)
    requires s.server.Listening? || s.server.Writing? || s.server.Written? || s.server.Marked?
    requires !s.main.Concluding?
    requires state in {Succeeded, Failed, TimedOut}
    requires !IsCalibrating(s.active.value.verification)
    ensures CoreOk(Finish(s, id, state, lock))
  {}

  /** The main loop moved on, and perhaps a setting with it. */
  predicate OnlyMoved(s: State, t: State) {
    && t.active == s.active && t.audit == s.audit && t.calibration == s.calibration && t.locked == s.locked
    && t.nextId == s.nextId && t.disk == s.disk && t.server == s.server && t.seen == s.seen
    && t.past.asked == s.past.asked && t.past.ticket == s.past.ticket && t.past.owner == s.past.owner
    && !s.main.Concluding? && !t.main.Concluding?
  }

  lemma MovedOk(s: State, t: State)
    requires CoreOk(s) && OnlyMoved(s, t) && MainOk(t) && AskedOk(t)
    ensures CoreOk(t)
  {}

  lemma LookingOk(s: State, step: Step)
    requires CoreOk(s) && Enabled(s, step)
    requires step.Capture? || step.Read?
    ensures CoreOk(Next(s, step))
  {
    MovedOk(s, Next(s, step));
  }

  lemma RiseOk(s: State)
    requires CoreOk(s) && s.main.Raising?
    ensures CoreOk(RiseNext(s))
  {
    var rested := s.(main := Resting);
    if rested.active.Some? && rested.active.value.verification == PendingWrite {
      FinishOk(rested, rested.active.value.id, Failed, false);
    }
  }

  lemma DecideMoves(s: State, kind: Kind, who: Option<Captured>, value: int)
    requires CoreOk(s) && s.main == Deciding(kind, who, value)
    requires value != SettingOf(s, kind).last || !SeesPending(s, kind, who)
    ensures var t := DecideNext(s, kind, who, value); OnlyMoved(s, t) && MainOk(t) && AskedOk(t)
  {}

  lemma DecideOk(s: State, kind: Kind, who: Option<Captured>, value: int)
    requires CoreOk(s) && s.main == Deciding(kind, who, value)
    ensures CoreOk(DecideNext(s, kind, who, value))
  {
    if value == SettingOf(s, kind).last && SeesPending(s, kind, who) {
      FinishOk(s.(main := AfterKind(kind, who)), who.value.id, Succeeded, false);
    } else {
      DecideMoves(s, kind, who, value);
      MovedOk(s, DecideNext(s, kind, who, value));
    }
  }

  lemma AnsweredMoves(s: State, kind: Kind, who: Option<Captured>, value: int, answer: Answer)
    requires MainOk(s) && AskedOk(s) && s.main == Sent(kind, who, value)
    ensures var t := AnsweredNext(s, kind, who, value, answer); OnlyMoved(s, t) && MainOk(t) && AskedOk(t)
  {}

  lemma AnsweredOk(s: State, kind: Kind, who: Option<Captured>, value: int, answer: Answer)
    requires CoreOk(s) && s.main == Sent(kind, who, value)
    ensures CoreOk(AnsweredNext(s, kind, who, value, answer))
  {
    AnsweredMoves(s, kind, who, value, answer);
    MovedOk(s, AnsweredNext(s, kind, who, value, answer));
  }

  /** A write that is told to be running. */
  lemma RunWriteOk(s: State, kind: Kind, value: int, mono: int, timeout: int)
    requires CoreOk(s) && !s.main.Concluding? && s.active.Some? && s.active.value.name == NameOf(kind)
    ensures CoreOk(RunNow(s, VerificationOf(NameOf(kind)), value, OperationIdle, mono, timeout))
  {}

  lemma TellOk(s: State, kind: Kind, who: Option<Captured>, value: int, mono: int, timeout: int)
    requires CoreOk(s) && s.main == Handed(kind, who, value)
    ensures CoreOk(TellNext(s, kind, who, value, mono, timeout))
  {
    var onward := s.(main := if Holds(s, who.value.id) then AfterKind(kind, who) else Raising);
    MovedOk(s, onward);
    if Holds(s, who.value.id) { RunWriteOk(onward, kind, value, mono, timeout); }
  }

  lemma AchieveOk(s: State, adcOk: bool)
    requires CoreOk(s) && s.main.Resting?
    requires s.active.Some? && s.active.value.verification !in {Dispatching, PendingWrite}
    requires NormalModeVerified(s.active.value, s.seen) && ReadBack(s.active.value, s.seen, adcOk)
    ensures CoreOk(Achieve(s, s.active.value))
  {}

  lemma ExpireOk(s: State, mono: int, restoreOk: bool, restoreTimeout: int)
    requires CoreOk(s) && s.main.Resting?
    requires s.active.Some? && s.active.value.verification !in {Dispatching, PendingWrite}
    ensures CoreOk(Expire(s, s.active.value, mono, restoreOk, restoreTimeout))
  {
    if !IsCalibrating(s.active.value.verification) {
      FinishOk(s, s.active.value.id, TimedOut, s.active.value.verification == AwaitRestart);
    }
  }

  lemma AdvanceOk(s: State, mono: int, adcOk: bool, restoreOk: bool, restoreTimeout: int)
    requires CoreOk(s) && s.main.Resting? && !s.server.Superseding?
    ensures CoreOk(AdvanceNext(s, mono, adcOk, restoreOk, restoreTimeout))
  {
    if s.active.Some? && s.active.value.verification !in {Dispatching, PendingWrite} {
      var c := s.active.value;
      if c.verification == AwaitLatch && LatchVerified(c, s.seen) {
        FinishOk(s, c.id, Succeeded, false);
      } else if NormalModeVerified(c, s.seen) && ReadBack(c, s.seen, adcOk) {
        AchieveOk(s, adcOk);
      } else if mono >= c.deadline {
        ExpireOk(s, mono, restoreOk, restoreTimeout);
      }
    }
  }

  lemma ConcludeOk(s: State)
    requires CoreOk(s) && s.main.Concluding?
    ensures CoreOk(FinishOn(s, s.main.id, s.main.outcome, s.main.lock, s.main.evidence).(main := Resting))
  {}

  lemma SensedOk(s: State, seen: Seen)
    requires CoreOk(s) && SeenOk(seen)
    ensures CoreOk(s.(seen := seen))
  {}

  lemma RestartOk(s: State, threshold: int, averages: int)
    requires CoreOk(s)
    ensures CoreOk(Restarted(s, threshold, averages))
  {}

  // ------------------------------------------------------------------ history

  lemma Grown(s: State, t: State, entry: Entry)
    requires EvidenceOk(s) && t.past.log == s.past.log + [entry] && EntryOk(entry)
    ensures EvidenceOk(t)
    ensures TrackOf(t.past.log) == Follow(TrackOf(s.past.log), entry)
  {
    assert t.past.log[..|t.past.log| - 1] == s.past.log;
  }

  lemma RejectHistory(s: State)
    requires CoreOk(s) && HistoryOk(s)
    ensures HistoryOk(RejectNow(s))
  {
    if s.active.None? { Grown(s, RejectNow(s), RejectedEntry(s.nextId)); }
  }

  lemma AcceptHistory(s: State, name: Name, mono: int, timeout: int)
    requires CoreOk(s) && HistoryOk(s) && s.active.None?
    ensures HistoryOk(Accept(s, name, mono, timeout))
  {
    var t := Accept(s, name, mono, timeout);
    Grown(s, t, AcceptedEntry(t.past.ticket.value));
  }

  lemma BeginHistory(s: State, name: Name, role: Role, gate: GateMode, mono: int, timeout: int)
    requires CoreOk(s) && HistoryOk(s)
    ensures HistoryOk(BeginNext(s, name, role, gate, mono, timeout))
  {
    RejectHistory(s);
    if s.active.Some? {
      FinishHistory(s, s.active.value.id, Failed, false, s.seen);
    } else {
      AcceptHistory(s, name, mono, timeout);
    }
  }

  lemma EndHistory(s: State, step: Step)
    requires CoreOk(s) && HistoryOk(s) && Enabled(s, step)
    requires step.NotDispatched? || step.RejectArguments? || step.NowFailed? || step.Normalized?
    ensures HistoryOk(Next(s, step))
  {
    var t := Next(s, step);
    if |t.past.log| > |s.past.log| { Grown(s, t, t.past.log[|s.past.log|]); }
  }

  lemma RequestHistory(s: State, step: Step)
    requires CoreOk(s) && HistoryOk(s) && Enabled(s, step)
    requires step.Prepare? || step.SendRequest? || step.ReplyBad?
    ensures HistoryOk(Next(s, step))
  {
    var t := Next(s, step);
    if |t.past.log| > |s.past.log| { Grown(s, t, t.past.log[|s.past.log|]); }
  }

  lemma ReplyHistory(s: State, step: Step)
    requires CoreOk(s) && HistoryOk(s) && Enabled(s, step)
    requires step.ReplyGood? || step.NowRunning?
    ensures HistoryOk(Next(s, step))
  {
    var t := Next(s, step);
    if |t.past.log| > |s.past.log| { Grown(s, t, t.past.log[|s.past.log|]); }
  }

  lemma WriteHistory(s: State, ok: bool, value: int)
    requires CoreOk(s) && HistoryOk(s) && s.server.Writing?
    ensures HistoryOk(WriteNext(s, ok, value))
  {
    if !ok && Holds(s, s.server.id) { FinishHistory(s, s.server.id, Failed, false, s.seen); }
  }

  lemma FinishHistory(s: State, id: int, state: AuditState, lock: bool, evidence: Seen)
    requires TicketOk(s) && HistoryOk(s) && SeenOk(evidence) && Holds(s, id) && Unfinished(s.audit.state)
    requires state in {Succeeded, Failed, TimedOut}
    requires state == Succeeded ==>
               Supported(s.past.ticket.value, s.active.value.verification, s.active.value.expectedValue, evidence, s.past.asked)
    ensures HistoryOk(FinishOn(s, id, state, lock, evidence))
  {
    Grown(s, FinishOn(s, id, state, lock, evidence), Ended(s, state, evidence));
  }

  lemma RequestHistoryFor(s: State)
    requires TicketOk(s) && HistoryOk(s) && s.active.Some? && Unfinished(s.audit.state)
    ensures HistoryOk(Logged(s, RequestEntry(s.active.value.id)))
  {
    Grown(s, Logged(s, RequestEntry(s.active.value.id)), RequestEntry(s.active.value.id));
  }

  lemma RiseHistory(s: State)
    requires CoreOk(s) && HistoryOk(s) && s.main.Raising?
    ensures HistoryOk(RiseNext(s))
  {
    var rested := s.(main := Resting);
    if rested.active.Some? && rested.active.value.verification == PendingWrite {
      FinishHistory(rested, rested.active.value.id, Failed, false, rested.seen);
    }
  }

  lemma DecideHistory(s: State, kind: Kind, who: Option<Captured>, value: int)
    requires CoreOk(s) && HistoryOk(s) && s.main == Deciding(kind, who, value)
    ensures HistoryOk(DecideNext(s, kind, who, value))
  {
    var sent := s.(main := Sent(kind, who, value));
    if value == SettingOf(s, kind).last {
      if SeesPending(s, kind, who) { FinishHistory(s, who.value.id, Succeeded, false, s.seen); }
    } else if InRange(kind, value) {
      if Belongs(s, kind, value) {
        RequestHistoryFor(sent);
      } else {
        Grown(sent, Logged(sent, StrayEntry(kind, value)), StrayEntry(kind, value));
      }
    }
  }

  lemma AnsweredHistory(s: State, kind: Kind, who: Option<Captured>, value: int, answer: Answer)
    requires CoreOk(s) && HistoryOk(s) && s.main == Sent(kind, who, value)
    ensures HistoryOk(AnsweredNext(s, kind, who, value, answer))
  {
    AnsweredMoves(s, kind, who, value, answer);
    QuietHistory(s, AnsweredNext(s, kind, who, value, answer));
  }

  lemma TellHistory(s: State, kind: Kind, who: Option<Captured>, value: int, mono: int, timeout: int)
    requires CoreOk(s) && HistoryOk(s) && s.main == Handed(kind, who, value)
    ensures HistoryOk(TellNext(s, kind, who, value, mono, timeout))
  {
    var t := TellNext(s, kind, who, value, mono, timeout);
    if |t.past.log| > |s.past.log| { Grown(s, t, t.past.log[|s.past.log|]); }
  }

  lemma AchieveHistory(s: State, adcOk: bool)
    requires CoreOk(s) && HistoryOk(s) && s.main.Resting?
    requires s.active.Some? && s.active.value.verification !in {Dispatching, PendingWrite}
    requires NormalModeVerified(s.active.value, s.seen) && ReadBack(s.active.value, s.seen, adcOk)
    ensures HistoryOk(Achieve(s, s.active.value))
  {
    var c := s.active.value;
    if !IsCalibrating(c.verification) { FinishHistory(s, c.id, Succeeded, false, s.seen); }
  }

  lemma ExpireHistory(s: State, mono: int, restoreOk: bool, restoreTimeout: int)
    requires CoreOk(s) && HistoryOk(s) && s.main.Resting?
    requires s.active.Some? && s.active.value.verification !in {Dispatching, PendingWrite}
    ensures HistoryOk(Expire(s, s.active.value, mono, restoreOk, restoreTimeout))
  {
    var c := s.active.value;
    RequestHistoryFor(s);
    if !IsCalibrating(c.verification) { FinishHistory(s, c.id, TimedOut, c.verification == AwaitRestart, s.seen); }
  }

  lemma AdvanceHistory(s: State, mono: int, adcOk: bool, restoreOk: bool, restoreTimeout: int)
    requires CoreOk(s) && HistoryOk(s) && s.main.Resting? && !s.server.Superseding?
    ensures HistoryOk(AdvanceNext(s, mono, adcOk, restoreOk, restoreTimeout))
  {
    if s.active.Some? && s.active.value.verification !in {Dispatching, PendingWrite} {
      var c := s.active.value;
      if c.verification == AwaitLatch && LatchVerified(c, s.seen) {
        FinishHistory(s, c.id, Succeeded, false, s.seen);
      } else if NormalModeVerified(c, s.seen) && ReadBack(c, s.seen, adcOk) {
        AchieveHistory(s, adcOk);
      } else if mono >= c.deadline {
        ExpireHistory(s, mono, restoreOk, restoreTimeout);
      }
    }
  }

  lemma ConcludeHistory(s: State)
    requires CoreOk(s) && HistoryOk(s) && s.main.Concluding?
    ensures HistoryOk(FinishOn(s, s.main.id, s.main.outcome, s.main.lock, s.main.evidence).(main := Resting))
  {
    FinishHistory(s, s.main.id, s.main.outcome, s.main.lock, s.main.evidence);
  }

  /** Nothing the history speaks of has changed. */
  lemma QuietHistory(s: State, t: State)
    requires HistoryOk(s) && t.past.log == s.past.log && t.past.ticket == s.past.ticket
    requires t.audit == s.audit && t.active.Some? == s.active.Some? && t.nextId == s.nextId
    ensures HistoryOk(t)
  {}

  lemma RestartHistory(s: State, threshold: int, averages: int)
    requires CoreOk(s) && HistoryOk(s)
    ensures HistoryOk(Restarted(s, threshold, averages))
  {
    var t := Restarted(s, threshold, averages);
    if s.past.ticket.Some? {
      Grown(s, t, Ended(s, Failed, s.seen));
    }
  }

  // ---------------------------------------------------------------- every step

  predicate IsServerStep(step: Step) {
    !IsPassStep(step)
    && !IsSense(step) && !(step.Advance? || step.Conclude? || step.Restart?)
  }

  /** Accepting, and the three parts of a write. */
  predicate IsAccess(step: Step) {
    step.Begin? || step.AcceptAbort? || step.WriteNode? || step.MarkPending? || step.Expect?
  }

  predicate IsPassStep(step: Step) {
    step.Capture? || step.Read? || step.Decide? || step.Answered? || step.Tell? || step.Rise?
  }

  /** What the collectors and the system's clock bring. */
  predicate IsSense(step: Step) {
    step.Measure? || step.Look? || step.Tick?
  }

  lemma AccessKeepsCore(s: State, step: Step)
    requires CoreOk(s) && Enabled(s, step) && IsAccess(step)
    ensures CoreOk(Next(s, step))
  {
    match step
    case Begin(name, role, gate, mono, timeout) => BeginOk(s, name, role, gate, mono, timeout);
    case AcceptAbort => AcceptAbortOk(s, step);
    case WriteNode(ok, value) => WriteOk(s, ok, value);
    case MarkPending => MarkOk(s);
    case Expect => ExpectOk(s);
  }

  lemma CallbackKeepsCore(s: State, step: Step)
    requires CoreOk(s) && Enabled(s, step) && IsServerStep(step) && !IsAccess(step)
    ensures CoreOk(Next(s, step))
  {
    match step
    case NotDispatched => EndOk(s, step);
    case RejectArguments => EndOk(s, step);
    case Prepare => RequestOk(s, step);
    case SendRequest => RequestOk(s, step);
    case ReplyGood(mono, timeout, expected) => ReplyGoodOk(s, mono, timeout, expected);
    case ReplyBad => ReplyBadOk(s);
    case NowRunning(_, _, _) => NowRunningOk(s, step);
    case NowFailed => EndOk(s, step);
    case Normalized(_) => EndOk(s, step);
  }

  lemma PassKeepsCore(s: State, step: Step)
    requires CoreOk(s) && Enabled(s, step) && IsPassStep(step)
    ensures CoreOk(Next(s, step))
  {
    match step
    case Capture => LookingOk(s, step);
    case Read => LookingOk(s, step);
    case Decide => DecideOk(s, s.main.kind, s.main.who, s.main.value);
    case Answered(answer) => AnsweredOk(s, s.main.kind, s.main.who, s.main.value, answer);
    case Tell(mono, timeout) => TellOk(s, s.main.kind, s.main.who, s.main.value, mono, timeout);
    case Rise => RiseOk(s);
  }

  lemma SenseKeepsCore(s: State, step: Step)
    requires CoreOk(s) && Enabled(s, step) && IsSense(step)
    ensures CoreOk(Next(s, step))
  {
    SensedOk(s, Next(s, step).seen);
  }

  lemma LoopKeepsCore(s: State, step: Step)
    requires CoreOk(s) && Enabled(s, step) && !IsServerStep(step) && !IsPassStep(step) && !IsSense(step)
    ensures CoreOk(Next(s, step))
  {
    match step
    case Advance(mono, adcOk, restoreOk, restoreTimeout) => AdvanceOk(s, mono, adcOk, restoreOk, restoreTimeout);
    case Conclude => ConcludeOk(s);
    case Restart(threshold, averages) => RestartOk(s, threshold, averages);
  }

  lemma CoreKept(s: State, step: Step)
    requires CoreOk(s) && Enabled(s, step)
    ensures CoreOk(Next(s, step))
  {
    if IsAccess(step) { AccessKeepsCore(s, step); }
    else if IsServerStep(step) { CallbackKeepsCore(s, step); }
    else if IsPassStep(step) { PassKeepsCore(s, step); }
    else if IsSense(step) { SenseKeepsCore(s, step); }
    else { LoopKeepsCore(s, step); }
  }

  lemma AccessKeepsHistory(s: State, step: Step)
    requires CoreOk(s) && HistoryOk(s) && Enabled(s, step) && IsAccess(step)
    ensures HistoryOk(Next(s, step))
  {
    match step
    case Begin(name, role, gate, mono, timeout) => BeginHistory(s, name, role, gate, mono, timeout);
    case AcceptAbort => AcceptHistory(s, AbortCalibration, s.server.mono, s.server.timeout);
    case WriteNode(ok, value) => WriteHistory(s, ok, value);
    case MarkPending => QuietHistory(s, MarkNext(s));
    case Expect => QuietHistory(s, ExpectNext(s));
  }

  lemma CallbackKeepsHistory(s: State, step: Step)
    requires CoreOk(s) && HistoryOk(s) && Enabled(s, step) && IsServerStep(step) && !IsAccess(step)
    ensures HistoryOk(Next(s, step))
  {
    match step
    case NotDispatched => EndHistory(s, step);
    case RejectArguments => EndHistory(s, step);
    case Prepare => RequestHistory(s, step);
    case SendRequest => RequestHistory(s, step);
    case ReplyGood(_, _, _) => ReplyHistory(s, step);
    case ReplyBad => RequestHistory(s, step);
    case NowRunning(_, _, _) => ReplyHistory(s, step);
    case NowFailed => EndHistory(s, step);
    case Normalized(_) => EndHistory(s, step);
  }

  lemma PassKeepsHistory(s: State, step: Step)
    requires CoreOk(s) && HistoryOk(s) && Enabled(s, step) && IsPassStep(step)
    ensures HistoryOk(Next(s, step))
  {
    match step
    case Capture => QuietHistory(s, Next(s, step));
    case Read => QuietHistory(s, Next(s, step));
    case Decide => DecideHistory(s, s.main.kind, s.main.who, s.main.value);
    case Answered(answer) => AnsweredHistory(s, s.main.kind, s.main.who, s.main.value, answer);
    case Tell(mono, timeout) => TellHistory(s, s.main.kind, s.main.who, s.main.value, mono, timeout);
    case Rise => RiseHistory(s);
  }

  lemma LoopKeepsHistory(s: State, step: Step)
    requires CoreOk(s) && HistoryOk(s) && Enabled(s, step) && !IsServerStep(step) && !IsPassStep(step) && !IsSense(step)
    ensures HistoryOk(Next(s, step))
  {
    match step
    case Advance(mono, adcOk, restoreOk, restoreTimeout) => AdvanceHistory(s, mono, adcOk, restoreOk, restoreTimeout);
    case Conclude => ConcludeHistory(s);
    case Restart(threshold, averages) => RestartHistory(s, threshold, averages);
  }

  lemma HistoryKept(s: State, step: Step)
    requires CoreOk(s) && HistoryOk(s) && Enabled(s, step)
    ensures HistoryOk(Next(s, step))
  {
    if IsAccess(step) { AccessKeepsHistory(s, step); }
    else if IsServerStep(step) { CallbackKeepsHistory(s, step); }
    else if IsPassStep(step) { PassKeepsHistory(s, step); }
    else if IsSense(step) { QuietHistory(s, Next(s, step)); }
    else { LoopKeepsHistory(s, step); }
  }

  lemma {:induction false} EveryStateOk(states: seq<State>, steps: seq<Step>, i: nat)
    requires IsRun(states, steps) && i <= |steps|
    ensures StateOk(states[i])
  {
    if i == 0 {
      InitialOk(states[0]);
    } else {
      EveryStateOk(states, steps, i - 1);
      CoreKept(states[i - 1], steps[i - 1]);
      HistoryKept(states[i - 1], steps[i - 1]);
      assert states[i] == Next(states[i - 1], steps[i - 1]);
    }
  }

  /** Some run ends here. */
  ghost predicate Reachable(s: State) {
    exists states, steps :: IsRun(states, steps) && states[|steps|] == s
  }

  lemma ReachableFirst(s: State)
    requires Initial(s)
    ensures Reachable(s)
  {
    assert IsRun([s], []) && [s][0] == s;
  }

  lemma ReachableNext(s: State, step: Step)
    requires Reachable(s) && Enabled(s, step)
    ensures Reachable(Next(s, step))
  {
    var states, steps :| IsRun(states, steps) && states[|steps|] == s;
    var more, longer := states + [Next(s, step)], steps + [step];
    assert IsRun(more, longer) && more[|longer|] == Next(s, step);
  }

  lemma ReachableOk(s: State)
    requires Reachable(s)
    ensures StateOk(s)
  {
    var states, steps :| IsRun(states, steps) && states[|steps|] == s;
    EveryStateOk(states, steps, |steps|);
  }
}
