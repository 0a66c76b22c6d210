/** The serialized command gate of the OPC UA server as a state machine.  Each
    step is one stretch of code that at most once rewrites the state file, or
    touches once what both threads share; a crash may come between any two.  The
    server thread (accepting and dispatching) and the main loop (forwarding and
    verifying) interleave. */
module CommandState {
  import opened Wrappers

  datatype Name =
    | ClearLatch | StartCalibration | CaptureAdc | NormalizeMagnitude | SetSystemTime
    | RestartMeasurementEngine | AbortCalibration | RestoreNormalState
    | ThresholdOhm | AveragesPerCalculation

  datatype Role = Anonymous | Operator | Maintenance

  datatype GateMode = GateDisabled | GateOperator | GateMaintenance

  /** What an active command still waits for. */
  datatype Verification =
    | Dispatching | PendingWrite
    | AwaitLatch | AwaitCalibration | AwaitTimeoutRestore | AwaitAdc | AwaitTime | AwaitRestart | AwaitRestore
    | AwaitThreshold | AwaitAverages

  datatype AuditState = Idle | Accepted | Running | Succeeded | Failed | Rejected | TimedOut

  datatype Operation =
    | OperationIdle | Starting | Calibrating | Restoring | Completed | OperationFailed | Aborted | OperationUnknown

  datatype Restoration = NotRequired | Commanded | Verified | RestorationFailed | RestorationUnknown

  datatype Active = Active(
    id: int,
    name: Name,
    requestedAt: int,
    deadline: int,
    verification: Verification,
    startSequence: int,
    startPid: int,
    expectedHash: string,
    expectedValue: int,
    terminal: Operation,
    restoreAttempted: bool)

  datatype Audit = Audit(id: int, state: AuditState)

  datatype Calibration = Calibration(state: Operation, restoration: Restoration)

  /** A parsed measurement record. */
  datatype Snapshot = Snapshot(
    sequence: int,
    good: bool,
    latched: bool,
    alarm: bool,
    threshold: Option<int>,
    averages: int)

  /** What the collectors last saw. */
  datatype Seen = Seen(
    goodSequence: int,
    goodAt: Option<int>,
    snapshot: Option<Snapshot>,
    pid: int,
    hash: string,
    clock: Option<int>,
    now: int)

  /** A writable node and the value last handed to the engine. */
  datatype Setting = Setting(node: int, last: int)

  datatype Kind = Threshold | Averages

  /** The persisted file. */
  datatype Disk = Missing | Corrupt | Record(locked: bool, audit: Audit, calibration: Calibration)

  /** Where the server thread is.  A write first lands on its node, is marked as
      pending afterwards, and then takes the value it expects. */
  datatype Server =
    | Listening
    | Superseding(mono: int, timeout: int)
    | Dispatched(id: int)
    | Prepared(id: int)
    | Waiting(id: int)
    | Replied(id: int)
    | Failing(id: int)
    | Writing(id: int, kind: Kind)
    | Written(id: int, kind: Kind, value: int)
    | Marked(id: int, kind: Kind, value: int)

  datatype Captured = Captured(id: int, name: Name)

  /** Where the main loop is.  `who` is the active command it looked up when the
      forwarding pass began, `value` what it read from the node: a value it decides
      on, has sent to the engine, or has handed over. */
  datatype Main =
    | Resting
    | Reading(kind: Kind, who: Option<Captured>)
    | Deciding(kind: Kind, who: Option<Captured>, value: int)
    | Sent(kind: Kind, who: Option<Captured>, value: int)
    | Handed(kind: Kind, who: Option<Captured>, value: int)
    | Raising
    | Concluding(id: int, outcome: AuditState, lock: bool, evidence: Seen)

  /** A command as accepted. */
  datatype Ticket = Ticket(
    id: int,
    name: Name,
    requestedAt: int,
    startSequence: int,
    startPid: int,
    expectedHash: string)

  /** A stray entry is a request for a value that the active command, if any, did
      not ask for. */
  datatype Entry =
    | RejectedEntry(id: int)
    | AcceptedEntry(ticket: Ticket)
    | RequestEntry(id: int)
    | StrayEntry(kind: Kind, value: int)
    | RunningEntry(id: int)
    | TerminalEntry(
        ticket: Ticket,
        state: AuditState,
        at: Verification,
        expected: int,
        seen: Seen,
        asked: Option<int>,
        differed: bool)

  /** Remembered to state properties: the log, the open command's ticket, the value
      it has written to its node, whether the engine's last value was ever another
      one since, and the command that last took charge of the operation. */
  datatype Past = Past(
    log: seq<Entry>,
    ticket: Option<Ticket>,
    asked: Option<int>,
    differed: bool,
    owner: Option<int>)

  datatype State = State(
    active: Option<Active>,
    audit: Audit,
    calibration: Calibration,
    locked: bool,
    threshold: Setting,
    averages: Setting,
    seen: Seen,
    nextId: int,
    disk: Disk,
    server: Server,
    main: Main,
    past: Past)

  datatype Answer = Agreed | Refused | Lost

  datatype Step =
    | Begin(name: Name, role: Role, gate: GateMode, mono: int, timeout: int)
    | AcceptAbort
    | NotDispatched
    | RejectArguments
    | Prepare
    | SendRequest
    | ReplyGood(mono: int, timeout: int, expected: int)
    | ReplyBad
    | NowRunning(mono: int, timeout: int, expected: int)
    | NowFailed
    | Normalized(ok: bool)
    | WriteNode(ok: bool, value: int)
    | MarkPending
    | Expect
    | Capture
    | Read
    | Decide
    | Answered(answer: Answer)
    | Tell(mono: int, timeout: int)
    | Rise
    | Advance(mono: int, adcOk: bool, restoreOk: bool, restoreTimeout: int)
    | Conclude
    | Measure(snapshot: Snapshot, at: int)
    | Look(pid: int, clock: Option<int>)
    | Tick(now: int, hash: string)
    | Restart(thresholdOhm: int, averagesPer: int)

  // ------------------------------------------------------- names and settings

  predicate NeedsMaintenance(name: Name) {
    name !in {ClearLatch, ThresholdOhm, AveragesPerCalculation}
  }

  predicate IsWrite(name: Name) {
    name in {ThresholdOhm, AveragesPerCalculation}
  }

  /** Methods that first record a calibration operation. */
  predicate NeedsOperation(name: Name) {
    name in {StartCalibration, AbortCalibration, RestoreNormalState}
  }

  function NameOf(kind: Kind): Name {
    if kind == Threshold then ThresholdOhm else AveragesPerCalculation
  }

  function KindOf(name: Name): Kind {
    if name == ThresholdOhm then Threshold else Averages
  }

  function VerificationOf(name: Name): Verification {
    match name
    case ClearLatch => AwaitLatch
    case StartCalibration => AwaitCalibration
    case CaptureAdc => AwaitAdc
    case NormalizeMagnitude => Dispatching
    case SetSystemTime => AwaitTime
    case RestartMeasurementEngine => AwaitRestart
    case AbortCalibration => AwaitRestore
    case RestoreNormalState => AwaitRestore
    case ThresholdOhm => AwaitThreshold
    case AveragesPerCalculation => AwaitAverages
  }

  function TerminalOf(name: Name): Operation {
    match name
    case StartCalibration => Completed
    case AbortCalibration => Aborted
    case _ => OperationIdle
  }

  const THRESHOLD_MAX_OHM := 1_000_000
  const AVERAGES_MAX := 1_000_000

  predicate InRange(kind: Kind, value: int) {
    match kind
    case Threshold => 0 <= value <= THRESHOLD_MAX_OHM
    case Averages => 1 <= value <= AVERAGES_MAX
  }

  function SettingOf(s: State, kind: Kind): Setting {
    if kind == Threshold then s.threshold else s.averages
  }

  function WithSetting(s: State, kind: Kind, setting: Setting): State {
    if kind == Threshold then s.(threshold := setting) else s.(averages := setting)
  }

  // ----------------------------------------------------------- building blocks

  /** `_persist_command_state`. */
  function Saved(s: State): State {
    s.(disk := Record(s.locked, s.audit, s.calibration))
  }

  function Logged(s: State, entry: Entry): State {
    s.(past := s.past.(log := s.past.log + [entry]))
  }

  /** `_set_calibration_operation`. */
  function Operate(s: State, state: Operation, restoration: Restoration): State {
    Saved(s.(calibration := Calibration(state, restoration)))
  }

  /** `_record_rejected`: a concurrent command's record is left alone. */
  function RejectNow(s: State): State {
    if s.active.Some? then s
    else
      Logged(Saved(s.(audit := Audit(s.nextId, Rejected), nextId := s.nextId + 1)), RejectedEntry(s.nextId))
  }

  /** The active command's last entry. */
  function Ended(s: State, state: AuditState, evidence: Seen): Entry
    requires s.active.Some? && s.past.ticket.Some?
  {
    TerminalEntry(s.past.ticket.value, state, s.active.value.verification, s.active.value.expectedValue, evidence,
                  s.past.asked, s.past.differed)
  }

  /** `_finish_command`: only the active command can be finished. */
  function FinishOn(s: State, id: int, state: AuditState, lock: bool, evidence: Seen): State {
    if s.active.None? || s.active.value.id != id then s
    else
      var done := Saved(s.(active := None, audit := s.audit.(state := state), locked := s.locked || lock));
      if s.past.ticket.None? then done
      else Logged(done.(past := done.past.(ticket := None, asked := None, differed := false)), Ended(s, state, evidence))
  }

  function Finish(s: State, id: int, state: AuditState, lock: bool): State {
    FinishOn(s, id, state, lock, s.seen)
  }

  function Timeout(seconds: int): int {
    if seconds < 1 then 1 else seconds
  }

  /** `_set_command_running`, for the active command. */
  function RunNow(s: State, verification: Verification, expected: int, terminal: Operation, mono: int, timeout: int): State
    requires s.active.Some?
  {
    var c := s.active.value.(verification := verification, expectedValue := expected, terminal := terminal,
                             deadline := mono + Timeout(timeout));
    var running := Saved(s.(active := Some(c), audit := s.audit.(state := Running)));
    if s.audit.state == Running then running else Logged(running, RunningEntry(c.id))
  }

  function TicketOf(c: Active): Ticket {
    Ticket(c.id, c.name, c.requestedAt, c.startSequence, c.startPid, c.expectedHash)
  }

  function Accept(s: State, name: Name, mono: int, timeout: int): State {
    var c := Active(s.nextId, name, s.seen.now, mono + timeout, Dispatching, s.seen.goodSequence, s.seen.pid, s.seen.hash,
                    0, OperationIdle, false);
    var past := s.past.(ticket := Some(TicketOf(c)), asked := None, differed := false);
    Logged(Saved(s.(active := Some(c), audit := Audit(c.id, Accepted), nextId := s.nextId + 1,
                    server := if IsWrite(name) then Writing(c.id, KindOf(name)) else Dispatched(c.id), past := past)),
           AcceptedEntry(TicketOf(c)))
  }

  function TakeCharge(s: State): State
    requires s.active.Some?
  {
    s.(past := s.past.(owner := Some(s.active.value.id)))
  }

  // -------------------------------------------------------- the server thread

  predicate Refuses(s: State, name: Name, role: Role, gate: GateMode) {
    || role == Anonymous
    || gate == GateDisabled
    || (NeedsMaintenance(name) && role != Maintenance)
    || (NeedsMaintenance(name) && gate != GateMaintenance)
    || (s.locked && name != RestoreNormalState)
  }

  predicate Supersedes(s: State, name: Name) {
    && s.active.Some? && name == AbortCalibration
    && s.active.value.verification in {AwaitCalibration, AwaitTimeoutRestore}
  }

  function BeginNext(s: State, name: Name, role: Role, gate: GateMode, mono: int, timeout: int): State {
    if Refuses(s, name, role, gate) then RejectNow(s)
    else if Supersedes(s, name) then
      Finish(s, s.active.value.id, Failed, false).(server := Superseding(mono, timeout))
    else if s.active.Some? then RejectNow(s)
    else Accept(s, name, mono, timeout)
  }

  /** The command the server thread is busy with is still the active one. */
  predicate Holds(s: State, id: int) {
    s.active.Some? && s.active.value.id == id
  }

  function ReplyGoodNext(s: State, mono: int, timeout: int, expected: int): State
    requires s.active.Some?
  {
    var name := s.active.value.name;
    if name == StartCalibration then
      Operate(s, Calibrating, RestorationUnknown).(server := Replied(s.active.value.id))
    else
      RunNow(s, VerificationOf(name), expected, TerminalOf(name), mono, timeout).(server := Listening)
  }

  function ReplyBadNext(s: State): State
    requires s.active.Some?
  {
    var c := s.active.value;
    if NeedsOperation(c.name) then
      Operate(s, OperationFailed, if c.name == StartCalibration then RestorationUnknown else RestorationFailed)
        .(server := Failing(c.id))
    else
      Finish(s, c.id, Failed, false).(server := Listening)
  }

  /** The node takes the value, whatever has become of the command. */
  function WriteNext(s: State, ok: bool, value: int): State
    requires s.server.Writing?
  {
    var Writing(id, kind) := s.server;
    if !ok then Finish(s, id, Failed, false).(server := Listening)
    else
      var written := WithSetting(s, kind, SettingOf(s, kind).(node := value)).(server := Written(id, kind, value));
      if !Holds(s, id) then written
      else written.(past := s.past.(asked := Some(value), differed := SettingOf(s, kind).last != value))
  }

  function MarkNext(s: State): State
    requires s.server.Written?
  {
    var marked := s.(server := Marked(s.server.id, s.server.kind, s.server.value));
    if Holds(s, s.server.id) then marked.(active := Some(s.active.value.(verification := PendingWrite))) else marked
  }

  function ExpectNext(s: State): State
    requires s.server.Marked?
  {
    var listening := s.(server := Listening);
    if Holds(s, s.server.id) then listening.(active := Some(s.active.value.(expectedValue := s.server.value))) else listening
  }

  // ------------------------------------------------------------ the main loop

  /** The command looked up at the start of the pass is a pending write of this kind. */
  predicate SeesPending(s: State, kind: Kind, who: Option<Captured>) {
    && who.Some? && Holds(s, who.value.id)
    && who.value.name == NameOf(kind) && s.active.value.verification == PendingWrite
  }

  function LookedUp(s: State): Option<Captured> {
    if s.active.Some? then Some(Captured(s.active.value.id, s.active.value.name)) else None
  }

  function AfterKind(kind: Kind, who: Option<Captured>): Main {
    if kind == Threshold then Reading(Averages, who) else Resting
  }

  /** The command looked up at the start of the pass is none, or of another name. */
  predicate Stale(kind: Kind, who: Option<Captured>) {
    who.None? || who.value.name != NameOf(kind)
  }

  /** The active command asked for this value. */
  predicate Belongs(s: State, kind: Kind, value: int) {
    s.active.Some? && s.active.value.name == NameOf(kind) && s.past.asked == Some(value)
  }

  /** The pass acts on the value it has read; the node may hold another by now. */
  function DecideNext(s: State, kind: Kind, who: Option<Captured>, value: int): State {
    var last := SettingOf(s, kind).last;
    if value != last then
      if !InRange(kind, value) then WithSetting(s, kind, Setting(last, last)).(main := Raising)
      else
        Logged(s.(main := Sent(kind, who, value)),
               if Belongs(s, kind, value) then RequestEntry(s.active.value.id) else StrayEntry(kind, value))
    else if SeesPending(s, kind, who) then
      Finish(s, who.value.id, Succeeded, false).(main := AfterKind(kind, who))
    else s.(main := AfterKind(kind, who))
  }

  /** What the engine was handed is compared with what the active command asked for. */
  function Compared(s: State, kind: Kind): State {
    if s.active.Some? && s.active.value.name == NameOf(kind) && s.past.asked.Some?
       && s.past.asked.value != SettingOf(s, kind).last
    then s.(past := s.past.(differed := true))
    else s
  }

  /** Without an answer the old value comes back; with one the new value counts as
      the engine's, and a refusal is noticed only for a command of that name. */
  function AnsweredNext(s: State, kind: Kind, who: Option<Captured>, value: int, answer: Answer): State {
    var last := SettingOf(s, kind).last;
    if answer == Lost then WithSetting(s, kind, Setting(last, last)).(main := Raising)
    else
      var handed := Compared(WithSetting(s, kind, Setting(value, value)), kind);
      if Stale(kind, who) then handed.(main := AfterKind(kind, who))
      else if answer == Refused then handed.(main := Raising)
      else handed.(main := Handed(kind, who, value))
  }

  /** The command looked up at the start is told to be running, if still active. */
  function TellNext(s: State, kind: Kind, who: Option<Captured>, value: int, mono: int, timeout: int): State {
    if who.None? || !Holds(s, who.value.id) then s.(main := Raising)
    else RunNow(s, VerificationOf(NameOf(kind)), value, OperationIdle, mono, timeout).(main := AfterKind(kind, who))
  }

  /** A pass that raised: the write that is pending by now, if any, has failed. */
  function RiseNext(s: State): State {
    var rested := s.(main := Resting);
    if rested.active.Some? && rested.active.value.verification == PendingWrite
    then Finish(rested, rested.active.value.id, Failed, false)
    else rested
  }

  predicate Fresh(c: Active, seen: Seen) {
    seen.goodSequence > c.startSequence && seen.goodAt.Some? && seen.goodAt.value >= c.requestedAt
  }

  /** `_normal_mode_verified`. */
  predicate NormalModeVerified(c: Active, seen: Seen) {
    && Fresh(c, seen)
    && seen.pid > 0
    && !(c.startPid > 0 && seen.pid == c.startPid)
    && c.expectedHash != "" && seen.hash == c.expectedHash
  }

  predicate LatchVerified(c: Active, seen: Seen) {
    Fresh(c, seen) && seen.snapshot.Some? && (!seen.snapshot.value.latched || seen.snapshot.value.alarm)
  }

  predicate Near(a: int, b: int) {
    -5 <= a - b <= 5
  }

  /** The readback each verification asks for besides normal mode. */
  predicate ReadBack(c: Active, seen: Seen, adcOk: bool) {
    match c.verification
    case AwaitThreshold => seen.snapshot.Some? && seen.snapshot.value.threshold == Some(c.expectedValue)
    case AwaitAverages => seen.snapshot.Some? && seen.snapshot.value.averages == c.expectedValue
    case AwaitTime => seen.clock.Some? && Near(seen.clock.value, c.expectedValue)
    case AwaitAdc => adcOk
    case AwaitLatch => false
    case Dispatching => false
    case PendingWrite => false
    case _ => true
  }

  /** What a verified command comes to. */
  function Achieve(s: State, c: Active): State {
    match c.verification
    case AwaitCalibration => Operate(s, Completed, Verified).(main := Concluding(c.id, Succeeded, false, s.seen))
    case AwaitTimeoutRestore => Operate(s, OperationFailed, Verified).(main := Concluding(c.id, TimedOut, false, s.seen))
    case AwaitRestore => Operate(s.(locked := false), c.terminal, Verified).(main := Concluding(c.id, Succeeded, false, s.seen))
    case _ => Finish(s, c.id, Succeeded, false)
  }

  /** What an expired command comes to. */
  function Expire(s: State, c: Active, mono: int, restoreOk: bool, restoreTimeout: int): State
    requires s.active == Some(c)
  {
    if c.verification == AwaitCalibration && !c.restoreAttempted && restoreOk then
      var d := c.(restoreAttempted := true, verification := AwaitTimeoutRestore, startSequence := s.seen.goodSequence,
                  startPid := s.seen.pid, deadline := mono + restoreTimeout);
      Operate(Logged(s, RequestEntry(c.id)).(active := Some(d)), Restoring, Commanded)
    else
      var tried := if c.verification == AwaitCalibration && !c.restoreAttempted then Logged(s, RequestEntry(c.id)) else s;
      if c.verification in {AwaitCalibration, AwaitTimeoutRestore, AwaitRestore}
      then Operate(tried, OperationFailed, RestorationFailed).(main := Concluding(c.id, TimedOut, true, s.seen))
      else Finish(tried, c.id, TimedOut, c.verification == AwaitRestart)
  }

  /** `_advance_active_command`. */
  function AdvanceNext(s: State, mono: int, adcOk: bool, restoreOk: bool, restoreTimeout: int): State {
    if s.active.None? || s.active.value.verification in {Dispatching, PendingWrite} then s
    else
      var c := s.active.value;
      if c.verification == AwaitLatch && LatchVerified(c, s.seen) then Finish(s, c.id, Succeeded, false)
      else if NormalModeVerified(c, s.seen) && ReadBack(c, s.seen, adcOk) then Achieve(s, c)
      else if mono < c.deadline then s
      else Expire(s, c, mono, restoreOk, restoreTimeout)
  }

  // ------------------------------------------------------------------ restart

  predicate Unfinished(state: AuditState) {
    state in {Accepted, Running}
  }

  /** `_restore_command_state`: audit, calibration, lock, and what is on disk after. */
  function Restored(disk: Disk): (Audit, Calibration, bool, Disk) {
    match disk
    case Missing => (Audit(0, Idle), Calibration(OperationIdle, NotRequired), false, Missing)
    case Corrupt => (Audit(0, Idle), Calibration(OperationIdle, NotRequired), true, Corrupt)
    case Record(locked, audit, calibration) =>
      if !Unfinished(audit.state) then (audit, calibration, locked, disk)
      else
        var a, c := audit.(state := Failed), Calibration(OperationUnknown, RestorationUnknown);
        (a, c, true, Record(true, a, c))
  }

  const NOTHING_SEEN := Seen(0, None, None, 0, "", None, 0)

  predicate Busy(operation: Operation) {
    operation in {Starting, Calibrating, Restoring}
  }

  function Restarted(s: State, threshold: int, averages: int): State {
    var (audit, calibration, locked, disk) := Restored(s.disk);
    var log := if s.past.ticket.Some? && s.active.Some? then s.past.log + [Ended(s, Failed, s.seen)] else s.past.log;
    State(None, audit, calibration, locked, Setting(threshold, threshold), Setting(averages, averages),
          NOTHING_SEEN.(now := s.seen.now, hash := s.seen.hash), s.nextId, disk, Listening, Resting,
          Past(log, None, None, false, None))
  }

  // -------------------------------------------------------------------- steps

  predicate Enabled(s: State, step: Step) {
    match step
    case Begin(_, _, _, _, _) => s.server.Listening? && !s.main.Concluding?
    case AcceptAbort => s.server.Superseding?
    case NotDispatched => s.server.Dispatched? && s.active.Some?
    case RejectArguments =>
      s.server.Dispatched? && s.active.Some? && s.active.value.name in {StartCalibration, SetSystemTime}
    case Prepare => s.server.Dispatched? && s.active.Some? && NeedsOperation(s.active.value.name)
    case SendRequest =>
      && s.active.Some?
      && (s.server.Prepared? || (s.server.Dispatched? && !NeedsOperation(s.active.value.name)
                                 && s.active.value.name != NormalizeMagnitude))
    case ReplyGood(_, _, _) => s.server.Waiting? && s.active.Some?
    case ReplyBad => s.server.Waiting? && s.active.Some?
    case NowRunning(_, _, _) => s.server.Replied? && s.active.Some?
    case NowFailed => s.server.Failing? && s.active.Some?
    case Normalized(_) => s.server.Dispatched? && s.active.Some? && s.active.value.name == NormalizeMagnitude
    case WriteNode(_, _) => s.server.Writing?
    case MarkPending => s.server.Written?
    case Expect => s.server.Marked?
    case Capture => s.main.Resting?
    case Read => s.main.Reading?
    case Decide => s.main.Deciding?
    case Answered(_) => s.main.Sent?
    case Tell(_, _) => s.main.Handed?
    case Rise => s.main.Raising?
    case Advance(_, _, _, _) => s.main.Resting? && !s.server.Superseding?
    case Conclude => s.main.Concluding?
    case Measure(snapshot, _) =>
      && s.main.Resting?
      && snapshot.sequence > 0 && (s.seen.snapshot.Some? ==> snapshot.sequence > s.seen.snapshot.value.sequence)
    case Look(_, _) => s.main.Resting?
    case Tick(_, _) => true
    case Restart(_, _) => true
  }

  function Next(s: State, step: Step): State
    requires Enabled(s, step)
  {
    match step
    case Begin(name, role, gate, mono, timeout) => BeginNext(s, name, role, gate, mono, timeout)
    case AcceptAbort => TakeCharge(Accept(s, AbortCalibration, s.server.mono, s.server.timeout))
    case NotDispatched => Finish(s, s.active.value.id, Failed, false).(server := Listening)
    case RejectArguments => Finish(s, s.active.value.id, Failed, false).(server := Listening)
    case Prepare =>
      var c := s.active.value;
      TakeCharge(if c.name == StartCalibration then Operate(s, Starting, RestorationUnknown)
                 else Operate(s, Restoring, Commanded))
        .(server := Prepared(c.id))
    case SendRequest => Logged(s, RequestEntry(s.active.value.id)).(server := Waiting(s.active.value.id))
    case ReplyGood(mono, timeout, expected) => ReplyGoodNext(s, mono, timeout, expected)
    case ReplyBad => ReplyBadNext(s)
    case NowRunning(mono, timeout, expected) =>
      RunNow(s, AwaitCalibration, expected, Completed, mono, timeout).(server := Listening)
    case NowFailed =>
      Finish(s, s.active.value.id, Failed, s.active.value.name != StartCalibration).(server := Listening)
    case Normalized(ok) =>
      Finish(s, s.active.value.id, if ok then Succeeded else Failed, false).(server := Listening)
    case WriteNode(ok, value) => WriteNext(s, ok, value)
    case MarkPending => MarkNext(s)
    case Expect => ExpectNext(s)
    case Capture => s.(main := Reading(Threshold, LookedUp(s)))
    case Read => s.(main := Deciding(s.main.kind, s.main.who, SettingOf(s, s.main.kind).node))
    case Decide => DecideNext(s, s.main.kind, s.main.who, s.main.value)
    case Answered(answer) => AnsweredNext(s, s.main.kind, s.main.who, s.main.value, answer)
    case Tell(mono, timeout) => TellNext(s, s.main.kind, s.main.who, s.main.value, mono, timeout)
    case Rise => RiseNext(s)
    case Advance(mono, adcOk, restoreOk, restoreTimeout) => AdvanceNext(s, mono, adcOk, restoreOk, restoreTimeout)
    case Conclude => FinishOn(s, s.main.id, s.main.outcome, s.main.lock, s.main.evidence).(main := Resting)
    case Measure(snapshot, at) =>
      s.(seen := if snapshot.good
                 then s.seen.(snapshot := Some(snapshot), goodSequence := snapshot.sequence, goodAt := Some(at))
                 else s.seen.(snapshot := Some(snapshot)))
    case Look(pid, clock) => s.(seen := s.seen.(pid := pid, clock := clock))
    case Tick(now, hash) => s.(seen := s.seen.(now := now, hash := hash))
    case Restart(threshold, averages) => Restarted(s, threshold, averages)
  }

  /** A first start, the file restored already.  It may hold the trace of an
      operation whose owner is gone. */
  predicate Initial(s: State) {
    && s.active == None
    && s.nextId > 0
    && (s.disk.Record? ==> s.disk.audit.id < s.nextId)
    && (s.audit, s.calibration, s.locked, s.disk) == Restored(s.disk)
    && s.seen == NOTHING_SEEN.(now := s.seen.now, hash := s.seen.hash)
    && s.threshold.node == s.threshold.last && s.averages.node == s.averages.last
    && s.server == Listening && s.main == Resting
    && s.past == Past([], None, None, false, None)
  }

  ghost predicate IsRun(states: seq<State>, steps: seq<Step>) {
    && |states| == |steps| + 1
    && Initial(states[0])
    && forall i :: 0 <= i < |steps| ==> Enabled(states[i], steps[i]) && states[i + 1] == Next(states[i], steps[i])
  }
}
