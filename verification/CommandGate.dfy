/** The command gate as the server keeps it: fields changed step by step.  Every
    method leaves behind a longer run of the state machine, which ends in the
    fields' present values, so that whatever holds of every run holds here. */
module CommandGate {
  import opened Wrappers
  import opened CommandState
  import opened CommandInvariant
  import opened CommandOutcomes

  /** A command whose operation is recorded and whose record is left to conclude. */
  datatype Ending = Ending(id: int, outcome: AuditState, lock: bool)

  /** The record is the active command's. */
  lemma RecordIsActive(states: seq<State>, steps: seq<Step>)
    requires IsRun(states, steps) && states[|steps|].active.Some?
    ensures states[|steps|].audit.id == states[|steps|].active.value.id
  {
    EveryStateOk(states, steps, |steps|);
  }

  /** Whoever is active while a write is under way is that write. */
  lemma WriterIsActive(states: seq<State>, steps: seq<Step>)
    requires IsRun(states, steps) && states[|steps|].server.Writing? && states[|steps|].active.Some?
    ensures states[|steps|].active.value.id == states[|steps|].server.id
  {
    EveryStateOk(states, steps, |steps|);
  }

  lemma LookIsDecided(states: seq<State>, steps: seq<Step>, mono: int, adcOk: bool, restoreOk: bool, restoreTimeout: int)
    requires IsRun(states, steps) && states[|steps|].main.Resting? && !states[|steps|].server.Superseding?
    ensures var s := states[|steps|];
            LookOutcome(s, Looked(s, mono, adcOk, restoreOk, restoreTimeout), mono, adcOk, restoreOk, restoreTimeout)
  {
    EveryStateOk(states, steps, |steps|);
    EveryLookDecides(states[|steps|], mono, adcOk, restoreOk, restoreTimeout);
  }

  class CommandGate {
    var active: Option<Active>
    var audit: Audit
    var calibration: Calibration
    var locked: bool
    var threshold: Setting
    var averages: Setting
    var seen: Seen
    var nextId: int
    var disk: Disk
    ghost var server: Server
    ghost var main: Main
    ghost var past: Past
    ghost var states: seq<State>
    ghost var steps: seq<Step>

    ghost function View(): State
      reads this
    {
      State(active, audit, calibration, locked, threshold, averages, seen, nextId, disk, server, main, past)
    }

    ghost predicate Valid()
      reads this
    {
      IsRun(states, steps) && states[|steps|] == View()
    }

    /** A first start, from whatever file is there. */
    constructor (stored: Disk, identifier: int, thresholdOhm: int, averagesPer: int, now: int, hash: string)
      requires identifier > 0
      requires stored.Record? ==> stored.audit.id < identifier
      ensures Valid() && steps == [] && active == None
      ensures (audit, calibration, locked, disk) == Restored(stored)
    {
      active := None;
      threshold := Setting(thresholdOhm, thresholdOhm);
      averages := Setting(averagesPer, averagesPer);
      seen := NOTHING_SEEN.(now := now, hash := hash);
      nextId := identifier;
      server := Listening;
      main := Resting;
      past := Past([], None, None, false, None);
      disk := stored;
      new;
      RestoreCommandState();
      assert Restored(disk) == (audit, calibration, locked, disk);
      states := [View()];
      steps := [];
    }

    /** The fields have taken this step. */
    ghost method Take(step: Step)
      requires IsRun(states, steps) && Enabled(states[|steps|], step)
      requires View() == Next(states[|steps|], step)
      modifies this`states, this`steps
      ensures Valid() && steps == old(steps) + [step] && states == old(states) + [View()]
    {
      states, steps := states + [View()], steps + [step];
    }

    // --------------------------------------------------------- building blocks

    /** From now on a restart finds this record, operation and lock, and fails and
        locks a command that is not finished. */
    method PersistCommandState()
      modifies this`disk
      ensures View() == Saved(old(View()))
      ensures Restored(disk) == if Unfinished(audit.state)
                                then var failed := audit.(state := Failed);
                                     (failed, Calibration(OperationUnknown, RestorationUnknown), true,
                                      Record(true, failed, Calibration(OperationUnknown, RestorationUnknown)))
                                else (audit, calibration, locked, disk)
    {
      disk := Record(locked, audit, calibration);
    }

    /** Nothing stored: the defaults.  An unreadable file locks.  A command that was
        under way has failed, its operation and restoration are unknown, and the gate
        locks; anything else is as it was. */
    method RestoreCommandState()
      modifies this`audit, this`calibration, this`locked, this`disk
      ensures (audit, calibration, locked, disk) == Restored(old(disk))
      ensures match old(disk)
              case Missing => audit == Audit(0, Idle) && calibration == Calibration(OperationIdle, NotRequired) && !locked
              case Corrupt => audit == Audit(0, Idle) && calibration == Calibration(OperationIdle, NotRequired) && locked
              case Record(wasLocked, wasAudit, wasCalibration) =>
                if wasAudit.state == Accepted || wasAudit.state == Running
                then && audit == Audit(wasAudit.id, Failed) && locked
                     && calibration == Calibration(OperationUnknown, RestorationUnknown)
                     && disk == Record(true, audit, calibration)
                else audit == wasAudit && calibration == wasCalibration && locked == wasLocked && disk == old(disk)
    {
      audit := Audit(0, Idle);
      calibration := Calibration(OperationIdle, NotRequired);
      locked := false;
      match disk {
        case Missing =>
        case Corrupt => locked := true;
        case Record(storedLocked, storedAudit, storedCalibration) =>
          audit, calibration, locked := storedAudit, storedCalibration, storedLocked;
      }
      if audit.state in {Accepted, Running} {
        audit := audit.(state := Failed);
        calibration := Calibration(OperationUnknown, RestorationUnknown);
        locked := true;
        PersistCommandState();
      }
    }

    method SetCalibrationOperation(state: Operation, restoration: Restoration)
      modifies this`calibration, this`disk
      ensures View() == Operate(old(View()), state, restoration)
      ensures calibration == Calibration(state, restoration) && disk == Record(locked, audit, calibration)
    {
      calibration := Calibration(state, restoration);
      PersistCommandState();
    }

    method RecordRejected()
      modifies this`audit, this`nextId, this`disk, this`past
      ensures View() == RejectNow(old(View()))
      ensures if active.Some? then audit == old(audit) && nextId == old(nextId) && disk == old(disk)
              else audit == Audit(old(nextId), Rejected) && nextId == old(nextId) + 1 && disk == Record(locked, audit, calibration)
    {
      if active.Some? { return; }
      audit := Audit(nextId, Rejected);
      past := past.(log := past.log + [RejectedEntry(nextId)]);
      nextId := nextId + 1;
      PersistCommandState();
    }

    /** `evidence` is what the collectors had seen when this was decided. */
    method FinishCommand(id: int, state: AuditState, faultLocked: bool, ghost evidence: Seen)
      modifies this`active, this`audit, this`locked, this`disk, this`past
      ensures View() == FinishOn(old(View()), id, state, faultLocked, evidence)
      ensures if old(active.Some? && active.value.id == id)
              then && active == None && audit == old(audit).(state := state) && locked == (old(locked) || faultLocked)
                   && disk == Record(locked, audit, calibration)
              else active == old(active) && audit == old(audit) && locked == old(locked) && disk == old(disk)
    {
      if active.None? || active.value.id != id { return; }
      if past.ticket.Some? {
        past := past.(ticket := None, asked := None, differed := false, log := past.log + [Ended(View(), state, evidence)]);
      }
      audit := audit.(state := state);
      active := None;
      if faultLocked { locked := true; }
      PersistCommandState();
    }

    /** False when the command is no longer the active one. */
    method SetCommandRunning(id: int, verification: Verification, expected: int, terminal: Operation, mono: int, timeout: int)
        returns (running: bool)
      modifies this`active, this`audit, this`disk, this`past
      ensures running == (old(active).Some? && old(active).value.id == id)
      ensures running ==> View() == RunNow(old(View()), verification, expected, terminal, mono, timeout)
      ensures running ==>
                && old(active).Some? && Waits(old(active).value, active, verification, expected, terminal, mono, timeout)
                && audit == old(audit).(state := Running) && disk == Record(locked, audit, calibration)
      ensures !running ==> View() == old(View())
    {
      if active.None? || active.value.id != id { return false; }
      active := Some(active.value.(verification := verification, expectedValue := expected, terminal := terminal,
                                   deadline := mono + Timeout(timeout)));
      if audit.state != Running { past := past.(log := past.log + [RunningEntry(id)]); }
      audit := audit.(state := Running);
      ghost var after := RunNow(old(View()), verification, expected, terminal, mono, timeout);
      assert after.active == active && after.audit == audit && after.past == past;
      PersistCommandState();
      running := true;
    }

    /** The method took exactly this step. */
    twostate predicate Took(step: Step)
      reads this
    {
      && old(Valid()) && Valid() && Enabled(old(View()), step)
      && View() == Next(old(View()), step)
      && steps == old(steps) + [step] && states == old(states) + [View()]
    }

    // -------------------------------------------------------------- acceptance

    /** Accepts the command unless the caller's role, the gate's mode, the fault
        lock or another active command forbids it; an abort may take over a
        calibration, whose record is closed first. */
    method BeginRemoteCommand(name: Name, role: Role, gate: GateMode, mono: int, timeout: int)
        returns (command: Option<Active>)
      requires Valid() && server == Listening && !main.Concluding?
      modifies this
      ensures Valid()
      ensures command.Some? <==> old(MayBegin(name, role, gate, locked) && (active.None? || TakesOver(name, active)))
      ensures steps == old(steps) + [Begin(name, role, gate, mono, timeout)]
                       + if old(MayBegin(name, role, gate, locked) && TakesOver(name, active)) then [AcceptAbort] else []
      ensures old(states) <= states
      ensures command.Some? ==>
                && active == command && server == Entrance(command.value) && disk.Record?
                && disk.audit == Audit(command.value.id, Accepted) && command.value.name == name
                && IsNew(command.value, old(nextId), name, old(seen), mono + timeout) && nextId == old(nextId) + 1
                && audit == disk.audit && calibration == old(calibration) && locked == old(locked)
      ensures command.None? ==> active == old(active) && server == Listening
      ensures command.None? ==> audit == if active.Some? then old(audit) else Audit(old(nextId), Rejected)
    {
      ghost var begin := Begin(name, role, gate, mono, timeout);
      RefusesExactly(View(), name, role, gate);
      if || role == Anonymous
         || gate == GateDisabled
         || (NeedsMaintenance(name) && role != Maintenance)
         || (NeedsMaintenance(name) && gate != GateMaintenance)
         || (locked && name != RestoreNormalState)
      {
        RejectRequest(name, role, gate, mono, timeout);
        return None;
      }
      if active.Some? {
        if name == AbortCalibration && active.value.verification in {AwaitCalibration, AwaitTimeoutRestore} {
          Supersede(role, gate, mono, timeout);
        } else {
          RejectRequest(name, role, gate, mono, timeout);
          return None;
        }
      } else {
        AcceptCommand(name, mono, timeout, begin);
      }
      command := active;
    }

    method RejectRequest(name: Name, role: Role, gate: GateMode, mono: int, timeout: int)
      requires Valid() && Enabled(View(), Begin(name, role, gate, mono, timeout))
      requires Refuses(View(), name, role, gate) || (active.Some? && !Supersedes(View(), name))
      modifies this
      ensures Took(Begin(name, role, gate, mono, timeout)) && active == old(active) && server == old(server)
      ensures audit == if active.Some? then old(audit) else Audit(old(nextId), Rejected)
    {
      RecordRejected();
      Take(Begin(name, role, gate, mono, timeout));
    }

    method Supersede(role: Role, gate: GateMode, mono: int, timeout: int)
      requires Valid() && Enabled(View(), Begin(AbortCalibration, role, gate, mono, timeout))
      requires !Refuses(View(), AbortCalibration, role, gate) && Supersedes(View(), AbortCalibration)
      modifies this
      ensures Valid() && old(states) <= states
      ensures steps == old(steps) + [Begin(AbortCalibration, role, gate, mono, timeout), AcceptAbort]
      ensures Entered(AbortCalibration, mono, timeout)
    {
      SupersedeActive(role, gate, mono, timeout);
      AcceptCommand(AbortCalibration, mono, timeout, AcceptAbort);
    }

    method SupersedeActive(role: Role, gate: GateMode, mono: int, timeout: int)
      requires Valid() && Enabled(View(), Begin(AbortCalibration, role, gate, mono, timeout))
      requires !Refuses(View(), AbortCalibration, role, gate) && Supersedes(View(), AbortCalibration)
      modifies this
      ensures Took(Begin(AbortCalibration, role, gate, mono, timeout))
      ensures server == Superseding(mono, timeout) && active == None && audit == Audit(old(audit.id), Failed)
      ensures nextId == old(nextId) && seen == old(seen) && calibration == old(calibration) && locked == old(locked)
    {
      FinishCommand(active.value.id, Failed, false, seen);
      server := Superseding(mono, timeout);
      Take(Begin(AbortCalibration, role, gate, mono, timeout));
    }

    /** What the server thread does with an accepted command. */
    static function Entrance(c: Active): Server {
      if IsWrite(c.name) then Writing(c.id, KindOf(c.name)) else Dispatched(c.id)
    }

    /** The command is the active one with the terms of this moment, on disk as well. */
    twostate predicate Entered(name: Name, mono: int, timeout: int)
      reads this
    {
      && active.Some? && active.value.name == name && server == Entrance(active.value)
      && IsNew(active.value, old(nextId), name, old(seen), mono + timeout) && nextId == old(nextId) + 1
      && audit == Audit(active.value.id, Accepted) && disk == Record(locked, audit, calibration)
      && calibration == old(calibration) && locked == old(locked)
    }

    /** Makes the command the active one and records its acceptance. */
    method AcceptCommand(name: Name, mono: int, timeout: int, ghost step: Step)
      requires Valid() && Enabled(View(), step)
      requires Next(View(), step) == (var accepted := Accept(View(), name, mono, timeout);
                                      if step.AcceptAbort? then TakeCharge(accepted) else accepted)
      modifies this
      ensures Took(step) && Entered(name, mono, timeout)
    {
      RecordAccepted(name, mono, timeout);
      if step.AcceptAbort? { past := past.(owner := Some(active.value.id)); }
      Take(step);
    }

    method RecordAccepted(name: Name, mono: int, timeout: int)
      modifies this`active, this`audit, this`nextId, this`disk, this`server, this`past
      ensures View() == Accept(old(View()), name, mono, timeout) && Entered(name, mono, timeout)
    {
      ghost var after := Accept(View(), name, mono, timeout);
      var c := Active(nextId, name, seen.now, mono + timeout, Dispatching, seen.goodSequence, seen.pid, seen.hash,
                      0, OperationIdle, false);
      nextId := nextId + 1;
      active := Some(c);
      audit := Audit(c.id, Accepted);
      server := Entrance(c);
      past := past.(ticket := Some(TicketOf(c)), asked := None, differed := false,
                    log := past.log + [AcceptedEntry(TicketOf(c))]);
      assert after.active == active && after.audit == audit && after.past == past;
      PersistCommandState();
    }

    // --------------------------------------------------------------- callbacks

    /** Sends the active command's request to the engine. */
    method Request()
      requires Valid() && Enabled(View(), SendRequest)
      modifies this
      ensures Took(SendRequest) && active == old(active) && server == Waiting(active.value.id) && audit == old(audit)
      ensures calibration == old(calibration) && locked == old(locked)
    {
      past := past.(log := past.log + [RequestEntry(active.value.id)]);
      server := Waiting(active.value.id);
      Take(SendRequest);
    }

    /** Records the operation a callback is about to ask for. */
    method Announce(state: Operation, restoration: Restoration)
      requires Valid() && Enabled(View(), Step.Prepare)
      requires (state, restoration) == if active.value.name == StartCalibration then (Starting, RestorationUnknown)
                                       else (Restoring, Commanded)
      modifies this
      ensures Took(Step.Prepare) && calibration == Calibration(state, restoration) && active == old(active)
      ensures audit == old(audit) && locked == old(locked)
    {
      SetCalibrationOperation(state, restoration);
      past := past.(owner := Some(active.value.id));
      server := Prepared(active.value.id);
      Take(Step.Prepare);
    }

    /** The common start of the callbacks that restore or calibrate. */
    method AnnounceAndRequest(state: Operation, restoration: Restoration)
      requires Valid() && server.Dispatched? && active.Some? && NeedsOperation(active.value.name)
      requires (state, restoration) == if active.value.name == StartCalibration then (Starting, RestorationUnknown)
                                       else (Restoring, Commanded)
      modifies this
      ensures Valid() && old(states) <= states && steps == old(steps) + [Step.Prepare, SendRequest]
      ensures active == old(active) && active.Some? && server == Waiting(active.value.id)
      ensures audit == old(audit) && locked == old(locked) && calibration == Calibration(state, restoration)
    {
      Announce(state, restoration);
      Request();
    }

    method FailRequested(restoration: Restoration, faultLocked: bool)
      requires Valid() && active.Some? && server == Waiting(active.value.id) && NeedsOperation(active.value.name)
      requires restoration == if active.value.name == StartCalibration then RestorationUnknown else RestorationFailed
      requires faultLocked == (active.value.name != StartCalibration)
      modifies this
      ensures Valid() && old(states) <= states && steps == old(steps) + [ReplyBad, NowFailed]
      ensures server == Listening && active == None && audit == old(audit).(state := Failed)
      ensures calibration == Calibration(OperationFailed, restoration) && locked == (old(locked) || faultLocked)
    {
      RequestFailed(restoration);
      FailOperation(faultLocked);
    }

    /** The engine refused, or the request failed. */
    method RequestFailed(restoration: Restoration)
      requires Valid() && Enabled(View(), ReplyBad) && NeedsOperation(active.value.name)
      requires restoration == if active.value.name == StartCalibration then RestorationUnknown else RestorationFailed
      modifies this
      ensures Took(ReplyBad) && calibration == Calibration(OperationFailed, restoration)
      ensures active == old(active) && audit == old(audit) && locked == old(locked)
    {
      SetCalibrationOperation(OperationFailed, restoration);
      server := Failing(active.value.id);
      Take(ReplyBad);
    }

    method FailOperation(faultLocked: bool)
      requires Valid() && Enabled(View(), NowFailed) && faultLocked == (active.value.name != StartCalibration)
      modifies this
      ensures Took(NowFailed) && active == None && audit == old(audit).(state := Failed)
      ensures locked == (old(locked) || faultLocked) && calibration == old(calibration)
    {
      FinishCommand(active.value.id, Failed, faultLocked, seen);
      server := Listening;
      Take(NowFailed);
    }

    /** The engine accepted: the command now awaits its readback. */
    method RequestAccepted(verification: Verification, expected: int, terminal: Operation, mono: int, timeout: int)
      requires Valid() && Enabled(View(), ReplyGood(mono, timeout, expected)) && active.value.name != StartCalibration
      requires verification == VerificationOf(active.value.name) && terminal == TerminalOf(active.value.name)
      requires active.value.name in {ClearLatch, CaptureAdc, SetSystemTime, RestartMeasurementEngine,
                                     AbortCalibration, RestoreNormalState}
      modifies this
      ensures Took(ReplyGood(mono, timeout, expected)) && server == Listening
      ensures WaitsByName(old(active.value), active, expected, mono, timeout)
      ensures audit == old(audit).(state := Running) && calibration == old(calibration) && locked == old(locked)
    {
      ghost var before := active.value;
      var running := SetCommandRunning(active.value.id, verification, expected, terminal, mono, timeout);
      WaitsByItsName(before, active, expected, mono, timeout);
      server := Listening;
      Take(ReplyGood(mono, timeout, expected));
    }

    /** A command that needs one request to the engine and then its readback. */
    method RequestMethod(reply: bool, expected: int, mono: int, timeout: int)
      requires Valid() && server.Dispatched? && active.Some?
      requires active.value.name in {ClearLatch, CaptureAdc, SetSystemTime, RestartMeasurementEngine}
      modifies this
      ensures Valid() && server == Listening && old(states) <= states
      ensures steps == old(steps) + [SendRequest] + [if reply then ReplyGood(mono, timeout, expected) else ReplyBad]
      ensures reply ==> WaitsByName(old(active.value), active, expected, mono, timeout) && audit == old(audit).(state := Running)
      ensures !reply ==> active == None && audit == old(audit).(state := Failed)
      ensures calibration == old(calibration) && locked == old(locked)
    {
      Request();
      if reply {
        RequestAccepted(VerificationOf(active.value.name), expected, OperationIdle, mono, timeout);
      } else {
        FailRequest();
      }
    }

    /** A time that is none, or not between 2000 and 2100, fails without a request. */
    method SetSystemTimeMethod(requested: Option<int>, reply: bool, mono: int, timeout: int)
      requires Valid() && server.Dispatched? && active.Some? && active.value.name == SetSystemTime
      modifies this
      ensures Valid() && server == Listening && old(states) <= states
      ensures var fits := requested.Some? && 946_684_800 <= requested.value <= 4_102_444_800;
              && steps == old(steps) + (if !fits then [RejectArguments]
                                        else [SendRequest, if reply then ReplyGood(mono, timeout, requested.value) else ReplyBad])
              && if fits && reply
                 then Waits(old(active.value), active, AwaitTime, requested.value, OperationIdle, mono, timeout)
                      && audit == old(audit).(state := Running)
                 else active == None && audit == old(audit).(state := Failed)
      ensures calibration == old(calibration) && locked == old(locked)
    {
      if requested.None? || requested.value < 946_684_800 || requested.value > 4_102_444_800 {
        FailArguments();
      } else {
        RequestMethod(reply, requested.value, mono, timeout);
      }
    }

    method FailRequest()
      requires Valid() && Enabled(View(), ReplyBad) && !NeedsOperation(active.value.name)
      modifies this
      ensures Took(ReplyBad) && server == Listening && active == None && audit == old(audit).(state := Failed)
      ensures calibration == old(calibration) && locked == old(locked)
    {
      FinishCommand(active.value.id, Failed, false, seen);
      server := Listening;
      Take(ReplyBad);
    }

    method StartCalibrationMethod(perPoint: int, reply: bool, mono: int, timeout: int)
      requires Valid() && server.Dispatched? && active.Some? && active.value.name == StartCalibration
      modifies this
      ensures Valid() && server == Listening && old(states) <= states
      ensures steps == old(steps) + if !(1 <= perPoint <= 1_000_000) then [RejectArguments]
                                    else [Step.Prepare, SendRequest]
                                         + (if reply then [ReplyGood(mono, timeout, perPoint), NowRunning(mono, timeout, perPoint)]
                                            else [ReplyBad, NowFailed])
      ensures if 1 <= perPoint <= 1_000_000 && reply
              then && Waits(old(active.value), active, AwaitCalibration, perPoint, Completed, mono, timeout)
                   && audit == old(audit).(state := Running) && calibration == Calibration(Calibrating, RestorationUnknown)
              else && active == None && audit == old(audit).(state := Failed)
                   && calibration == if 1 <= perPoint <= 1_000_000 then Calibration(OperationFailed, RestorationUnknown)
                                     else old(calibration)
      ensures locked == old(locked)
    {
      if perPoint < 1 || perPoint > 1_000_000 {
        FailArguments();
        return;
      }
      AnnounceAndRequest(Starting, RestorationUnknown);
      if reply {
        CalibrationAccepted(perPoint, mono, timeout);
      } else {
        FailRequested(RestorationUnknown, false);
      }
    }

    /** The library never reached the callback, say for a missing argument: nothing of
        the operation is touched, not even one that an abort has just taken over. */
    method FailDispatch()
      requires Valid() && Enabled(View(), NotDispatched)
      modifies this
      ensures Took(NotDispatched) && server == Listening && active == None && audit == old(audit).(state := Failed)
      ensures locked == old(locked) && calibration == old(calibration)
    {
      FinishCommand(active.value.id, Failed, false, seen);
      server := Listening;
      Take(NotDispatched);
    }

    method FailArguments()
      requires Valid() && Enabled(View(), RejectArguments)
      modifies this
      ensures Took(RejectArguments) && server == Listening && active == None && audit == old(audit).(state := Failed)
      ensures locked == old(locked) && calibration == old(calibration)
    {
      FinishCommand(active.value.id, Failed, false, seen);
      server := Listening;
      Take(RejectArguments);
    }

    method CalibrationAccepted(perPoint: int, mono: int, timeout: int)
      requires Valid() && server.Waiting? && active.Some? && active.value.name == StartCalibration
      modifies this
      ensures Valid() && old(states) <= states && server == Listening
      ensures steps == old(steps) + [ReplyGood(mono, timeout, perPoint), NowRunning(mono, timeout, perPoint)]
      ensures Waits(old(active.value), active, AwaitCalibration, perPoint, Completed, mono, timeout)
      ensures audit == old(audit).(state := Running) && calibration == Calibration(Calibrating, RestorationUnknown)
      ensures locked == old(locked)
    {
      CalibrationStarted(perPoint, mono, timeout);
      CalibrationRunning(perPoint, mono, timeout);
    }

    method CalibrationStarted(perPoint: int, mono: int, timeout: int)
      requires Valid() && server.Waiting? && active.Some? && active.value.name == StartCalibration
      modifies this
      ensures Took(ReplyGood(mono, timeout, perPoint)) && calibration == Calibration(Calibrating, RestorationUnknown)
      ensures active == old(active) && active.Some? && server == Replied(active.value.id)
      ensures audit == old(audit) && locked == old(locked)
    {
      SetCalibrationOperation(Calibrating, RestorationUnknown);
      server := Replied(active.value.id);
      Take(ReplyGood(mono, timeout, perPoint));
    }

    method CalibrationRunning(perPoint: int, mono: int, timeout: int)
      requires Valid() && server.Replied? && active.Some?
      modifies this
      ensures Took(NowRunning(mono, timeout, perPoint)) && server == Listening && calibration == old(calibration)
      ensures Waits(old(active.value), active, AwaitCalibration, perPoint, Completed, mono, timeout)
      ensures audit == old(audit).(state := Running) && locked == old(locked)
    {
      var running := SetCommandRunning(active.value.id, AwaitCalibration, perPoint, Completed, mono, timeout);
      server := Listening;
      Take(NowRunning(mono, timeout, perPoint));
    }

    /** AbortCalibration and RestoreNormalState. */
    method RestoreMethod(reply: bool, mono: int, timeout: int)
      requires Valid() && server.Dispatched? && active.Some? && active.value.name in {AbortCalibration, RestoreNormalState}
      modifies this
      ensures Valid() && server == Listening && old(states) <= states
      ensures steps == old(steps) + [Step.Prepare, SendRequest]
                       + (if reply then [ReplyGood(mono, timeout, 0)] else [ReplyBad, NowFailed])
      ensures if reply
              then && WaitsByName(old(active.value), active, 0, mono, timeout) && audit == old(audit).(state := Running)
                   && calibration == Calibration(Restoring, Commanded) && locked == old(locked)
              else && active == None && audit == old(audit).(state := Failed)
                   && calibration == Calibration(OperationFailed, RestorationFailed) && locked
    {
      var name := active.value.name;
      AnnounceAndRequest(Restoring, Commanded);
      if reply {
        RequestAccepted(AwaitRestore, 0, if name == AbortCalibration then Aborted else OperationIdle, mono, timeout);
      } else {
        FailRequested(RestorationFailed, true);
      }
    }

    method NormalizeMagnitudeMethod(ok: bool)
      requires Valid() && server.Dispatched? && active.Some? && active.value.name == NormalizeMagnitude
      modifies this
      ensures Valid() && server == Listening && old(states) <= states
      ensures steps == old(steps) + [Normalized(ok)]
      ensures active == None && audit == Audit(old(active.value.id), if ok then Succeeded else Failed)
      ensures calibration == old(calibration) && locked == old(locked)
    {
      RecordIsActive(states, steps);
      FinishCommand(active.value.id, if ok then Succeeded else Failed, false, seen);
      server := Listening;
      Take(Normalized(ok));
    }

    /** The node is written first and the command marked afterwards. */
    method RemoteWrite(command: Active, value: int, ok: bool)
      requires Valid() && server == Writing(command.id, KindOf(command.name))
      modifies this
      ensures Valid() && server == Listening && old(states) <= states
      ensures steps == old(steps) + if ok then [WriteNode(true, value), MarkPending, Expect] else [WriteNode(false, value)]
      ensures if !ok then threshold == old(threshold) && averages == old(averages)
              else if command.name == ThresholdOhm then threshold == old(threshold).(node := value) && averages == old(averages)
              else threshold == old(threshold) && averages == old(averages).(node := value)
      ensures if active.None? || old(active).None? then active == (if ok then old(active) else None)
              else ok && active.value == old(active.value).(verification := PendingWrite, expectedValue := value)
      ensures audit == if !ok && old(active).Some? then old(audit).(state := Failed) else old(audit)
      ensures calibration == old(calibration) && locked == old(locked)
    {
      if active.Some? { WriterIsActive(states, steps); }
      if !ok {
        FailWrite(command, value);
        return;
      }
      WriteValue(command, value);
      MarkCommand(command, value);
    }

    /** Two assignments, between which the main loop may read the first. */
    method MarkCommand(command: Active, value: int)
      requires Valid() && server == Written(command.id, KindOf(command.name), value)
      modifies this
      ensures Valid() && server == Listening && old(states) <= states && steps == old(steps) + [MarkPending, Expect]
      ensures threshold == old(threshold) && averages == old(averages)
      ensures audit == old(audit) && calibration == old(calibration) && locked == old(locked)
      ensures active == if Holds(old(View()), command.id)
                        then Some(old(active.value).(verification := PendingWrite, expectedValue := value)) else old(active)
    {
      MarkWritten(command, value);
      ExpectWritten(command, value);
    }

    method MarkWritten(command: Active, value: int)
      requires Valid() && server == Written(command.id, KindOf(command.name), value)
      modifies this
      ensures Took(MarkPending) && server == Marked(command.id, KindOf(command.name), value)
      ensures audit == old(audit) && calibration == old(calibration) && locked == old(locked)
      ensures threshold == old(threshold) && averages == old(averages)
      ensures active == if Holds(old(View()), command.id)
                        then Some(old(active.value).(verification := PendingWrite)) else old(active)
    {
      if active.Some? && active.value.id == command.id {
        active := Some(active.value.(verification := PendingWrite));
      }
      server := Marked(command.id, KindOf(command.name), value);
      Take(MarkPending);
    }

    method ExpectWritten(command: Active, value: int)
      requires Valid() && server == Marked(command.id, KindOf(command.name), value)
      modifies this
      ensures Took(Expect) && server == Listening
      ensures audit == old(audit) && calibration == old(calibration) && locked == old(locked)
      ensures threshold == old(threshold) && averages == old(averages)
      ensures active == if Holds(old(View()), command.id)
                        then Some(old(active.value).(expectedValue := value)) else old(active)
    {
      if active.Some? && active.value.id == command.id {
        active := Some(active.value.(expectedValue := value));
      }
      server := Listening;
      Take(Expect);
    }

    method FailWrite(command: Active, value: int)
      requires Valid() && server == Writing(command.id, KindOf(command.name))
      modifies this
      ensures Took(WriteNode(false, value)) && server == Listening
      ensures active == if Holds(old(View()), command.id) then None else old(active)
      ensures audit == if Holds(old(View()), command.id) then old(audit).(state := Failed) else old(audit)
      ensures calibration == old(calibration) && locked == old(locked)
      ensures threshold == old(threshold) && averages == old(averages)
    {
      FinishCommand(command.id, Failed, false, seen);
      server := Listening;
      Take(WriteNode(false, value));
    }

    method WriteValue(command: Active, value: int)
      requires Valid() && server == Writing(command.id, KindOf(command.name))
      modifies this
      ensures Took(WriteNode(true, value)) && active == old(active)
      ensures audit == old(audit) && calibration == old(calibration) && locked == old(locked)
      ensures server == Written(command.id, KindOf(command.name), value)
      ensures if command.name == ThresholdOhm then threshold == old(threshold).(node := value) && averages == old(averages)
              else threshold == old(threshold) && averages == old(averages).(node := value)
    {
      if active.Some? && active.value.id == command.id {
        past := past.(asked := Some(value), differed := SettingOf(View(), KindOf(command.name)).last != value);
      }
      if command.name == ThresholdOhm { threshold := threshold.(node := value); } else { averages := averages.(node := value); }
      server := Written(command.id, KindOf(command.name), value);
      Take(WriteNode(true, value));
    }

    // ----------------------------------------------------------- the main loop

    /** Only this setting may have changed, and the server thread has not moved. */
    twostate predicate OnlyTouched(kind: Kind)
      reads this
    {
      server == old(server) && if kind == Threshold then averages == old(averages) else threshold == old(threshold)
    }

    /** The command and its record have not changed. */
    twostate predicate NotTold()
      reads this
    {
      active == old(active) && audit == old(audit)
    }

    /** This is what the pass made of the setting and the command. */
    twostate predicate Handled(kind: Kind, who: Option<Captured>, answer: Answer, mono: int, timeout: int, on: bool)
      reads this
    {
      Handles(kind, who, answer, mono, timeout,
              Handling(old(SettingOf(View(), kind)), old(active), old(audit), true),
              Handling(SettingOf(View(), kind), active, audit, on))
    }

    function Fields(): Held
      reads this
    {
      Held(threshold, averages, active, audit)
    }

    /** The command that the pass will deal with, if it still matters by then. */
    method LookUp() returns (who: Option<Captured>)
      requires Valid() && main == Resting
      modifies this
      ensures Took(Capture) && who == LookedUp(View()) && main == Reading(Threshold, who) && NotTold()
      ensures server == old(server) && threshold == old(threshold) && averages == old(averages)
    {
      who := if active.Some? then Some(Captured(active.value.id, active.value.name)) else None;
      main := Reading(Threshold, who);
      Take(Capture);
    }

    method ReadSetting(kind: Kind, who: Option<Captured>) returns (value: int)
      requires Valid() && main == Reading(kind, who)
      modifies this
      ensures Took(Read) && value == SettingOf(View(), kind).node && main == Deciding(kind, who, value) && NotTold()
      ensures server == old(server) && threshold == old(threshold) && averages == old(averages)
    {
      value := if kind == Threshold then threshold.node else averages.node;
      main := Deciding(kind, who, value);
      Take(Read);
    }

    method SetNode(kind: Kind, setting: Setting)
      modifies this`threshold, this`averages
      ensures View() == WithSetting(old(View()), kind, setting)
    {
      if kind == Threshold { threshold := setting; } else { averages := setting; }
    }

    /** Nothing to forward: a pending write of this kind has read back already. */
    method SettingUnchanged(kind: Kind, who: Option<Captured>, value: int)
      requires Valid() && main == Deciding(kind, who, value) && value == SettingOf(View(), kind).last
      modifies this
      ensures Took(Decide) && main == AfterKind(kind, who)
      ensures if old(&& who.Some? && active.Some? && active.value.id == who.value.id && who.value.name == NameOf(kind)
                     && active.value.verification == PendingWrite)
              then active == None && audit == old(audit).(state := Succeeded) else NotTold()
      ensures server == old(server) && threshold == old(threshold) && averages == old(averages)
    {
      if && who.Some? && active.Some? && active.value.id == who.value.id && who.value.name == NameOf(kind)
         && active.value.verification == PendingWrite
      {
        FinishCommand(who.value.id, Succeeded, false, seen);
      }
      main := AfterKind(kind, who);
      Take(Decide);
    }

    /** A value out of range is taken back, and the pass raises. */
    method SettingTakenBack(kind: Kind, who: Option<Captured>, value: int)
      requires Valid() && main == Deciding(kind, who, value)
      requires value != SettingOf(View(), kind).last && !InRange(kind, value)
      modifies this
      ensures Took(Decide) && main == Raising && OnlyTouched(kind) && NotTold()
      ensures var last := old(SettingOf(View(), kind).last); SettingOf(View(), kind) == Setting(last, last)
    {
      var setting := if kind == Threshold then threshold else averages;
      SetNode(kind, Setting(setting.last, setting.last));
      main := Raising;
      Take(Decide);
    }

    /** One in range is sent. */
    method SettingSent(kind: Kind, who: Option<Captured>, value: int)
      requires Valid() && main == Deciding(kind, who, value)
      requires value != SettingOf(View(), kind).last && InRange(kind, value)
      modifies this
      ensures Took(Decide) && main == Sent(kind, who, value) && NotTold()
      ensures server == old(server) && threshold == old(threshold) && averages == old(averages)
    {
      ghost var entry := if Belongs(View(), kind, value) then RequestEntry(active.value.id) else StrayEntry(kind, value);
      past := past.(log := past.log + [entry]);
      main := Sent(kind, who, value);
      Take(Decide);
    }

    /** The engine's answer, or none: the pass goes on, raises, or has a command to
        tell. */
    method SettingAnswered(kind: Kind, who: Option<Captured>, value: int, answer: Answer)
      requires Valid() && main == Sent(kind, who, value)
      modifies this
      ensures Took(Answered(answer)) && OnlyTouched(kind) && NotTold()
      ensures var now := if answer == Lost then old(SettingOf(View(), kind).last) else value;
              SettingOf(View(), kind) == Setting(now, now)
      ensures main == if answer == Lost then Raising else if Stale(kind, who) then AfterKind(kind, who)
                      else if answer == Refused then Raising else Handed(kind, who, value)
    {
      ApplyAnswer(kind, who, value, answer);
      Take(Answered(answer));
    }

    method ApplyAnswer(kind: Kind, who: Option<Captured>, value: int, answer: Answer)
      requires main == Sent(kind, who, value)
      modifies this`threshold, this`averages, this`main, this`past
      ensures View() == AnsweredNext(old(View()), kind, who, value, answer)
    {
      if answer == Lost {
        var setting := if kind == Threshold then threshold else averages;
        SetNode(kind, Setting(setting.last, setting.last));
        main := Raising;
      } else {
        SetNode(kind, Setting(value, value));
        past := Compared(View(), kind).past;
        main := if who.None? || who.value.name != NameOf(kind) then AfterKind(kind, who)
                else if answer == Refused then Raising
                else Handed(kind, who, value);
      }
    }

    /** The command looked up is told to be running; false, and the pass raises, when
        its reservation was lost. */
    method SettingTold(kind: Kind, who: Captured, value: int, mono: int, timeout: int) returns (on: bool)
      requires Valid() && main == Handed(kind, Some(who), value)
      modifies this
      ensures Took(Tell(mono, timeout)) && on == Holds(old(View()), who.id)
      ensures if on
              then && old(active).Some? && audit == old(audit).(state := Running)
                   && Waits(old(active.value), active, VerificationOf(NameOf(kind)), value, OperationIdle, mono, timeout)
              else NotTold()
      ensures main == if on then AfterKind(kind, Some(who)) else Raising
      ensures server == old(server) && threshold == old(threshold) && averages == old(averages)
    {
      on := SetCommandRunning(who.id, VerificationOf(NameOf(kind)), value, OperationIdle, mono, timeout);
      main := if on then AfterKind(kind, Some(who)) else Raising;
      Take(Tell(mono, timeout));
    }

    /** What a pass that raised comes to: it fails the write that is pending by now. */
    method FailPending()
      requires Valid() && main == Raising
      modifies this
      ensures Took(Rise) && main == Resting
      ensures server == old(server) && threshold == old(threshold) && averages == old(averages)
      ensures if old(active.Some? && active.value.verification == PendingWrite)
              then active == None && audit == old(audit).(state := Failed) else NotTold()
    {
      main := Resting;
      if active.Some? && active.value.verification == PendingWrite {
        FinishCommand(active.value.id, Failed, false, seen);
      }
      Take(Rise);
    }

    /** One setting's part of a pass, when nothing falls between its steps: true when
        the pass goes on. */
    method ForwardSetting(kind: Kind, who: Option<Captured>, answer: Answer, mono: int, timeout: int) returns (on: bool)
      requires Valid() && main == Reading(kind, who)
      modifies this
      ensures Valid() && old(states) <= states && OnlyTouched(kind)
      ensures main == if on then AfterKind(kind, who) else Raising
      ensures steps == old(steps) + ForwardSteps(old(SettingOf(View(), kind)), kind, who, answer, mono, timeout)
      ensures SettingOf(View(), kind).node == SettingOf(View(), kind).last
      ensures Handled(kind, who, answer, mono, timeout, on)
    {
      var value := ReadSetting(kind, who);
      on := DealWith(kind, who, value, answer, mono, timeout);
    }

    method DealWith(kind: Kind, who: Option<Captured>, value: int, answer: Answer, mono: int, timeout: int) returns (on: bool)
      requires Valid() && main == Deciding(kind, who, value) && SettingOf(View(), kind).node == value
      modifies this
      ensures Valid() && old(states) <= states && OnlyTouched(kind)
      ensures main == if on then AfterKind(kind, who) else Raising
      ensures [Read] + steps[|old(steps)|..] == ForwardSteps(old(SettingOf(View(), kind)), kind, who, answer, mono, timeout)
      ensures old(steps) <= steps
      ensures SettingOf(View(), kind).node == SettingOf(View(), kind).last
      ensures Handled(kind, who, answer, mono, timeout, on)
    {
      var last := if kind == Threshold then threshold.last else averages.last;
      if value == last {
        SettingUnchanged(kind, who, value);
        on := true;
      } else if !InRange(kind, value) {
        SettingTakenBack(kind, who, value);
        on := false;
      } else {
        on := SendAndHandOver(kind, who, value, answer, mono, timeout);
      }
    }

    method SendAndHandOver(kind: Kind, who: Option<Captured>, value: int, answer: Answer, mono: int, timeout: int)
        returns (on: bool)
      requires Valid() && main == Deciding(kind, who, value) && SettingOf(View(), kind).node == value
      requires SettingOf(View(), kind).last != value && InRange(kind, value)
      modifies this
      ensures Valid() && old(states) <= states && OnlyTouched(kind)
      ensures main == if on then AfterKind(kind, who) else Raising
      ensures steps == old(steps) + [Decide] + HandOverSteps(kind, who, answer, mono, timeout)
      ensures SettingOf(View(), kind).node == SettingOf(View(), kind).last
      ensures Handled(kind, who, answer, mono, timeout, on)
    {
      SettingSent(kind, who, value);
      on := HandOver(kind, who, value, answer, mono, timeout);
    }

    method HandOver(kind: Kind, who: Option<Captured>, value: int, answer: Answer, mono: int, timeout: int) returns (on: bool)
      requires Valid() && main == Sent(kind, who, value)
      modifies this
      ensures Valid() && old(states) <= states && OnlyTouched(kind)
      ensures main == if on then AfterKind(kind, who) else Raising
      ensures steps == old(steps) + HandOverSteps(kind, who, answer, mono, timeout)
      ensures SettingOf(View(), kind).node == SettingOf(View(), kind).last
      ensures old(SettingOf(View(), kind)).node == value && old(SettingOf(View(), kind)).last != value && Fits(kind, value) ==>
                Handled(kind, who, answer, mono, timeout, on)
    {
      SettingAnswered(kind, who, value, answer);
      on := answer != Lost && (answer != Refused || Stale(kind, who));
      if on && who.Some? && who.value.name == NameOf(kind) {
        on := SettingTold(kind, who.value, value, mono, timeout);
      }
    }

    /** Looks up the active command, then forwards both settings; when forwarding
        the threshold raised, the averages wait for the next pass. */
    method ForwardConfigurationWrites(thresholdAnswer: Answer, averagesAnswer: Answer, mono: int, timeout: int)
        returns (completed: bool)
      requires Valid() && main == Resting
      modifies this
      ensures Valid() && main == Resting && old(states) <= states && server == old(server)
      ensures threshold.node == threshold.last && (completed ==> averages.node == averages.last)
      ensures var who := LookedUp(old(View()));
              var first := ForwardSteps(old(threshold), Threshold, who, thresholdAnswer, mono, timeout);
              var second := ForwardSteps(old(averages), Averages, who, averagesAnswer, mono, timeout);
              || (completed && steps == old(steps) + [Capture] + first + second)
              || (!completed && steps == old(steps) + [Capture] + first + second + [Rise])
              || (!completed && steps == old(steps) + [Capture] + first + [Rise] && averages == old(averages))
      ensures Passes(LookedUp(old(View())), thresholdAnswer, averagesAnswer, mono, timeout, old(Fields()), Fields(), completed)
    {
      var who := LookUp();
      completed := ForwardAndRest(who, thresholdAnswer, averagesAnswer, mono, timeout);
    }

    method ForwardAndRest(who: Option<Captured>, thresholdAnswer: Answer, averagesAnswer: Answer, mono: int, timeout: int)
        returns (completed: bool)
      requires Valid() && main == Reading(Threshold, who)
      modifies this
      ensures Valid() && main == Resting && old(states) <= states && server == old(server)
      ensures threshold.node == threshold.last && (completed ==> averages.node == averages.last)
      ensures var first := ForwardSteps(old(threshold), Threshold, who, thresholdAnswer, mono, timeout);
              var second := ForwardSteps(old(averages), Averages, who, averagesAnswer, mono, timeout);
              || (completed && steps == old(steps) + first + second)
              || (!completed && steps == old(steps) + first + second + [Rise])
              || (!completed && steps == old(steps) + first + [Rise] && averages == old(averages))
      ensures Passes(who, thresholdAnswer, averagesAnswer, mono, timeout, old(Fields()), Fields(), completed)
    {
      completed := ForwardBoth(who, thresholdAnswer, averagesAnswer, mono, timeout);
      ghost var mid := Fields();
      if !completed { FailPending(); }
      assert if completed then Fields() == mid else Raised(mid, Fields());
    }

    method ForwardBoth(who: Option<Captured>, thresholdAnswer: Answer, averagesAnswer: Answer, mono: int, timeout: int)
        returns (completed: bool)
      requires Valid() && main == Reading(Threshold, who)
      modifies this
      ensures Valid() && old(states) <= states && server == old(server)
      ensures main == if completed then Resting else Raising
      ensures threshold.node == threshold.last && (completed ==> averages.node == averages.last)
      ensures var first := ForwardSteps(old(threshold), Threshold, who, thresholdAnswer, mono, timeout);
              var second := ForwardSteps(old(averages), Averages, who, averagesAnswer, mono, timeout);
              || steps == old(steps) + first + second
              || (!completed && steps == old(steps) + first && averages == old(averages))
      ensures Forwards(who, thresholdAnswer, averagesAnswer, mono, timeout, old(Fields()), Fields(), completed)
    {
      completed := ForwardSetting(Threshold, who, thresholdAnswer, mono, timeout);
      ghost var g := Handling(threshold, active, audit, completed);
      assert Handles(Threshold, who, thresholdAnswer, mono, timeout, old(Handling(threshold, active, audit, true)), g);
      if completed {
        completed := ForwardSetting(Averages, who, averagesAnswer, mono, timeout);
      }
    }

    /** What a pass does about one setting: only a changed value in range is sent. */
    static function ForwardSteps(setting: Setting, kind: Kind, who: Option<Captured>, answer: Answer, mono: int, timeout: int)
        : seq<Step> {
      [Read, Decide]
      + if setting.node != setting.last && InRange(kind, setting.node)
        then HandOverSteps(kind, who, answer, mono, timeout) else []
    }

    /** Only a command of that name is told, and only of an agreement. */
    static function HandOverSteps(kind: Kind, who: Option<Captured>, answer: Answer, mono: int, timeout: int): seq<Step> {
      [Answered(answer)] + if answer == Agreed && !Stale(kind, who) then [Tell(mono, timeout)] else []
    }

    /** A new measurement; only a good one counts as fresh. */
    method ApplyMeasurement(snapshot: Snapshot, at: int)
      requires Valid() && Enabled(View(), Measure(snapshot, at))
      modifies this
      ensures Took(Measure(snapshot, at))
      ensures seen.snapshot == Some(snapshot)
      ensures (seen.goodSequence, seen.goodAt) == if snapshot.good then (snapshot.sequence, Some(at))
                                                  else old((seen.goodSequence, seen.goodAt))
    {
      seen := seen.(snapshot := Some(snapshot));
      if snapshot.good {
        seen := seen.(goodSequence := snapshot.sequence, goodAt := Some(at));
      }
      Take(Measure(snapshot, at));
    }

    /** The collectors found this process and this clock. */
    method ApplyServices(pid: int, clock: Option<int>)
      requires Valid() && Enabled(View(), Look(pid, clock))
      modifies this
      ensures Took(Look(pid, clock)) && seen == old(seen).(pid := pid, clock := clock)
    {
      seen := seen.(pid := pid, clock := clock);
      Take(Look(pid, clock));
    }

    /** Time passes, and the executable on disk may change, whatever both threads do. */
    method TimePasses(now: int, hash: string)
      requires Valid()
      modifies this
      ensures Took(Tick(now, hash)) && seen == old(seen).(now := now, hash := hash)
    {
      seen := seen.(now := now, hash := hash);
      Take(Tick(now, hash));
    }

    ghost predicate Leaves(ending: Option<Ending>)
      reads this
    {
      match ending
      case None => !main.Concluding?
      case Some(e) => main.Concluding? && main == Concluding(e.id, e.outcome, e.lock, main.evidence)
    }

    /** A verified command: its operation is recorded before the command is finished. */
    method Achieved() returns (ending: Option<Ending>)
      requires active.Some? && main == Resting
      modifies this`active, this`audit, this`calibration, this`locked, this`disk, this`past, this`main
      ensures View() == Achieve(old(View()), old(active.value)) && Leaves(ending)
    {
      var command := active.value;
      ending := None;
      match command.verification {
        case AwaitCalibration =>
          SetCalibrationOperation(Completed, Verified);
          main := Concluding(command.id, Succeeded, false, seen);
          ending := Some(Ending(command.id, Succeeded, false));
        case AwaitTimeoutRestore =>
          SetCalibrationOperation(OperationFailed, Verified);
          main := Concluding(command.id, TimedOut, false, seen);
          ending := Some(Ending(command.id, TimedOut, false));
        case AwaitRestore =>
          locked := false;
          SetCalibrationOperation(command.terminal, Verified);
          main := Concluding(command.id, Succeeded, false, seen);
          ending := Some(Ending(command.id, Succeeded, false));
        case _ =>
          FinishCommand(command.id, Succeeded, false, seen);
      }
    }

    /** A calibration past its deadline asks once for normal acquisition. */
    method RestoreAutomatically(mono: int, restoreTimeout: int)
      requires active.Some? && active.value.verification == AwaitCalibration && !active.value.restoreAttempted
      modifies this`active, this`calibration, this`disk, this`past
      ensures View() == Expire(old(View()), old(active.value), mono, true, restoreTimeout)
    {
      var command := active.value;
      past := past.(log := past.log + [RequestEntry(command.id)]);
      active := Some(command.(restoreAttempted := true, verification := AwaitTimeoutRestore,
                              startSequence := seen.goodSequence, startPid := seen.pid, deadline := mono + restoreTimeout));
      SetCalibrationOperation(Restoring, Commanded);
    }

    /** A command that stays unverified past its deadline. */
    method TimeOut(mono: int, restoreOk: bool, restoreTimeout: int) returns (ending: Option<Ending>)
      requires active.Some? && main == Resting
      requires active.value.verification == AwaitCalibration && !active.value.restoreAttempted ==> !restoreOk
      modifies this`active, this`audit, this`calibration, this`locked, this`disk, this`past, this`main
      ensures View() == Expire(old(View()), old(active.value), mono, restoreOk, restoreTimeout) && Leaves(ending)
    {
      var command := active.value;
      ending := None;
      if command.verification == AwaitCalibration && !command.restoreAttempted {
        past := past.(log := past.log + [RequestEntry(command.id)]);
      }
      if command.verification in {AwaitCalibration, AwaitTimeoutRestore, AwaitRestore} {
        SetCalibrationOperation(OperationFailed, RestorationFailed);
        main := Concluding(command.id, TimedOut, true, seen);
        ending := Some(Ending(command.id, TimedOut, true));
      } else {
        FinishCommand(command.id, TimedOut, command.verification == AwaitRestart, seen);
      }
    }

    method TakeAdvance(mono: int, adcOk: bool, restoreOk: bool, restoreTimeout: int) returns (ending: Option<Ending>)
      requires Valid() && Enabled(View(), Advance(mono, adcOk, restoreOk, restoreTimeout))
      modifies this
      ensures Took(Advance(mono, adcOk, restoreOk, restoreTimeout)) && Leaves(ending)
    {
      ending := ApplyAdvance(mono, adcOk, restoreOk, restoreTimeout);
      Take(Advance(mono, adcOk, restoreOk, restoreTimeout));
    }

    method ApplyAdvance(mono: int, adcOk: bool, restoreOk: bool, restoreTimeout: int) returns (ending: Option<Ending>)
      requires main == Resting
      modifies this`active, this`audit, this`calibration, this`locked, this`disk, this`past, this`main
      ensures View() == AdvanceNext(old(View()), mono, adcOk, restoreOk, restoreTimeout) && Leaves(ending)
    {
      ending := None;
      if active.None? || active.value.verification in {Dispatching, PendingWrite} { return; }
      var command := active.value;
      if command.verification == AwaitLatch && LatchVerified(command, seen) {
        FinishCommand(command.id, Succeeded, false, seen);
      } else if NormalModeVerified(command, seen) && ReadBack(command, seen, adcOk) {
        ending := Achieved();
      } else if mono >= command.deadline {
        if command.verification == AwaitCalibration && !command.restoreAttempted && restoreOk {
          RestoreAutomatically(mono, restoreTimeout);
        } else {
          ending := TimeOut(mono, restoreOk, restoreTimeout);
        }
      }
    }

    /** One look at the active command: afterwards nothing is left half recorded. */
    method AdvanceActiveCommand(mono: int, adcOk: bool, restoreOk: bool, restoreTimeout: int)
      requires Valid() && main == Resting && !server.Superseding?
      modifies this
      ensures Valid() && main == Resting && old(states) <= states
      ensures var advance := Advance(mono, adcOk, restoreOk, restoreTimeout);
              steps == old(steps) + if Next(old(View()), advance).main.Concluding? then [advance, Conclude] else [advance]
      ensures LookOutcome(old(View()), View(), mono, adcOk, restoreOk, restoreTimeout)
    {
      LookIsDecided(states, steps, mono, adcOk, restoreOk, restoreTimeout);
      var ending := TakeAdvance(mono, adcOk, restoreOk, restoreTimeout);
      if ending.Some? {
        ConcludeCommand(ending.value);
      }
    }

    method ConcludeCommand(ending: Ending)
      requires Valid() && Leaves(Some(ending))
      modifies this
      ensures Took(Conclude) && main == Resting
    {
      FinishCommand(ending.id, ending.outcome, ending.lock, main.evidence);
      main := Resting;
      Take(Conclude);
    }

    method StartAnew(thresholdOhm: int, averagesPer: int)
      modifies this`active, this`audit, this`calibration, this`locked, this`disk, this`past, this`main, this`server
      modifies this`threshold, this`averages, this`seen
      ensures View() == Restarted(old(View()), thresholdOhm, averagesPer)
      ensures threshold == Setting(thresholdOhm, thresholdOhm) && averages == Setting(averagesPer, averagesPer)
      ensures active == None && (audit, calibration, locked, disk) == Restored(old(disk))
    {
      ghost var before := View();
      RestoreCommandState();
      active := None;
      threshold := Setting(thresholdOhm, thresholdOhm);
      averages := Setting(averagesPer, averagesPer);
      seen := NOTHING_SEEN.(now := seen.now, hash := seen.hash);
      server := Listening;
      main := Resting;
      past := Restarted(before, thresholdOhm, averagesPer).past;
    }

    /** A crash, or a stop, and a new start from the file that is there. */
    method Restart(thresholdOhm: int, averagesPer: int)
      requires Valid()
      modifies this
      ensures Took(Step.Restart(thresholdOhm, averagesPer))
      ensures active == None && (audit, calibration, locked, disk) == Restored(old(disk))
      ensures threshold == Setting(thresholdOhm, thresholdOhm) && averages == Setting(averagesPer, averagesPer)
    {
      StartAnew(thresholdOhm, averagesPer);
      Take(Step.Restart(thresholdOhm, averagesPer));
    }
  }
}
