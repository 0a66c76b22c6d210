/** Values on a node that no active command answers for: where they come from, and
    what becomes of them. */
module CommandStrays {
  import opened Wrappers
  import opened CommandState
  import opened CommandInvariant
  import opened CommandSafety

  // ------------------------------------------------------------- every value owned

  /** The active write asked for this value and has not been told to be running. */
  predicate Answers(s: State, kind: Kind, value: int) {
    Belongs(s, kind, value) && s.active.value.verification in {Dispatching, PendingWrite}
  }

  /** A value that the engine was not handed yet is the active write's. */
  predicate NodeOwned(s: State, kind: Kind) {
    SettingOf(s, kind).node != SettingOf(s, kind).last ==> Answers(s, kind, SettingOf(s, kind).node)
  }

  /** Both settings are what the engine was last handed. */
  predicate AllHanded(s: State) {
    s.threshold.node == s.threshold.last && s.averages.node == s.averages.last
  }

  predicate HandOwned(s: State) {
    match s.main
    case Deciding(kind, _, value) =>
      value != SettingOf(s, kind).last ==> value == SettingOf(s, kind).node
    case Sent(kind, _, value) => value == SettingOf(s, kind).node != SettingOf(s, kind).last
    case Handed(kind, who, value) => AllHanded(s) && Answers(s, kind, value)
    case Raising => AllHanded(s) && s.past.asked.Some?
    case _ => true
  }

  /** Nothing on the nodes and nothing in the main loop's hands is without an owner,
      and a write waits for the value it asked for. */
  predicate Clean(s: State) {
    && NodeOwned(s, Threshold) && NodeOwned(s, Averages) && HandOwned(s)
    && (s.server.Writing? ==> Dispatches(s, s.server.id))
    && (s.active.Some? && IsWrite(s.active.value.name) && s.active.value.verification !in {Dispatching, PendingWrite} ==>
          s.past.asked == Some(s.active.value.expectedValue))
  }

  /** The pass read the node before the write landed, found nothing new, and sees
      the mark now: it records a success and leaves the value behind. */
  predicate Overtaken(s: State, step: Step) {
    && step.Decide? && s.main.Deciding?
    && s.main.value == SettingOf(s, s.main.kind).last != SettingOf(s, s.main.kind).node
    && SeesPending(s, s.main.kind, s.main.who)
  }

  lemma FirstClean(s: State)
    requires Initial(s)
    ensures Clean(s)
  {}

  lemma BeginKeepsClean(s: State, name: Name, role: Role, gate: GateMode, mono: int, timeout: int)
    requires CoreOk(s) && Clean(s) && s.server.Listening? && !s.main.Concluding?
    ensures Clean(BeginNext(s, name, role, gate, mono, timeout))
  {}

  lemma WriteKeepsClean(s: State, ok: bool, value: int)
    requires CoreOk(s) && Clean(s) && s.server.Writing?
    ensures Clean(WriteNext(s, ok, value))
  {}

  lemma AccessKeepsClean(s: State, step: Step)
    requires CoreOk(s) && Clean(s) && Enabled(s, step) && IsAccess(step)
    ensures Clean(Next(s, step))
  {
    if step.Begin? { BeginKeepsClean(s, step.name, step.role, step.gate, step.mono, step.timeout); }
    else if step.WriteNode? { WriteKeepsClean(s, step.ok, step.value); }
  }

  lemma CallbackKeepsClean(s: State, step: Step)
    requires CoreOk(s) && Clean(s) && Enabled(s, step) && IsServerStep(step) && !IsAccess(step)
    ensures Clean(Next(s, step))
  {}

  lemma DecideKeepsClean(s: State, kind: Kind, who: Option<Captured>, value: int)
    requires CoreOk(s) && Clean(s) && s.main == Deciding(kind, who, value) && !Overtaken(s, Decide)
    ensures Clean(DecideNext(s, kind, who, value))
  {}

  lemma AnsweredKeepsClean(s: State, kind: Kind, who: Option<Captured>, value: int, answer: Answer)
    requires CoreOk(s) && Clean(s) && s.main == Sent(kind, who, value)
    ensures Clean(AnsweredNext(s, kind, who, value, answer))
  {}

  lemma TellKeepsClean(s: State, kind: Kind, who: Option<Captured>, value: int, mono: int, timeout: int)
    requires CoreOk(s) && Clean(s) && s.main == Handed(kind, who, value)
    ensures Clean(TellNext(s, kind, who, value, mono, timeout))
  {}

  lemma PassKeepsClean(s: State, step: Step)
    requires CoreOk(s) && Clean(s) && Enabled(s, step) && IsPassStep(step) && !Overtaken(s, step)
    ensures Clean(Next(s, step))
  {
    if step.Decide? { DecideKeepsClean(s, s.main.kind, s.main.who, s.main.value); }
    else if step.Answered? { AnsweredKeepsClean(s, s.main.kind, s.main.who, s.main.value, step.answer); }
    else if step.Tell? { TellKeepsClean(s, s.main.kind, s.main.who, s.main.value, step.mono, step.timeout); }
  }

  lemma AchieveKeepsClean(s: State)
    requires CoreOk(s) && Clean(s) && s.main.Resting? && s.active.Some?
    requires s.active.value.verification !in {Dispatching, PendingWrite}
    ensures Clean(Achieve(s, s.active.value)) && Clean(Finish(s, s.active.value.id, Succeeded, false))
  {}

  lemma ExpireKeepsClean(s: State, mono: int, restoreOk: bool, restoreTimeout: int)
    requires CoreOk(s) && Clean(s) && s.main.Resting? && s.active.Some?
    requires s.active.value.verification !in {Dispatching, PendingWrite}
    ensures Clean(Expire(s, s.active.value, mono, restoreOk, restoreTimeout))
  {}

  lemma AdvanceKeepsClean(s: State, mono: int, adcOk: bool, restoreOk: bool, restoreTimeout: int)
    requires CoreOk(s) && Clean(s) && s.main.Resting?
    ensures Clean(AdvanceNext(s, mono, adcOk, restoreOk, restoreTimeout))
  {
    if s.active.Some? && s.active.value.verification !in {Dispatching, PendingWrite} {
      AchieveKeepsClean(s);
      ExpireKeepsClean(s, mono, restoreOk, restoreTimeout);
    }
  }

  lemma SenseKeepsClean(s: State, seen: Seen)
    requires Clean(s)
    ensures Clean(s.(seen := seen))
  {}

  lemma ConcludeKeepsClean(s: State)
    requires CoreOk(s) && Clean(s) && s.main.Concluding?
    ensures Clean(FinishOn(s, s.main.id, s.main.outcome, s.main.lock, s.main.evidence).(main := Resting))
  {}

  lemma RestKeepsClean(s: State, step: Step)
    requires CoreOk(s) && Clean(s) && Enabled(s, step) && (IsSense(step) || step.Conclude?)
    ensures Clean(Next(s, step))
  {
    if step.Conclude? { ConcludeKeepsClean(s); } else { SenseKeepsClean(s, Next(s, step).seen); }
  }

  lemma CleanKept(s: State, step: Step)
    requires CoreOk(s) && Clean(s) && Enabled(s, step) && !Overtaken(s, step)
    ensures Clean(Next(s, step))
  {
    if IsAccess(step) { AccessKeepsClean(s, step); }
    else if IsServerStep(step) { CallbackKeepsClean(s, step); }
    else if IsPassStep(step) { PassKeepsClean(s, step); }
    else if step.Advance? { AdvanceKeepsClean(s, step.mono, step.adcOk, step.restoreOk, step.restoreTimeout); }
    else if step.Restart? { RestartCleans(s, step.thresholdOhm, step.averagesPer); }
    else { RestKeepsClean(s, step); }
  }

  /** Starting anew clears both nodes. */
  lemma RestartCleans(s: State, threshold: int, averages: int)
    ensures Clean(Restarted(s, threshold, averages))
  {}

  // -------------------------------------------------------- where they come from

  /** The command is recorded as a success, and its value stays on the node. */
  predicate LeavesValue(s: State, t: State) {
    && s.main.Deciding? && s.active.Some?
    && t.active.None? && t.audit == Audit(s.active.value.id, Succeeded)
    && SettingOf(t, s.main.kind) == SettingOf(s, s.main.kind)
    && SettingOf(t, s.main.kind).node != SettingOf(t, s.main.kind).last
    && !NodeOwned(t, s.main.kind)
  }

  /** An overtaken write is recorded as a success, and its value stays on the node
      with nobody to answer for it. */
  lemma OvertakenLeavesValue(s: State)
    requires CoreOk(s) && Overtaken(s, Decide)
    ensures LeavesValue(s, DecideNext(s, s.main.kind, s.main.who, s.main.value))
    ensures Clean(s) ==> Belongs(s, s.main.kind, SettingOf(s, s.main.kind).node) && s.past.differed
  {}

  ghost predicate NeverOvertaken(states: seq<State>, steps: seq<Step>, i: nat)
    requires |states| == |steps| + 1 && i <= |steps|
  {
    forall k :: 0 <= k < i ==> !Overtaken(states[k], steps[k])
  }

  predicate RestartBetween(steps: seq<Step>, k: nat, i: nat)
    requires i <= |steps|
  {
    exists j :: k < j < i && steps[j].Restart?
  }

  /** Since the last start no success has been overtaken. */
  ghost predicate NotOvertakenSinceStart(states: seq<State>, steps: seq<Step>, i: nat)
    requires |states| == |steps| + 1 && i <= |steps|
  {
    forall k :: 0 <= k < i && Overtaken(states[k], steps[k]) ==> RestartBetween(steps, k, i)
  }

  lemma StartIsRecent(states: seq<State>, steps: seq<Step>, i: nat)
    requires |states| == |steps| + 1 && 0 < i <= |steps| && NotOvertakenSinceStart(states, steps, i)
    ensures !Overtaken(states[i - 1], steps[i - 1])
    ensures steps[i - 1].Restart? || NotOvertakenSinceStart(states, steps, i - 1)
  {
    assert !RestartBetween(steps, i - 1, i);
    if !steps[i - 1].Restart? {
      forall k | 0 <= k < i - 1 && Overtaken(states[k], steps[k])
        ensures RestartBetween(steps, k, i - 1)
      {
        assert RestartBetween(steps, k, i);
      }
    }
  }

  lemma CleanAfterStep(states: seq<State>, steps: seq<Step>, i: nat)
    requires IsRun(states, steps) && 0 < i <= |steps|
    requires steps[i - 1].Restart? || (Clean(states[i - 1]) && !Overtaken(states[i - 1], steps[i - 1]))
    ensures Clean(states[i])
  {
    if steps[i - 1].Restart? {
      RestartCleans(states[i - 1], steps[i - 1].thresholdOhm, steps[i - 1].averagesPer);
    } else {
      EveryStateOk(states, steps, i - 1);
      CleanKept(states[i - 1], steps[i - 1]);
    }
  }

  lemma {:induction false} CleanSinceStart(states: seq<State>, steps: seq<Step>, i: nat)
    requires IsRun(states, steps) && i <= |steps| && NotOvertakenSinceStart(states, steps, i)
    ensures Clean(states[i])
  {
    if i == 0 {
      FirstClean(states[0]);
    } else {
      StartIsRecent(states, steps, i);
      if !steps[i - 1].Restart? { CleanSinceStart(states, steps, i - 1); }
      CleanAfterStep(states, steps, i);
    }
  }

  lemma OvertakenShows(states: seq<State>, steps: seq<Step>, k: nat)
    requires IsRun(states, steps) && k < |steps| && Overtaken(states[k], steps[k])
    ensures !Clean(states[k + 1])
  {
    EveryStateOk(states, steps, k);
    OvertakenLeavesValue(states[k]);
  }

  /** Over any run every value has an owner throughout if and only if no success was
      overtaken. */
  lemma OwnedExactlyWhenNotOvertaken(states: seq<State>, steps: seq<Step>)
    requires IsRun(states, steps)
    ensures (forall i :: 0 <= i <= |steps| ==> Clean(states[i])) <==> NeverOvertaken(states, steps, |steps|)
  {
    if NeverOvertaken(states, steps, |steps|) {
      forall i | 0 <= i <= |steps|
        ensures Clean(states[i])
      {
        CleanSinceStart(states, steps, i);
      }
    } else {
      var k :| 0 <= k < |steps| && Overtaken(states[k], steps[k]);
      OvertakenShows(states, steps, k);
    }
  }

  // ------------------------------------------------------ what is logged until then

  /** Sent for the command that asked for it; and a write that succeeded by its
      readback was read back with the value it asked for. */
  predicate EntryOwn(entry: Entry) {
    && !entry.StrayEntry?
    && (entry.TerminalEntry? && entry.state == Succeeded && IsWrite(entry.ticket.name) && entry.at != PendingWrite ==>
          entry.asked == Some(entry.expected))
  }

  /** At most one entry was added, and it is such a one. */
  predicate AddsOwn(s: State, t: State) {
    t.past.log == s.past.log || (t.past.log != [] && t.past.log == s.past.log + [t.past.log[|t.past.log| - 1]]
                                 && EntryOwn(t.past.log[|t.past.log| - 1]))
  }

  lemma DecideAddsOwn(s: State, kind: Kind, who: Option<Captured>, value: int)
    requires CoreOk(s) && Clean(s) && s.main == Deciding(kind, who, value)
    ensures AddsOwn(s, DecideNext(s, kind, who, value))
  {}

  lemma TellAddsOwn(s: State, kind: Kind, who: Option<Captured>, value: int, mono: int, timeout: int)
    ensures AddsOwn(s, TellNext(s, kind, who, value, mono, timeout))
  {}

  lemma PassAddsOwn(s: State, step: Step)
    requires CoreOk(s) && Clean(s) && Enabled(s, step) && IsPassStep(step)
    ensures AddsOwn(s, Next(s, step))
  {
    if step.Decide? { DecideAddsOwn(s, s.main.kind, s.main.who, s.main.value); }
    else if step.Tell? { TellAddsOwn(s, s.main.kind, s.main.who, s.main.value, step.mono, step.timeout); }
  }

  lemma ServerAddsOwn(s: State, step: Step)
    requires CoreOk(s) && Enabled(s, step) && IsServerStep(step)
    ensures AddsOwn(s, Next(s, step))
  {
    if IsAccess(step) { AccessAddsOwn(s, step); } else { CallbackAddsOwn(s, step); }
  }

  lemma AccessAddsOwn(s: State, step: Step)
    requires CoreOk(s) && Enabled(s, step) && IsAccess(step)
    ensures AddsOwn(s, Next(s, step))
  {}

  lemma CallbackAddsOwn(s: State, step: Step)
    requires CoreOk(s) && Enabled(s, step) && IsServerStep(step) && !IsAccess(step)
    ensures AddsOwn(s, Next(s, step))
  {}

  lemma RestAddsOwn(s: State, step: Step)
    requires CoreOk(s) && Enabled(s, step) && (IsSense(step) || step.Conclude? || step.Restart?)
    ensures AddsOwn(s, Next(s, step))
  {
    if step.Conclude? { ConcludeAddsOwn(s); }
  }

  lemma ConcludeAddsOwn(s: State)
    requires CoreOk(s) && s.main.Concluding?
    ensures AddsOwn(s, FinishOn(s, s.main.id, s.main.outcome, s.main.lock, s.main.evidence).(main := Resting))
  {}

  lemma AdvanceAddsOwn(s: State, mono: int, adcOk: bool, restoreOk: bool, restoreTimeout: int)
    requires CoreOk(s) && Clean(s) && s.main.Resting?
    ensures AddsOwn(s, AdvanceNext(s, mono, adcOk, restoreOk, restoreTimeout))
  {
    if s.active.Some? && s.active.value.verification !in {Dispatching, PendingWrite} {
      AchieveAddsOwn(s);
      ExpireAddsOwn(s, mono, restoreOk, restoreTimeout);
    }
  }

  lemma AchieveAddsOwn(s: State)
    requires CoreOk(s) && Clean(s) && s.active.Some? && s.active.value.verification !in {Dispatching, PendingWrite}
    ensures AddsOwn(s, Achieve(s, s.active.value)) && AddsOwn(s, Finish(s, s.active.value.id, Succeeded, false))
  {}

  lemma ExpireAddsOwn(s: State, mono: int, restoreOk: bool, restoreTimeout: int)
    requires CoreOk(s) && s.active.Some?
    ensures AddsOwn(s, Expire(s, s.active.value, mono, restoreOk, restoreTimeout))
  {}

  lemma StepAddsOwn(s: State, step: Step)
    requires CoreOk(s) && Clean(s) && Enabled(s, step)
    ensures AddsOwn(s, Next(s, step))
  {
    if IsPassStep(step) { PassAddsOwn(s, step); }
    else if IsServerStep(step) { ServerAddsOwn(s, step); }
    else if step.Advance? { AdvanceAddsOwn(s, step.mono, step.adcOk, step.restoreOk, step.restoreTimeout); }
    else { RestAddsOwn(s, step); }
  }

  /** Until a success is overtaken, everything sent was asked for by the command it
      was sent for, and a write that succeeds by its readback was shown, by a record
      newer than the request, with the value it asked for. */
  lemma ChangedWriteWasReadBack(states: seq<State>, steps: seq<Step>, i: nat, entry: Entry)
    requires IsRun(states, steps) && i < |steps| && NotOvertakenSinceStart(states, steps, i)
    requires states[i + 1].past.log == states[i].past.log + [entry]
    ensures !entry.StrayEntry?
    ensures entry.TerminalEntry? && entry.state == Succeeded && IsWrite(entry.ticket.name) && entry.at != PendingWrite ==>
              && entry.asked.Some?
              && Proven(entry.ticket, entry.seen)
              && NewRecord(entry.ticket, entry.seen.snapshot)
              && Shows(entry.seen.snapshot, KindOf(entry.ticket.name), entry.asked.value)
  {
    CleanSinceStart(states, steps, i);
    EveryStateOk(states, steps, i);
    StepAddsOwn(states[i], steps[i]);
    EveryStateOk(states, steps, i + 1);
    LastEntryOk(states[i], states[i + 1], entry);
  }

  lemma LastEntryOk(s: State, t: State, entry: Entry)
    requires AddsOwn(s, t) && EvidenceOk(t) && t.past.log == s.past.log + [entry]
    ensures EntryOwn(entry) && EntryOk(entry)
  {
    assert t.past.log[|s.past.log|] == entry;
  }

  // ----------------------------------------------------------- what becomes of them

  /** The pass has read a value that the engine does not have and that the active
      command, if any, did not ask for. */
  predicate HoldsStray(s: State, kind: Kind, who: Option<Captured>, value: int) {
    && s.main == Deciding(kind, who, value)
    && value != SettingOf(s, kind).last && !Belongs(s, kind, value)
  }

  /** No command's record changes. */
  predicate NoCommandTold(s: State, t: State) {
    && t.active == s.active && t.audit == s.audit && t.calibration == s.calibration && t.locked == s.locked
    && t.disk == s.disk && t.server == s.server
  }

  /** A fit one is sent all the same, an unfit one is taken back. */
  lemma StrayIsSent(s: State, kind: Kind, who: Option<Captured>, value: int)
    requires HoldsStray(s, kind, who, value)
    ensures var t := Next(s, Decide);
            && NoCommandTold(s, t)
            && (if InRange(kind, value)
                then t.main == Sent(kind, who, value) && t.past.log == s.past.log + [StrayEntry(kind, value)]
                     && SettingOf(t, kind) == SettingOf(s, kind)
                else t.main == Raising && t.past.log == s.past.log
                     && SettingOf(t, kind).node == SettingOf(t, kind).last == SettingOf(s, kind).last)
  {}

  /** With an answer, even a refusal, it counts as the engine's value from now on. */
  lemma StrayIsHanded(s: State, kind: Kind, who: Option<Captured>, value: int, answer: Answer)
    requires s.main == Sent(kind, who, value) && answer != Lost
    ensures var t := Next(s, Answered(answer));
            && NoCommandTold(s, t) && t.past.log == s.past.log
            && SettingOf(t, kind).node == SettingOf(t, kind).last == value
            && (Stale(kind, who) ==> t.main == AfterKind(kind, who))
  {}

  /** A later write of that name, if the pass has looked it up, is told to be running
      and to wait for a value it did not ask for. */
  lemma StrayIsTold(s: State, kind: Kind, who: Option<Captured>, value: int, mono: int, timeout: int)
    requires Reachable(s) && s.main == Handed(kind, who, value) && who.Some? && Holds(s, who.value.id)
    ensures var t := Next(s, Tell(mono, timeout));
            && t.active.Some? && t.active.value.id == who.value.id && t.active.value.name == NameOf(kind)
            && t.active.value.verification == VerificationOf(NameOf(kind)) && t.audit == Audit(who.value.id, Running)
            && t.active.value.expectedValue == value && t.past.asked == s.past.asked
  {
    ReachableOk(s);
  }
}
