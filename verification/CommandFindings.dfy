/** Where the command gate falls short of what its messages say, and exactly when. */
module CommandFindings {
  import opened Wrappers
  import opened CommandState
  import opened CommandInvariant
  import opened CommandSafety
  import opened CommandStrays

  /** The state after some steps that are all possible in turn. */
  ghost predicate Leads(s: State, steps: seq<Step>, t: State)
    decreases |steps|
  {
    if steps == [] then s == t
    else Enabled(s, steps[0]) && Leads(Next(s, steps[0]), steps[1..], t)
  }

  ghost predicate CanReach(s: State, t: State) {
    exists steps :: Leads(s, steps, t)
  }

  lemma CanStay(s: State)
    ensures CanReach(s, s)
  {
    assert Leads(s, [], s);
  }

  lemma CanStep(s: State, step: Step, t: State)
    requires Enabled(s, step) && CanReach(Next(s, step), t)
    ensures CanReach(s, t)
  {
    var rest :| Leads(Next(s, step), rest, t);
    assert ([step] + rest)[1..] == rest;
    assert Leads(s, [step] + rest, t);
  }

  // ------------------------------------------------------- a success by a pass

  /** The pass records the command's success next; no engine record is looked at. */
  predicate PassSucceeds(s: State, id: int) {
    && s.main.Deciding? && Holds(s, id)
    && Next(s, Decide).active.None? && Next(s, Decide).audit == Audit(id, Succeeded)
  }

  /** From here some steps lead to such a success. */
  ghost predicate CanSucceedUnread(s: State, id: int) {
    exists t :: CanReach(s, t) && PassSucceeds(t, id)
  }

  lemma UnreadNow(s: State, id: int)
    requires PassSucceeds(s, id)
    ensures CanSucceedUnread(s, id)
  {
    CanStay(s);
  }

  lemma UnreadLater(s: State, step: Step, id: int)
    requires Enabled(s, step) && CanSucceedUnread(Next(s, step), id)
    ensures CanSucceedUnread(s, id)
  {
    var t :| CanReach(Next(s, step), t) && PassSucceeds(t, id);
    CanStep(s, step, t);
  }

  // --------------------------------------------------------- when it can happen

  /** With the main loop at rest: the next pass comes to the write's setting without
      raising and finds nothing to hand over there. */
  predicate SettledAtRest(kind: Kind, threshold: Setting, averages: Setting) {
    if kind == Threshold then threshold.node == threshold.last
    else (threshold.node == threshold.last || InRange(Threshold, threshold.node)) && averages.node == averages.last
  }

  /** With `value` read from the averages: it is handed over already and this is the
      write's own pass, or it is settled at rest; or it is fit and no command of that
      name was looked up, and it is settled at rest after that. */
  predicate SettledFromAverages(kind: Kind, who: Option<Captured>, own: bool, threshold: Setting, averages: Setting, value: int) {
    if value == averages.last then (kind == Averages && own) || SettledAtRest(kind, threshold, averages)
    else InRange(Averages, value) && Stale(Averages, who) && SettledAtRest(kind, threshold, Setting(value, value))
  }

  /** The same with `value` read from the threshold. */
  predicate SettledFromThreshold(kind: Kind, who: Option<Captured>, own: bool, threshold: Setting, averages: Setting, value: int) {
    if value == threshold.last
    then (kind == Threshold && own) || SettledFromAverages(kind, who, own, threshold, averages, averages.node)
    else && InRange(Threshold, value) && Stale(Threshold, who)
         && SettledFromAverages(kind, who, own, Setting(value, value), averages, averages.node)
  }

  predicate SettledFrom(s: State, kind: Kind, who: Option<Captured>, at: Kind, value: int) {
    if at == Threshold then SettledFromThreshold(kind, who, who == LookedUp(s), s.threshold, s.averages, value)
    else SettledFromAverages(kind, who, who == LookedUp(s), s.threshold, s.averages, value)
  }

  /** A marked write may yet be settled without its readback. */
  predicate MaySettle(s: State, kind: Kind) {
    match s.main
    case Resting => SettledAtRest(kind, s.threshold, s.averages)
    case Reading(at, who) => SettledFrom(s, kind, who, at, SettingOf(s, at).node)
    case Deciding(at, who, value) => SettledFrom(s, kind, who, at, value)
    case Sent(Threshold, who, value) =>
      && Stale(Threshold, who)
      && SettledFromAverages(kind, who, who == LookedUp(s), Setting(value, value), s.averages, s.averages.node)
    case Sent(Averages, who, value) => Stale(Averages, who) && SettledAtRest(kind, s.threshold, Setting(value, value))
    case _ => false
  }

  /** The active write is not marked yet, or may be settled as it stands. */
  predicate Unguarded(s: State) {
    && s.active.Some?
    && (|| s.server.Writing? || s.server.Written?
        || (s.active.value.verification == PendingWrite && MaySettle(s, KindOf(s.active.value.name))))
  }

  // ------------------------------------------------------------ if marked so

  predicate IsMarked(s: State, id: int) {
    IsPending(s, id) && (s.server.Listening? || s.server.Marked?)
  }

  /** How the main loop goes on when the engine agrees. */
  function Onward(main: Main): Step {
    match main
    case Resting => Capture
    case Reading(_, _) => Read
    case Deciding(_, _, _) => Decide
    case Sent(_, _, _) => Answered(Agreed)
    case Handed(_, _, _) => Tell(0, 60)
    case Raising => Rise
    case Concluding(_, _, _, _) => Conclude
  }

  /** A write is settled in its own pass at the latest, so in the one that has begun
      or in the next one. */
  function Ahead(s: State): nat
    requires s.active.Some?
  {
    if s.main.Resting? then 10
    else if s.main.Handed? || !InPass(s.main) then 0
    else if s.main.who == LookedUp(s) && (s.main.kind == Threshold || s.active.value.name == AveragesPerCalculation) then Left(s.main)
    else 20 + Left(s.main)
  }

  predicate GoesOn(s: State, id: int, t: State) {
    s.active.Some? && IsMarked(t, id) && MaySettle(t, KindOf(t.active.value.name)) && Ahead(t) < Ahead(s)
  }

  lemma LookingGoesOn(s: State, id: int)
    requires CoreOk(s) && IsMarked(s, id) && MaySettle(s, KindOf(s.active.value.name))
    requires s.main.Resting? || s.main.Reading?
    ensures GoesOn(s, id, Next(s, Onward(s.main)))
  {}

  lemma DecidingGoesOn(s: State, id: int)
    requires CoreOk(s) && IsMarked(s, id) && MaySettle(s, KindOf(s.active.value.name))
    requires s.main.Deciding? && !PassSucceeds(s, id)
    ensures GoesOn(s, id, DecideNext(s, s.main.kind, s.main.who, s.main.value))
  {}

  lemma SentGoesOn(s: State, id: int)
    requires CoreOk(s) && IsMarked(s, id) && MaySettle(s, KindOf(s.active.value.name))
    requires s.main.Sent?
    ensures GoesOn(s, id, AnsweredNext(s, s.main.kind, s.main.who, s.main.value, Agreed))
  {}

  lemma MarkedGoesOn(s: State, id: int)
    requires CoreOk(s) && IsMarked(s, id) && MaySettle(s, KindOf(s.active.value.name)) && !PassSucceeds(s, id)
    ensures Enabled(s, Onward(s.main)) && GoesOn(s, id, Next(s, Onward(s.main)))
  {
    if s.main.Deciding? { DecidingGoesOn(s, id); }
    else if s.main.Sent? { SentGoesOn(s, id); }
    else { LookingGoesOn(s, id); }
  }

  lemma {:induction false} MarkedCan(s: State, id: int)
    requires CoreOk(s) && IsMarked(s, id) && MaySettle(s, KindOf(s.active.value.name))
    ensures CanSucceedUnread(s, id)
    decreases Ahead(s)
  {
    if PassSucceeds(s, id) {
      UnreadNow(s, id);
    } else {
      MarkedGoesOn(s, id);
      CoreKept(s, Onward(s.main));
      MarkedCan(Next(s, Onward(s.main)), id);
      UnreadLater(s, Onward(s.main), id);
    }
  }

  // ---------------------------------------------------------- if not marked yet

  /** The write is on its node and not marked. */
  predicate IsUnmarked(s: State, id: int) {
    Holds(s, id) && s.server.Written?
  }

  function Dirty(setting: Setting): nat {
    if setting.node == setting.last then 0 else 1
  }

  /** How many settings are still to be handed over once the pass is over that has
      begun, when the engine does not answer. */
  function StillDirty(s: State): nat {
    match s.main
    case Reading(Threshold, _) => if Dirty(s.threshold) == 1 then Dirty(s.averages) else 0
    case Reading(Averages, _) => Dirty(s.threshold)
    case Deciding(Threshold, _, value) => if value == s.threshold.last then Dirty(s.threshold) else Dirty(s.averages)
    case Deciding(Averages, _, value) =>
      Dirty(s.threshold) + if value == s.averages.last then Dirty(s.averages) else 0
    case Sent(Threshold, _, _) => Dirty(s.averages)
    case Sent(Averages, _, _) => Dirty(s.threshold)
    case _ => Dirty(s.threshold) + Dirty(s.averages)
  }

  /** How the main loop goes on when the engine does not answer. */
  function Unanswered(main: Main): Step {
    if main.Sent? then Answered(Lost) else Onward(main)
  }

  predicate Clears(s: State, id: int, t: State) {
    && IsUnmarked(t, id)
    && (StillDirty(t) < StillDirty(s) || (StillDirty(t) == StillDirty(s) && Left(t.main) < Left(s.main)))
  }

  lemma DecidingClears(s: State, id: int)
    requires CoreOk(s) && IsUnmarked(s, id) && s.main.Deciding?
    ensures Clears(s, id, DecideNext(s, s.main.kind, s.main.who, s.main.value))
  {}

  lemma SentClears(s: State, id: int)
    requires CoreOk(s) && IsUnmarked(s, id) && s.main.Sent?
    ensures Clears(s, id, AnsweredNext(s, s.main.kind, s.main.who, s.main.value, Lost))
  {}

  lemma OthersClear(s: State, id: int)
    requires CoreOk(s) && IsUnmarked(s, id) && !(s.main.Resting? && AllHanded(s))
    requires !s.main.Deciding? && !s.main.Sent?
    ensures Enabled(s, Onward(s.main)) && Clears(s, id, Next(s, Onward(s.main)))
  {}

  lemma UnmarkedClears(s: State, id: int)
    requires CoreOk(s) && IsUnmarked(s, id) && !(s.main.Resting? && AllHanded(s))
    ensures Enabled(s, Unanswered(s.main)) && Clears(s, id, Next(s, Unanswered(s.main)))
  {
    if s.main.Deciding? { DecidingClears(s, id); }
    else if s.main.Sent? { SentClears(s, id); }
    else { OthersClear(s, id); }
  }

  /** Once nothing is left to hand over the mark alone is missing. */
  lemma MarkNowSettles(s: State, id: int)
    requires CoreOk(s) && IsUnmarked(s, id) && s.main.Resting? && AllHanded(s)
    ensures var t := Next(s, MarkPending); IsMarked(t, id) && MaySettle(t, KindOf(t.active.value.name))
  {}

  lemma {:induction false} UnmarkedCan(s: State, id: int)
    requires CoreOk(s) && IsUnmarked(s, id)
    ensures CanSucceedUnread(s, id)
    decreases StillDirty(s), Left(s.main)
  {
    if s.main.Resting? && AllHanded(s) {
      MarkNowSettles(s, id);
      CoreKept(s, MarkPending);
      MarkedCan(Next(s, MarkPending), id);
      UnreadLater(s, MarkPending, id);
    } else {
      UnmarkedClears(s, id);
      CoreKept(s, Unanswered(s.main));
      UnmarkedCan(Next(s, Unanswered(s.main)), id);
      UnreadLater(s, Unanswered(s.main), id);
    }
  }

  lemma UnwrittenCan(s: State, id: int)
    requires CoreOk(s) && Holds(s, id) && s.server.Writing?
    ensures CanSucceedUnread(s, id)
  {
    CoreKept(s, WriteNode(true, 0));
    UnmarkedCan(Next(s, WriteNode(true, 0)), id);
    UnreadLater(s, WriteNode(true, 0), id);
  }

  // ------------------------------------------------------------------ and only then

  /** The command is over, or waits for its readback with its mark behind it, or is
      marked and bound to fail or to wait for its readback. */
  predicate Guarded(s: State, id: int) {
    && id < s.nextId
    && (Holds(s, id) ==>
          && (s.server.Listening? || s.server.Marked?) && IsWrite(s.active.value.name)
          && (|| s.active.value.verification in {AwaitThreshold, AwaitAverages}
              || (s.active.value.verification == PendingWrite && !MaySettle(s, KindOf(s.active.value.name)))))
  }

  lemma DecideKeepsGuard(s: State, kind: Kind, who: Option<Captured>, value: int, id: int)
    requires CoreOk(s) && Guarded(s, id) && s.main == Deciding(kind, who, value)
    ensures Guarded(DecideNext(s, kind, who, value), id)
  {}

  lemma AnsweredKeepsGuard(s: State, kind: Kind, who: Option<Captured>, value: int, answer: Answer, id: int)
    requires CoreOk(s) && Guarded(s, id) && s.main == Sent(kind, who, value)
    ensures Guarded(AnsweredNext(s, kind, who, value, answer), id)
  {}

  lemma TellKeepsGuard(s: State, kind: Kind, who: Option<Captured>, value: int, mono: int, timeout: int, id: int)
    requires CoreOk(s) && Guarded(s, id) && s.main == Handed(kind, who, value)
    ensures Guarded(TellNext(s, kind, who, value, mono, timeout), id)
  {}

  lemma PassKeepsGuard(s: State, step: Step, id: int)
    requires CoreOk(s) && Enabled(s, step) && IsPassStep(step) && Guarded(s, id)
    ensures Guarded(Next(s, step), id)
  {
    if step.Decide? { DecideKeepsGuard(s, s.main.kind, s.main.who, s.main.value, id); }
    else if step.Answered? { AnsweredKeepsGuard(s, s.main.kind, s.main.who, s.main.value, step.answer, id); }
    else if step.Tell? { TellKeepsGuard(s, s.main.kind, s.main.who, s.main.value, step.mono, step.timeout, id); }
  }

  lemma AccessKeepsGuard(s: State, step: Step, id: int)
    requires CoreOk(s) && Enabled(s, step) && IsAccess(step) && Guarded(s, id)
    ensures Guarded(Next(s, step), id)
  {}

  lemma CallbackKeepsGuard(s: State, step: Step, id: int)
    requires CoreOk(s) && Enabled(s, step) && IsServerStep(step) && !IsAccess(step) && Guarded(s, id)
    ensures Guarded(Next(s, step), id)
  {}

  lemma AdvanceKeepsGuard(s: State, mono: int, adcOk: bool, restoreOk: bool, restoreTimeout: int, id: int)
    requires CoreOk(s) && s.main.Resting? && Guarded(s, id)
    ensures Guarded(AdvanceNext(s, mono, adcOk, restoreOk, restoreTimeout), id)
  {
    if s.active.Some? && s.active.value.verification !in {Dispatching, PendingWrite} {
      AchieveKeepsGuard(s, id);
      ExpireKeepsGuard(s, mono, restoreOk, restoreTimeout, id);
    }
  }

  lemma AchieveKeepsGuard(s: State, id: int)
    requires CoreOk(s) && Guarded(s, id) && s.active.Some?
    ensures Guarded(Achieve(s, s.active.value), id) && Guarded(Finish(s, s.active.value.id, Succeeded, false), id)
  {}

  lemma ExpireKeepsGuard(s: State, mono: int, restoreOk: bool, restoreTimeout: int, id: int)
    requires CoreOk(s) && Guarded(s, id) && s.active.Some? && s.active.value.verification !in {Dispatching, PendingWrite}
    ensures Guarded(Expire(s, s.active.value, mono, restoreOk, restoreTimeout), id)
  {}

  lemma GuardKept(s: State, step: Step, id: int)
    requires CoreOk(s) && Enabled(s, step) && Guarded(s, id)
    ensures Guarded(Next(s, step), id)
  {
    if IsPassStep(step) { PassKeepsGuard(s, step, id); }
    else if IsAccess(step) { AccessKeepsGuard(s, step, id); }
    else if IsServerStep(step) { CallbackKeepsGuard(s, step, id); }
    else if step.Advance? { AdvanceKeepsGuard(s, step.mono, step.adcOk, step.restoreOk, step.restoreTimeout, id); }
  }

  lemma GuardedNow(s: State, id: int)
    requires CoreOk(s) && Guarded(s, id)
    ensures !PassSucceeds(s, id)
  {}

  lemma {:induction false} NeverUnread(s: State, steps: seq<Step>, t: State, id: int)
    requires CoreOk(s) && Guarded(s, id) && Leads(s, steps, t)
    ensures !PassSucceeds(t, id)
    decreases |steps|
  {
    if steps == [] {
      GuardedNow(s, id);
    } else {
      CoreKept(s, steps[0]);
      GuardKept(s, steps[0], id);
      NeverUnread(Next(s, steps[0]), steps[1..], t, id);
    }
  }

  lemma NoneUnread(s: State, id: int)
    requires CoreOk(s) && Guarded(s, id)
    ensures !CanSucceedUnread(s, id)
  {
    forall t | CanReach(s, t)
      ensures !PassSucceeds(t, id)
    {
      var steps :| Leads(s, steps, t);
      NeverUnread(s, steps, t, id);
    }
  }

  lemma UnguardedCan(s: State, id: int)
    requires CoreOk(s) && Holds(s, id) && IsWrite(s.active.value.name) && Unguarded(s)
    ensures CanSucceedUnread(s, id)
  {
    if s.server.Writing? { UnwrittenCan(s, id); }
    else if s.server.Written? { UnmarkedCan(s, id); }
    else { MarkedCan(s, id); }
  }

  lemma OtherwiseGuarded(s: State, id: int)
    requires CoreOk(s) && Holds(s, id) && IsWrite(s.active.value.name) && !Unguarded(s)
    ensures Guarded(s, id)
  {}

  /** In every reachable state, the active write can come to be recorded Succeeded by
      a forwarding pass, so without any readback, if and only if it is not marked
      yet, or is marked and what the main loop holds and the nodes show lets a pass
      settle it. */
  lemma UnreadExactlyWhenUnguarded(s: State, id: int)
    requires Reachable(s) && Holds(s, id) && IsWrite(s.active.value.name)
    ensures CanSucceedUnread(s, id) <==> Unguarded(s)
  {
    ReachableOk(s);
    if Unguarded(s) {
      UnguardedCan(s, id);
    } else {
      OtherwiseGuarded(s, id);
      NoneUnread(s, id);
    }
  }

  // ------------------------------------------- as long as every value has an owner

  /** The pass read the node before the write landed, found nothing new, and decides
      with the write's mark in sight. */
  predicate ReadTooEarly(s: State, kind: Kind) {
    s.main.Deciding? && s.main.kind == kind && s.main.who == LookedUp(s) && s.main.value == SettingOf(s, kind).last
  }

  /** The pass still has a fit value to hand over, or is doing so, and had looked up
      no command or one of another name. */
  predicate PassesUnnoticed(s: State, kind: Kind) {
    && InRange(kind, SettingOf(s, kind).node)
    && (s.main.Reading? || s.main.Deciding? || s.main.Sent?)
    && Stale(kind, s.main.who)
    && (s.main.kind == kind || (s.main.kind == Threshold && !s.main.Sent?))
    && (s.main.Deciding? && s.main.kind == kind ==> s.main.value != SettingOf(s, kind).last)
  }

  lemma MarkedWhenClean(s: State, id: int)
    requires CoreOk(s) && Clean(s) && IsMarked(s, id)
    ensures var kind := KindOf(s.active.value.name);
            MaySettle(s, kind) <==>
              if SettingOf(s, kind).node == SettingOf(s, kind).last then !s.main.Raising? && !s.main.Handed?
              else ReadTooEarly(s, kind) || PassesUnnoticed(s, kind)
  {}

  /** Until a success is overtaken, a marked write whose value the engine was handed
      already succeeds without readback unless this pass is about to tell or to fail
      it; and one whose value waits on the node can, if and only if the pass read the
      node too early or will hand the value over unnoticed. */
  lemma UnreadSituations(states: seq<State>, steps: seq<Step>, i: nat, id: int)
    requires IsRun(states, steps) && i <= |steps| && NotOvertakenSinceStart(states, steps, i)
    requires IsMarked(states[i], id)
    ensures var s := states[i]; var kind := KindOf(s.active.value.name);
            CanSucceedUnread(s, id) <==>
              if SettingOf(s, kind).node == SettingOf(s, kind).last then !s.main.Raising? && !s.main.Handed?
              else ReadTooEarly(s, kind) || PassesUnnoticed(s, kind)
  {
    CleanSinceStart(states, steps, i);
    EveryStateOk(states, steps, i);
    RunReaches(states, steps, i);
    UnreadExactlyWhenUnguarded(states[i], id);
    MarkedWhenClean(states[i], id);
  }

  lemma RunReaches(states: seq<State>, steps: seq<Step>, i: nat)
    requires IsRun(states, steps) && i <= |steps|
    ensures Reachable(states[i])
  {
    assert IsRun(states[..i + 1], steps[..i]) && states[..i + 1][|steps[..i]|] == states[i];
  }

  // ------------------------------------------------------------- over whole runs

  lemma {:induction false} GuardedThroughout(states: seq<State>, steps: seq<Step>, j: nat, i: nat, id: int)
    requires IsRun(states, steps) && j <= i <= |steps| && Guarded(states[j], id)
    ensures Guarded(states[i], id)
    decreases i
  {
    if j < i {
      GuardedThroughout(states, steps, j, i - 1, id);
      GuardedNext(states, steps, i - 1, id);
    }
  }

  lemma GuardedNext(states: seq<State>, steps: seq<Step>, i: nat, id: int)
    requires IsRun(states, steps) && i < |steps| && Guarded(states[i], id)
    ensures Guarded(states[i + 1], id)
  {
    EveryStateOk(states, steps, i);
    GuardKept(states[i], steps[i], id);
  }

  /** A success that a pass records was unguarded ever since it was accepted. */
  lemma UnreadSuccessWasUnguarded(states: seq<State>, steps: seq<Step>, j: nat, i: nat, id: int)
    requires IsRun(states, steps) && j <= i <= |steps|
    requires Holds(states[j], id) && IsWrite(states[j].active.value.name) && PassSucceeds(states[i], id)
    ensures Unguarded(states[j])
  {
    EveryStateOk(states, steps, j);
    EveryStateOk(states, steps, i);
    if !Unguarded(states[j]) {
      OtherwiseGuarded(states[j], id);
      GuardedThroughout(states, steps, j, i, id);
      GuardedNow(states[i], id);
    }
  }

  /** The entry was added for a write of which nothing was read back. */
  predicate AddsUnread(s: State, t: State, id: int) {
    && |t.past.log| == |s.past.log| + 1
    && var entry := t.past.log[|s.past.log|];
       && entry.TerminalEntry? && entry.ticket.id == id && IsWrite(entry.ticket.name)
       && entry.state == Succeeded && entry.at == PendingWrite
  }

  lemma PassAddsUnread(s: State, step: Step, id: int)
    requires CoreOk(s) && Enabled(s, step) && IsPassStep(step) && AddsUnread(s, Next(s, step), id)
    ensures step == Decide && PassSucceeds(s, id)
  {
    if step.Decide? { DecideAddsUnread(s, id); } else { OthersAddNone(s, step, id); }
  }

  lemma DecideAddsUnread(s: State, id: int)
    requires CoreOk(s) && s.main.Deciding? && AddsUnread(s, DecideNext(s, s.main.kind, s.main.who, s.main.value), id)
    ensures PassSucceeds(s, id)
  {}

  lemma OthersAddNone(s: State, step: Step, id: int)
    requires CoreOk(s) && Enabled(s, step) && IsPassStep(step) && !step.Decide?
    ensures !AddsUnread(s, Next(s, step), id)
  {}

  lemma ServerAddsNone(s: State, step: Step, id: int)
    requires CoreOk(s) && Enabled(s, step) && IsServerStep(step)
    ensures !AddsUnread(s, Next(s, step), id)
  {}

  lemma AdvanceAddsNone(s: State, mono: int, adcOk: bool, restoreOk: bool, restoreTimeout: int, id: int)
    requires CoreOk(s)
    ensures !AddsUnread(s, AdvanceNext(s, mono, adcOk, restoreOk, restoreTimeout), id)
  {}

  lemma RestAddsNone(s: State, step: Step, id: int)
    requires CoreOk(s) && Enabled(s, step) && (IsSense(step) || step.Conclude? || step.Restart?)
    ensures !AddsUnread(s, Next(s, step), id)
  {}

  /** Nothing but a pass ends a write that is still marked as pending in success. */
  lemma UnreadByPassOnly(s: State, step: Step, id: int)
    requires CoreOk(s) && Enabled(s, step) && AddsUnread(s, Next(s, step), id)
    ensures step == Decide && PassSucceeds(s, id)
  {
    if IsPassStep(step) { PassAddsUnread(s, step, id); }
    else if IsServerStep(step) { ServerAddsNone(s, step, id); }
    else if step.Advance? { AdvanceAddsNone(s, step.mono, step.adcOk, step.restoreOk, step.restoreTimeout, id); }
    else { RestAddsNone(s, step, id); }
  }

  /** Once guarded, a write succeeds by its readback or not at all. */
  lemma GuardedIsReadBack(states: seq<State>, steps: seq<Step>, j: nat, i: nat, id: int, entry: Entry)
    requires IsRun(states, steps) && j <= i < |steps|
    requires Holds(states[j], id) && IsWrite(states[j].active.value.name) && !Unguarded(states[j])
    requires states[i + 1].past.log == states[i].past.log + [entry]
    requires entry.TerminalEntry? && entry.ticket.id == id && IsWrite(entry.ticket.name) && entry.state == Succeeded
    ensures Proven(entry.ticket, entry.seen)
    ensures NewRecord(entry.ticket, entry.seen.snapshot)
    ensures Shows(entry.seen.snapshot, KindOf(entry.ticket.name), entry.expected)
  {
    EveryStateOk(states, steps, j);
    OtherwiseGuarded(states[j], id);
    GuardedThroughout(states, steps, j, i, id);
    EveryStateOk(states, steps, i);
    EveryStateOk(states, steps, i + 1);
    GuardedNow(states[i], id);
    assert states[i + 1].past.log[|states[i].past.log|] == entry;
    if entry.at == PendingWrite { UnreadByPassOnly(states[i], steps[i], id); }
  }
}
