/** Runs from a first start to each of the situations the findings speak of. */
module CommandWitnesses {
  import opened Wrappers
  import opened CommandState
  import opened CommandInvariant
  import opened CommandSafety
  import opened CommandStrays
  import opened CommandFindings

  function FirstStart(): (s: State)
    ensures s.main == Resting && s.server == Listening && s.active == None && !s.locked && AllHanded(s)
    ensures s.threshold == s.averages == Setting(1, 1)
  {
    State(None, Audit(0, Idle), Calibration(OperationIdle, NotRequired), false, Setting(1, 1), Setting(1, 1), NOTHING_SEEN,
          1, Missing, Listening, Resting, Past([], None, None, false, None))
  }

  lemma FirstIsReachable()
    ensures Reachable(FirstStart())
  {
    assert Restored(Missing) == (Audit(0, Idle), Calibration(OperationIdle, NotRequired), false, Missing);
    ReachableFirst(FirstStart());
  }

  /** No command is active and nothing waits to be forwarded. */
  predicate Idles(s: State, main: Main) {
    && s.active == None && s.server == Listening && s.main == main && !s.locked
    && s.threshold == s.averages == Setting(1, 1)
  }

  function BeginWith(name: Name): Step {
    Begin(name, Maintenance, GateMaintenance, 0, 60)
  }

  /** The command was accepted and the server thread is about to dispatch it. */
  predicate Accepts(s: State, name: Name, main: Main) {
    && s.active.Some? && s.active.value.name == name && s.active.value.verification == Dispatching
    && s.server == (if IsWrite(name) then Writing(s.active.value.id, KindOf(name)) else Dispatched(s.active.value.id))
    && s.main == main && !s.locked && s.past.asked == None
  }

  lemma ToAccepted(s: State, name: Name, main: Main) returns (t: State)
    requires Reachable(s) && s.active == None && s.server == Listening && !s.locked && s.main == main && !main.Concluding?
    ensures Reachable(t) && Accepts(t, name, main) && t.threshold == s.threshold && t.averages == s.averages
    ensures t.active.value.id == s.nextId && t.nextId == s.nextId + 1 && t.seen == s.seen
    ensures t.active.value.startSequence == s.seen.goodSequence && t.active.value.startPid == s.seen.pid
    ensures t.active.value.expectedHash == s.seen.hash && t.active.value.requestedAt == s.seen.now
  {
    ReachableNext(s, BeginWith(name));
    t := Next(s, BeginWith(name));
  }

  /** The pass finds nothing to do about the threshold. */
  predicate ThresholdIsQuiet(s: State) {
    && s.threshold.node == s.threshold.last
    && (s.active.Some? && s.active.value.verification == PendingWrite ==> s.active.value.name != ThresholdOhm)
  }

  /** A pass begins, and finds nothing to do before this kind. */
  lemma PassComesTo(s: State, kind: Kind) returns (t: State)
    requires Reachable(s) && s.main == Resting && (kind == Averages ==> ThresholdIsQuiet(s))
    ensures Reachable(t) && t == s.(main := Reading(kind, LookedUp(s)))
  {
    ReachableNext(s, Capture);
    t := Next(s, Capture);
    ReachableOk(t);
    if kind == Averages { t := PassesThreshold(t); }
  }

  lemma PassesThreshold(s: State) returns (t: State)
    requires Reachable(s) && s.main.Reading? && s.main.kind == Threshold && ThresholdIsQuiet(s)
    requires CapturedOk(s, s.main.who)
    ensures Reachable(t) && t == s.(main := Reading(Averages, s.main.who))
  {
    ReachableNext(s, Read);
    var deciding := Next(s, Read);
    assert !SeesPending(deciding, Threshold, s.main.who);
    ReachableNext(deciding, Decide);
    t := Next(deciding, Decide);
  }

  /** It reads what is on the node. */
  lemma PassReads(s: State) returns (t: State)
    requires Reachable(s) && s.main.Reading?
    ensures Reachable(t) && t == s.(main := Deciding(s.main.kind, s.main.who, SettingOf(s, s.main.kind).node))
  {
    ReachableNext(s, Read);
    t := Next(s, Read);
  }

  /** The write lands on its node. */
  lemma Lands(s: State, kind: Kind, value: int) returns (t: State)
    requires Reachable(s) && Accepts(s, NameOf(kind), s.main) && SettingOf(s, kind).last != value
    ensures Reachable(t) && t.active == s.active && t.main == s.main && t.seen == s.seen && t.locked == s.locked
    ensures t.server == Written(s.active.value.id, kind, value) && t.past.asked == Some(value) && t.past.differed
    ensures SettingOf(t, kind) == Setting(value, SettingOf(s, kind).last)
    ensures if kind == Threshold then t.averages == s.averages else t.threshold == s.threshold
  {
    ReachableNext(s, WriteNode(true, value));
    t := Next(s, WriteNode(true, value));
  }

  /** ... and is marked. */
  lemma Marks(s: State, kind: Kind, value: int) returns (t: State)
    requires Reachable(s) && s.active.Some? && s.server == Written(s.active.value.id, kind, value)
    ensures Reachable(t) && t == s.(active := t.active, server := Listening) && t.active.Some?
    ensures t.active.value == s.active.value.(verification := PendingWrite, expectedValue := value)
  {
    ReachableNext(s, MarkPending);
    t := Next(s, MarkPending);
    ReachableNext(t, Expect);
    t := Next(t, Expect);
  }

  /** A changed write is on its node and marked. */
  predicate IsWritten(s: State, kind: Kind, value: int, main: Main) {
    && s.active.Some? && s.active.value.name == NameOf(kind) && IsPending(s, s.active.value.id)
    && s.server == Listening && s.main == main && SettingOf(s, kind) == Setting(value, 1)
    && s.past.asked == Some(value) && s.past.differed && !s.locked
    && if kind == Threshold then s.averages == Setting(1, 1) else s.threshold == Setting(1, 1)
  }

  /** A write is accepted, written and marked. */
  lemma ToMarked(s: State, kind: Kind, value: int, main: Main) returns (t: State)
    requires Reachable(s) && Idles(s, main) && !main.Concluding? && value != 1
    ensures Reachable(t) && IsWritten(t, kind, value, main) && t.seen == s.seen && t.active.value.id == s.nextId
    ensures t.active.value.startSequence == s.seen.goodSequence && t.active.value.startPid == s.seen.pid
    ensures t.active.value.expectedHash == s.seen.hash && t.active.value.requestedAt == s.seen.now
  {
    var accepted := ToAccepted(s, NameOf(kind), main);
    var landed := Lands(accepted, kind, value);
    t := Marks(landed, kind, value);
  }

  // ----------------------------------------------------- written, not yet marked

  /** A pass comes to a changed write that is on its node and not yet marked; it will
      take an unfit value back and send a fit one. */
  lemma UnmarkedIsReachable(kind: Kind, value: int) returns (s: State)
    requires value != 1
    ensures Reachable(s) && s.main == Deciding(kind, LookedUp(s), value)
    ensures s.active.Some? && s.active.value.name == NameOf(kind) && IsUnmarked(s, s.active.value.id)
    ensures SettingOf(s, kind) == Setting(value, 1) && s.past.differed
    ensures CanSucceedUnread(s, s.active.value.id)
  {
    FirstIsReachable();
    var accepted := ToAccepted(FirstStart(), NameOf(kind), Resting);
    var looking := PassComesTo(accepted, kind);
    var landed := Lands(looking, kind, value);
    s := PassReads(landed);
    UnreadExactlyWhenUnguarded(s, s.active.value.id);
  }

  // ---------------------------------------------------------- looked up too early

  /** A write was marked and its value sent by a pass that had begun before. */
  predicate SentLate(s: State, kind: Kind, who: Option<Captured>) {
    && s.active.Some? && s.active.value.name == NameOf(kind) && IsPending(s, s.active.value.id)
    && s.server == Listening && s.main == Sent(kind, who, 2) && SettingOf(s, kind) == Setting(2, 1) && s.past.differed
    && if kind == Threshold then s.averages == Setting(1, 1) else s.threshold == Setting(1, 1)
  }

  lemma SentByEarlierPass(s: State, kind: Kind, who: Option<Captured>) returns (t: State)
    requires Reachable(s) && Idles(s, Reading(kind, who))
    ensures Reachable(t) && SentLate(t, kind, who) && t.active.value.id == s.nextId
  {
    var marked := ToMarked(s, kind, 2, s.main);
    var deciding := PassReads(marked);
    ReachableNext(deciding, Decide);
    t := Next(deciding, Decide);
  }

  lemma StaleSettles(s: State, kind: Kind, who: Option<Captured>)
    requires Reachable(s) && SentLate(s, kind, who) && Stale(kind, who)
    ensures CanSucceedUnread(s, s.active.value.id)
  {
    assert Unguarded(s);
    UnreadExactlyWhenUnguarded(s, s.active.value.id);
  }

  /** No command looked up: any answer settles the value, though write and mark are
      long done. */
  lemma NobodyIsReachable(kind: Kind) returns (s: State)
    ensures Reachable(s) && SentLate(s, kind, None) && CanSucceedUnread(s, s.active.value.id)
  {
    FirstIsReachable();
    var looking := PassComesTo(FirstStart(), kind);
    s := SentByEarlierPass(looking, kind, None);
    StaleSettles(s, kind, None);
  }

  lemma EndsDispatch(s: State, name: Name, main: Main, ending: Step)
    requires Accepts(s, name, main) && s.threshold == s.averages == Setting(1, 1)
    requires ending == if IsWrite(name) then WriteNode(false, 0) else NotDispatched
    ensures Enabled(s, ending) && Idles(Next(s, ending), main) && Next(s, ending).nextId == s.nextId
  {}

  /** A command looked up that is over by then. */
  lemma FormerIsLookedUp(name: Name, kind: Kind, ending: Step) returns (s: State, id: int)
    requires ending == if IsWrite(name) then WriteNode(false, 0) else NotDispatched
    ensures Reachable(s) && Idles(s, Reading(kind, Some(Captured(id, name)))) && id < s.nextId
  {
    FirstIsReachable();
    var accepted := ToAccepted(FirstStart(), name, Resting);
    var looking := PassComesTo(accepted, kind);
    id := accepted.active.value.id;
    EndsDispatch(looking, name, looking.main, ending);
    ReachableNext(looking, ending);
    s := Next(looking, ending);
  }

  /** The same with a command of another name looked up. */
  lemma OtherNameIsReachable(kind: Kind) returns (s: State, id: int)
    ensures Reachable(s) && SentLate(s, kind, Some(Captured(id, ClearLatch))) && CanSucceedUnread(s, s.active.value.id)
  {
    var looking;
    looking, id := FormerIsLookedUp(ClearLatch, kind, NotDispatched);
    s := SentByEarlierPass(looking, kind, looking.main.who);
    StaleSettles(s, kind, looking.main.who);
  }

  lemma SameNameSettlesNothing(s: State, kind: Kind, who: Option<Captured>)
    requires Reachable(s) && SentLate(s, kind, who) && !Stale(kind, who)
    ensures !CanSucceedUnread(s, s.active.value.id)
  {
    assert !Unguarded(s);
    UnreadExactlyWhenUnguarded(s, s.active.value.id);
  }

  /** With an earlier command of the same name looked up, whatever the engine answers
      the write cannot succeed unread. */
  lemma FormerWriteFailsIt(kind: Kind) returns (s: State, id: int)
    ensures Reachable(s) && SentLate(s, kind, Some(Captured(id, NameOf(kind)))) && !Holds(s, id)
    ensures !CanSucceedUnread(s, s.active.value.id)
  {
    var looking;
    looking, id := FormerIsLookedUp(NameOf(kind), kind, WriteNode(false, 0));
    s := SentByEarlierPass(looking, kind, looking.main.who);
    SameNameSettlesNothing(s, kind, looking.main.who);
  }

  // ------------------------------------------------------------- read too early

  /** The pass holds what was on the node before the write landed. */
  lemma ReadBeforeIsReachable(kind: Kind) returns (s: State)
    ensures Reachable(s) && Accepts(s, NameOf(kind), Deciding(kind, LookedUp(s), 1))
    ensures s.threshold == s.averages == Setting(1, 1)
  {
    FirstIsReachable();
    var accepted := ToAccepted(FirstStart(), NameOf(kind), Resting);
    var looking := PassComesTo(accepted, kind);
    s := PassReads(looking);
  }

  /** It decides with the write's mark in sight: the success is overtaken, for both
      settings and any changed value. */
  lemma OvertakenIsReachable(kind: Kind, value: int) returns (s: State)
    requires value != 1
    ensures Reachable(s) && IsWritten(s, kind, value, Deciding(kind, LookedUp(s), 1)) && Overtaken(s, Decide)
  {
    var read := ReadBeforeIsReachable(kind);
    var landed := Lands(read, kind, value);
    s := Marks(landed, kind, value);
  }

  /** No command is active, and the last one's value is on its node. */
  predicate LeftBehind(s: State, kind: Kind, value: int, main: Main) {
    && s.active == None && s.server == Listening && s.main == main && !s.locked && s.audit.state == Succeeded
    && SettingOf(s, kind) == Setting(value, 1)
    && if kind == Threshold then s.averages == Setting(1, 1) else s.threshold == Setting(1, 1)
  }

  lemma OvertakenGoesOn(s: State, kind: Kind, value: int)
    requires IsWritten(s, kind, value, Deciding(kind, LookedUp(s), 1)) && value != 1 && CoreOk(s)
    ensures LeftBehind(Next(s, Decide), kind, value, AfterKind(kind, LookedUp(s)))
  {}

  /** The pass comes to rest. */
  lemma RestsAfter(s: State, kind: Kind, who: Option<Captured>) returns (t: State)
    requires Reachable(s) && s.main == AfterKind(kind, who)
    requires s.active.Some? ==> s.active.value.verification != PendingWrite
    requires kind == Threshold ==> s.averages == Setting(1, 1)
    ensures Reachable(t) && t == s.(main := Resting)
  {
    t := s;
    if kind == Threshold {
      t := PassReads(t);
      ReachableNext(t, Decide);
      t := Next(t, Decide);
    }
  }

  /** The pass comes to rest and leaves the value behind. */
  lemma LeftBehindIsReachable(kind: Kind, value: int) returns (s: State)
    requires value != 1
    ensures Reachable(s) && LeftBehind(s, kind, value, Resting)
  {
    var overtaken := OvertakenIsReachable(kind, value);
    ReachableOk(overtaken);
    OvertakenGoesOn(overtaken, kind, value);
    ReachableNext(overtaken, Decide);
    s := RestsAfter(Next(overtaken, Decide), kind, LookedUp(overtaken));
  }

  /** The next pass holds it with nobody to answer for it: `StrayIsSent` says that it
      sends a fit one, and takes an unfit one back. */
  lemma StrayIsReachable(kind: Kind, value: int) returns (s: State)
    requires value != 1
    ensures Reachable(s) && HoldsStray(s, kind, None, value) && LeftBehind(s, kind, value, s.main)
  {
    var left := LeftBehindIsReachable(kind, value);
    var looking := PassComesTo(left, kind);
    s := PassReads(looking);
  }

  /** A later write, not written yet, and the value left behind before it. */
  predicate StrayForAnother(s: State, kind: Kind, main: Main) {
    Accepts(s, NameOf(kind), main) && SettingOf(s, kind) == Setting(2, 1)
  }

  lemma WriteAfterStray(kind: Kind) returns (s: State)
    ensures Reachable(s) && StrayForAnother(s, kind, Resting) && (kind == Averages ==> ThresholdIsQuiet(s))
  {
    var left := LeftBehindIsReachable(kind, 2);
    s := ToAccepted(left, NameOf(kind), Resting);
  }

  lemma StrayReadForAnother(kind: Kind) returns (s: State)
    ensures Reachable(s) && StrayForAnother(s, kind, Deciding(kind, LookedUp(s), 2))
  {
    var accepted := WriteAfterStray(kind);
    var looking := PassComesTo(accepted, kind);
    s := PassReads(looking);
  }

  lemma StraySentForAnother(kind: Kind) returns (s: State)
    ensures Reachable(s) && StrayForAnother(s, kind, Sent(kind, LookedUp(s), 2))
  {
    var deciding := StrayReadForAnother(kind);
    ReachableNext(deciding, Decide);
    s := Next(deciding, Decide);
  }

  /** A write of that name accepted meanwhile, and not written yet, is about to be
      told by `StrayIsTold` to wait for the value left behind. */
  lemma StrayForAnotherIsReachable(kind: Kind) returns (s: State)
    ensures Reachable(s) && Accepts(s, NameOf(kind), Handed(kind, LookedUp(s), 2))
    ensures SettingOf(s, kind) == Setting(2, 2)
  {
    var sent := StraySentForAnother(kind);
    ReachableNext(sent, Answered(Agreed));
    s := Next(sent, Answered(Agreed));
  }

  // ------------------------------------------------------ records of any quality

  /** The record shows what the command waits for. */
  predicate Satisfies(c: Active, snapshot: Snapshot) {
    match c.verification
    case AwaitLatch => !snapshot.latched || snapshot.alarm
    case AwaitThreshold => snapshot.threshold == Some(c.expectedValue)
    case AwaitAverages => snapshot.averages == c.expectedValue
    case _ => false
  }

  /** All that is missing is the record. */
  predicate WaitsForRecord(s: State) {
    && s.main == Resting && !s.server.Superseding? && s.active.Some?
    && match s.active.value.verification
       case AwaitLatch => Fresh(s.active.value, s.seen)
       case AwaitThreshold => NormalModeVerified(s.active.value, s.seen)
       case AwaitAverages => NormalModeVerified(s.active.value, s.seen)
       case _ => false
  }

  /** A bad record that happens to show what is waited for is enough. */
  lemma BadRecordSatisfies(s: State, snapshot: Snapshot, at: int, mono: int)
    requires Reachable(s) && WaitsForRecord(s) && Enabled(s, Measure(snapshot, at))
    requires !snapshot.good && Satisfies(s.active.value, snapshot)
    ensures var look := Advance(mono, false, false, 0); var m := Next(s, Measure(snapshot, at));
            && Enabled(m, look) && m.seen.goodSequence < snapshot.sequence
            && Next(m, look).active.None? && Next(m, look).audit == Audit(s.active.value.id, Succeeded)
            && Next(m, look).seen.snapshot == Some(snapshot)
  {
    ReachableOk(s);
    var m := Next(s, Measure(snapshot, at));
    SensedOk(s, m.seen);
    BadRecordStays(s, snapshot, at);
    RecordDecides(m, mono);
  }

  lemma BadRecordStays(s: State, snapshot: Snapshot, at: int)
    requires CoreOk(s) && WaitsForRecord(s) && Enabled(s, Measure(snapshot, at)) && !snapshot.good
    ensures var m := Next(s, Measure(snapshot, at));
            && m.active == s.active && m.server == s.server && m.main == Resting && WaitsForRecord(m)
            && m.seen == s.seen.(snapshot := Some(snapshot)) && m.seen.goodSequence < snapshot.sequence
  {}

  lemma RecordDecides(m: State, mono: int)
    requires CoreOk(m) && WaitsForRecord(m) && m.seen.snapshot.Some? && Satisfies(m.active.value, m.seen.snapshot.value)
    ensures var t := AdvanceNext(m, mono, false, false, 0);
            t.active.None? && t.audit == Audit(m.active.value.id, Succeeded) && t.seen == m.seen
  {}

  const GOOD := Snapshot(1, true, true, false, None, 0)

  /** A good record that does not show it yet. */
  lemma GoodRecordArrives(s: State) returns (t: State)
    requires Reachable(s) && s.main == Resting && s.seen.snapshot == None && s.active.Some?
    requires s.active.value.startSequence == 0 && s.active.value.requestedAt == 0
    ensures Reachable(t) && t == s.(seen := s.seen.(snapshot := Some(GOOD), goodSequence := 1, goodAt := Some(0)))
    ensures Fresh(t.active.value, t.seen)
  {
    ReachableNext(s, Measure(GOOD, 0));
    t := Next(s, Measure(GOOD, 0));
  }

  lemma LatchWaitIsReachable() returns (s: State)
    ensures Reachable(s) && WaitsForRecord(s) && s.active.value.verification == AwaitLatch && s.seen.snapshot == Some(GOOD)
  {
    FirstIsReachable();
    var accepted := ToAccepted(FirstStart(), ClearLatch, Resting);
    ReachableNext(accepted, SendRequest);
    var waiting := Next(accepted, SendRequest);
    ReachableNext(waiting, ReplyGood(0, 60, 0));
    s := GoodRecordArrives(Next(waiting, ReplyGood(0, 60, 0)));
  }

  /** A process and an executable are known from the start. */
  lemma EngineIsKnown() returns (s: State)
    ensures Reachable(s) && Idles(s, Resting) && s.seen == Seen(0, None, None, 1, "h", None, 0)
  {
    FirstIsReachable();
    ReachableNext(FirstStart(), Tick(0, "h"));
    var ticked := Next(FirstStart(), Tick(0, "h"));
    ReachableNext(ticked, Look(1, None));
    s := Next(ticked, Look(1, None));
  }

  /** The command's terms have not changed. */
  predicate SameTerms(s: State, t: State) {
    && s.active.Some? && t.active.Some? && t.seen == s.seen
    && t.active.value.id == s.active.value.id && t.active.value.name == s.active.value.name
    && t.active.value.startSequence == s.active.value.startSequence && t.active.value.startPid == s.active.value.startPid
    && t.active.value.requestedAt == s.active.value.requestedAt && t.active.value.expectedHash == s.active.value.expectedHash
  }

  /** A pass comes to a marked write and sends its value. */
  lemma SentByOwnPass(s: State, kind: Kind) returns (t: State)
    requires Reachable(s) && IsWritten(s, kind, 2, Resting)
    ensures Reachable(t) && SameTerms(s, t) && SentLate(t, kind, LookedUp(t))
  {
    var looking := PassComesTo(s, kind);
    var deciding := PassReads(looking);
    ReachableNext(deciding, Decide);
    t := Next(deciding, Decide);
  }

  /** The engine agrees... */
  lemma AgreedInOwnPass(s: State, kind: Kind) returns (t: State)
    requires Reachable(s) && SentLate(s, kind, LookedUp(s))
    ensures Reachable(t) && SameTerms(s, t) && t.server == Listening && t.main == Handed(kind, LookedUp(t), 2)
    ensures t.active == s.active && t.averages == if kind == Threshold then s.averages else Setting(2, 2)
  {
    ReachableNext(s, Answered(Agreed));
    t := Next(s, Answered(Agreed));
  }

  /** ... and the command is told. */
  lemma ToldInOwnPass(s: State, kind: Kind) returns (t: State)
    requires Reachable(s) && SentLate(s, kind, LookedUp(s))
    ensures Reachable(t) && SameTerms(s, t) && t.server == Listening && t.main == AfterKind(kind, LookedUp(t))
    ensures t.active.value.verification == VerificationOf(NameOf(kind)) && t.active.value.expectedValue == 2
    ensures kind == Threshold ==> t.averages == Setting(1, 1)
  {
    var handed := AgreedInOwnPass(s, kind);
    TellsNow(handed, kind);
    ReachableNext(handed, Tell(0, 60));
    t := Next(handed, Tell(0, 60));
  }

  lemma TellsNow(s: State, kind: Kind)
    requires s.active.Some? && s.main == Handed(kind, LookedUp(s), 2)
    ensures var t := Next(s, Tell(0, 60));
            && SameTerms(s, t) && t.server == s.server && t.main == AfterKind(kind, LookedUp(t))
            && t.active.value.verification == VerificationOf(NameOf(kind)) && t.active.value.expectedValue == 2
            && t.averages == s.averages
  {}

  lemma OtherProcess(s: State) returns (t: State)
    requires Reachable(s) && s.main == Resting && s.seen == Seen(0, None, None, 1, "h", None, 0)
    ensures Reachable(t) && t == s.(seen := Seen(0, None, None, 2, "h", None, 0))
  {
    ReachableNext(s, Look(2, None));
    t := Next(s, Look(2, None));
  }

  /** The terms of a write accepted while the first process was running. */
  predicate FromFirstProcess(s: State, kind: Kind) {
    && s.active.Some? && s.active.value.name == NameOf(kind)
    && s.active.value.startSequence == 0 && s.active.value.startPid == 1 && s.active.value.requestedAt == 0
    && s.active.value.expectedHash == "h"
  }

  lemma ToHandedOver(kind: Kind) returns (s: State)
    ensures Reachable(s) && FromFirstProcess(s, kind) && s.main == Resting && s.server == Listening
    ensures s.active.value.verification == VerificationOf(NameOf(kind)) && s.active.value.expectedValue == 2
    ensures s.seen == Seen(0, None, None, 1, "h", None, 0)
  {
    var known := EngineIsKnown();
    var marked := ToMarked(known, kind, 2, Resting);
    assert FromFirstProcess(marked, kind);
    var sent := SentByOwnPass(marked, kind);
    var told := ToldInOwnPass(sent, kind);
    s := RestsAfter(told, kind, LookedUp(told));
  }

  lemma VerifiedNow(s: State, kind: Kind)
    requires FromFirstProcess(s, kind) && s.main == Resting && s.server == Listening
    requires s.active.value.verification == VerificationOf(NameOf(kind))
    requires s.seen == Seen(1, Some(0), Some(GOOD), 2, "h", None, 0)
    ensures WaitsForRecord(s)
  {}

  lemma WriteWaitIsReachable(kind: Kind) returns (s: State)
    ensures Reachable(s) && WaitsForRecord(s) && s.active.value.verification == VerificationOf(NameOf(kind))
    ensures s.active.value.expectedValue == 2 && s.seen.snapshot == Some(GOOD)
  {
    var handed := ToHandedOver(kind);
    var other := OtherProcess(handed);
    s := GoodRecordArrives(other);
    VerifiedNow(s, kind);
  }

  // ------------------------------------------------------------- the open window

  /** A calibration that awaits its readback. */
  predicate AwaitsCalibration(s: State) {
    && s.server == Listening && s.main == Resting && !s.locked
    && s.active.Some? && s.active.value.verification == AwaitCalibration
    && s.calibration.state == Calibrating
  }

  lemma CalibrationIsSent() returns (s: State)
    ensures Reachable(s) && s.main == Resting && !s.locked
    ensures s.active.Some? && s.active.value.name == StartCalibration && s.server == Waiting(s.active.value.id)
  {
    FirstIsReachable();
    var accepted := ToAccepted(FirstStart(), StartCalibration, Resting);
    ReachableNext(accepted, Step.Prepare);
    var prepared := Next(accepted, Step.Prepare);
    ReachableNext(prepared, SendRequest);
    s := Next(prepared, SendRequest);
  }

  lemma CalibrationIsReachable() returns (s: State)
    ensures Reachable(s) && AwaitsCalibration(s)
  {
    var waiting := CalibrationIsSent();
    ReachableNext(waiting, ReplyGood(0, 1800, 5));
    var replied := Next(waiting, ReplyGood(0, 1800, 5));
    ReachableNext(replied, NowRunning(0, 1800, 5));
    s := Next(replied, NowRunning(0, 1800, 5));
  }

  predicate LeftOpen(s: State) {
    && s.calibration.state == Calibrating && !s.locked && s.active.None?
    && s.audit.state == Failed && Orphaned(s)
  }

  /** The window can be reached: a calibration is superseded, the server dies
      before the abort is recorded, and comes back unlocked with the engine
      still calibrating. */
  lemma WindowIsReachable() returns (s: State)
    ensures Reachable(s) && LeftOpen(s)
  {
    var calibrating := CalibrationIsReachable();
    ReachableOk(calibrating);
    ReachableNext(calibrating, BeginWith(AbortCalibration));
    var superseding := Next(calibrating, BeginWith(AbortCalibration));
    Supersession(calibrating);
    ReachableNext(superseding, Step.Restart(1, 1));
    RestartLeavesOpen(superseding);
    s := Next(superseding, Step.Restart(1, 1));
  }

  predicate InWindow(s: State) {
    && s.server.Superseding? && s.calibration.state == Calibrating && !s.locked && s.audit.state == Failed
    && s.disk == Record(false, s.audit, s.calibration)
  }

  lemma Supersession(s: State)
    requires CoreOk(s) && AwaitsCalibration(s)
    ensures InWindow(Next(s, BeginWith(AbortCalibration)))
  {}

  lemma RestartLeavesOpen(s: State)
    requires InWindow(s)
    ensures LeftOpen(Next(s, Step.Restart(1, 1)))
  {}

  /** An abort that has taken a calibration over and is about to be dispatched. */
  predicate TookOver(s: State) {
    && s.active.Some? && s.active.value.name == AbortCalibration && Owned(s)
    && s.server == Dispatched(s.active.value.id) && s.main == Resting && !s.locked && s.calibration.state == Calibrating
  }

  lemma AbortTakesOver(s: State)
    requires InWindow(s) && s.main == Resting
    ensures TookOver(Next(s, AcceptAbort))
  {}

  lemma UndispatchedLeavesOpen(s: State)
    requires CoreOk(s) && TookOver(s)
    ensures Enabled(s, NotDispatched) && LeftOpen(Next(s, NotDispatched)) && Next(s, NotDispatched).server == Listening
    ensures LeftOpen(Restarted(Next(s, NotDispatched), 1, 1))
  {}

  lemma TakenOverIsReachable() returns (s: State)
    ensures Reachable(s) && TookOver(s)
  {
    var calibrating := CalibrationIsReachable();
    ReachableOk(calibrating);
    Supersession(calibrating);
    ReachableNext(calibrating, BeginWith(AbortCalibration));
    var superseding := Next(calibrating, BeginWith(AbortCalibration));
    AbortTakesOver(superseding);
    ReachableNext(superseding, AcceptAbort);
    s := Next(superseding, AcceptAbort);
  }

  /** The other way there needs no crash: the abort is accepted and never reaches its
      callback, say for an argument it does not take.  A crash later on still comes
      back unlocked with the engine calibrating. */
  lemma UndispatchedAbortIsReachable() returns (s: State)
    ensures Reachable(s) && s.server == Listening && LeftOpen(s) && Exposed(s, 1, 1)
    ensures LeftOpen(Restarted(s, 1, 1))
  {
    var taken := TakenOverIsReachable();
    ReachableOk(taken);
    UndispatchedLeavesOpen(taken);
    ReachableNext(taken, NotDispatched);
    s := Next(taken, NotDispatched);
  }
}
