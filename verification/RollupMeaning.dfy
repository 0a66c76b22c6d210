/** What a rollup says of its samples, in plain terms: which status is worse, which
    payloads count, and what the columns of a series are. */
module RollupMeaning {
  import opened Wrappers
  import opened RollupFold

  // --------------------------------------------------------------- ranks of statuses

  /** The character is this small letter, or its capital. */
  predicate IsLetter(c: char, small: char)
    requires 'a' <= small <= 'z'
  {
    c == small || c as int + 32 == small as int
  }

  predicate StartsBad(s: string) {
    |s| >= 3 && IsLetter(s[0], 'b') && IsLetter(s[1], 'a') && IsLetter(s[2], 'd')
  }

  predicate StartsUncertain(s: string) {
    && |s| >= 9
    && IsLetter(s[0], 'u') && IsLetter(s[1], 'n') && IsLetter(s[2], 'c') && IsLetter(s[3], 'e') && IsLetter(s[4], 'r')
    && IsLetter(s[5], 't') && IsLetter(s[6], 'a') && IsLetter(s[7], 'i') && IsLetter(s[8], 'n')
  }

  predicate IsGood(s: string) {
    |s| == 4 && IsLetter(s[0], 'g') && IsLetter(s[1], 'o') && IsLetter(s[2], 'o') && IsLetter(s[3], 'd')
  }

  lemma LowersTo(c: char, small: char)
    requires 'a' <= small <= 'z'
    ensures Lower(c) == small <==> IsLetter(c, small)
  {}

  /** `prefix` starts the lowered status exactly when its letters do, in any case. */
  lemma StartsLowered(s: string, prefix: string)
    requires |prefix| <= |s| && forall i :: 0 <= i < |prefix| ==> 'a' <= prefix[i] <= 'z'
    ensures prefix <= Lowered(s) <==> forall i :: 0 <= i < |prefix| ==> IsLetter(s[i], prefix[i])
  {
    forall i | 0 <= i < |prefix|
      ensures Lowered(s)[i] == prefix[i] <==> IsLetter(s[i], prefix[i])
    {
      LowersTo(s[i], prefix[i]);
    }
  }

  /** Whatever the case of their letters: bad statuses outrank uncertain ones, those
      outrank all others that are not plainly good, and these outrank the good one. */
  lemma RanksInOrder(s: string)
    ensures StatusRank(s) == if StartsBad(s) then 3 else if StartsUncertain(s) then 2 else if IsGood(s) then 0 else 1
  {
    var bad, uncertain, good := "bad", "uncertain", "good";
    assert |bad| == 3 && |uncertain| == 9 && |good| == 4;
    if |s| >= 3 { StartsLowered(s, bad); }
    if |s| >= 9 { StartsLowered(s, uncertain); }
    if |s| == 4 {
      StartsLowered(s, good);
      assert good <= Lowered(s) <==> Lowered(s) == good;
    }
  }

  // --------------------------------------------------------------- what counts as what

  /** Booleans count as one and zero, text and what is not finite does not count, and
      a missing status is the one of missing data. */
  lemma PayloadTable(s: Snapshot, index: int)
    ensures var p := if index in s.values then s.values[index] else Payload(Absent, "");
            && ReadingOf(s, index).status == (if p.status == "" then "BadWaitingForInitialData" else p.status)
            && ReadingOf(s, index).value == match p.raw
                                            case Number(r) => Some(r)
                                            case Flag(b) => Some(if b then 1.0 else 0.0)
                                            case Absent => None
                                            case NonFinite => None
                                            case Text(_) => None
  {}

  // --------------------------------------------------------------- a series' columns

  /** The last reading with a value is number `k`. */
  predicate LastValued(rs: seq<Reading>, k: nat) {
    k < |rs| && rs[k].value.Some? && forall j :: k < j < |rs| ==> rs[j].value.None?
  }

  predicate FirstValued(rs: seq<Reading>, k: nat) {
    k < |rs| && rs[k].value.Some? && forall j :: 0 <= j < k ==> rs[j].value.None?
  }

  predicate Valueless(rs: seq<Reading>) {
    forall j :: 0 <= j < |rs| ==> rs[j].value.None?
  }

  lemma {:induction false} PresentNone(rs: seq<Reading>)
    ensures Present(rs) == [] <==> Valueless(rs)
  {
    if rs != [] { PresentNone(rs[..|rs| - 1]); }
  }

  lemma {:induction false} FirstIs(rs: seq<Reading>, k: nat)
    requires FirstValued(rs, k)
    ensures First(Present(rs)) == rs[k].value
  {
    var front := rs[..|rs| - 1];
    if k < |front| { FirstIs(front, k); } else { PresentNone(front); }
  }

  lemma {:induction false} LastIs(rs: seq<Reading>, k: nat)
    requires LastValued(rs, k)
    ensures Last(Present(rs)) == rs[k].value
  {
    var front := rs[..|rs| - 1];
    if k < |front| { LastIs(front, k); }
  }

  lemma {:induction false} LeastIs(xs: seq<real>)
    ensures xs == [] ==> Least(xs) == None
    ensures xs != [] ==> Least(xs).Some? && Least(xs).value in xs && forall x :: x in xs ==> Least(xs).value <= x
  {
    if xs != [] {
      var front := xs[..|xs| - 1];
      LeastIs(front);
      assert forall x :: x in xs ==> x in front || x == xs[|xs| - 1];
    }
  }

  lemma {:induction false} GreatestIs(xs: seq<real>)
    ensures xs == [] ==> Greatest(xs) == None
    ensures xs != [] ==> Greatest(xs).Some? && Greatest(xs).value in xs && forall x :: x in xs ==> x <= Greatest(xs).value
  {
    if xs != [] {
      var front := xs[..|xs| - 1];
      GreatestIs(front);
      assert forall x :: x in xs ==> x in front || x == xs[|xs| - 1];
    }
  }

  /** The values present are the readings' values. */
  lemma {:induction false} PresentAre(rs: seq<Reading>, x: real)
    ensures x in Present(rs) <==> exists k :: 0 <= k < |rs| && rs[k].value == Some(x)
  {
    if rs != [] {
      var front, n := rs[..|rs| - 1], |rs| - 1;
      PresentAre(front, x);
      if x in Present(front) {
        var k :| 0 <= k < |front| && front[k].value == Some(x);
        assert rs[k].value == Some(x);
      }
      if k :| 0 <= k < |rs| && rs[k].value == Some(x) {
        if k < n { assert front[k].value == Some(x); }
      }
    }
  }

  function HowMany(rs: seq<Reading>): nat {
    |set k | 0 <= k < |rs| && rs[k].value.Some?|
  }

  lemma {:induction false} CountIs(rs: seq<Reading>)
    ensures |Present(rs)| == HowMany(rs)
  {
    if rs != [] {
      var front, n := rs[..|rs| - 1], |rs| - 1;
      CountIs(front);
      var before := set k | 0 <= k < |front| && front[k].value.Some?;
      var all := set k | 0 <= k < |rs| && rs[k].value.Some?;
      if rs[n].value.Some? { assert all == before + {n}; } else { assert all == before; }
    }
  }

  /** The status kept is the latest of those that none outranks. */
  lemma {:induction false} WorstIsLatest(initial: string, statuses: seq<string>, k: nat)
    requires k < |statuses|
    requires forall j :: 0 <= j < |statuses| ==> StatusRank(statuses[k]) >= StatusRank(statuses[j])
    requires forall j :: k < j < |statuses| ==> StatusRank(statuses[k]) > StatusRank(statuses[j])
    requires StatusRank(statuses[k]) >= StatusRank(initial)
    ensures Worst(initial, statuses) == statuses[k]
    decreases |statuses|
  {
    var front := statuses[..|statuses| - 1];
    if k < |front| {
      WorstIsLatest(initial, front, k);
    } else {
      WorstOutranksAll(initial, front);
    }
  }

  /** The columns of a series: how many readings had a value, the first and the last of
      these, the least and the greatest, and the latest of the worst statuses. */
  lemma SummaryMeans(rs: seq<Reading>)
    requires rs != []
    ensures var s := Summary(rs);
            && s.count == HowMany(rs)
            && (Valueless(rs) ==> s.count == 0 && s.first == s.last == s.minimum == s.maximum == None && s.total == 0.0)
            && (forall k: nat :: FirstValued(rs, k) ==> s.first == rs[k].value)
            && (forall k: nat :: LastValued(rs, k) ==> s.last == rs[k].value)
            && (forall k :: 0 <= k < |rs| && rs[k].value.Some? ==>
                  && s.minimum.Some? && s.minimum.value <= rs[k].value.value
                  && s.maximum.Some? && rs[k].value.value <= s.maximum.value)
            && (s.minimum.Some? ==> exists k :: 0 <= k < |rs| && rs[k].value == s.minimum)
            && (s.maximum.Some? ==> exists k :: 0 <= k < |rs| && rs[k].value == s.maximum)
  {
    PresentNone(rs);
    CountIs(rs);
    forall k: nat | FirstValued(rs, k)
      ensures First(Present(rs)) == rs[k].value
    {
      FirstIs(rs, k);
    }
    forall k: nat | LastValued(rs, k)
      ensures Last(Present(rs)) == rs[k].value
    {
      LastIs(rs, k);
    }
    LeastIs(Present(rs));
    GreatestIs(Present(rs));
    forall k | 0 <= k < |rs| && rs[k].value.Some?
      ensures rs[k].value.value in Present(rs)
    {
      PresentAre(rs, rs[k].value.value);
    }
    if Least(Present(rs)).Some? { PresentAre(rs, Least(Present(rs)).value); }
    if Greatest(Present(rs)).Some? { PresentAre(rs, Greatest(Present(rs)).value); }
  }

  /** Its total is built up value by value, and its status is the latest of the worst. */
  lemma SummaryGrows(rs: seq<Reading>, r: Reading)
    requires rs != []
    ensures Summary([r]).total == (if r.value.Some? then r.value.value else 0.0)
    ensures Summary(rs + [r]).total == Summary(rs).total + (if r.value.Some? then r.value.value else 0.0)
    ensures Summary([r]).status == r.status
    ensures Summary(rs + [r]).status
            == if StatusRank(r.status) >= StatusRank(Summary(rs).status) then r.status else Summary(rs).status
  {
    SummaryOne(r);
    SummarySnoc(rs, r);
  }

  /** The range columns count the samples whose range says so, and keep the latest of
      their worst statuses. */
  lemma RangeColumns(paths: nat, samples: seq<Snapshot>)
    ensures var m := FoldOf(paths, samples);
            && m.sampleCount == |samples|
            && m.highZCount == |set k | 0 <= k < |samples| && samples[k].range.raw == Text("OutOfRange")|
            && (m.highZCount == 0 ==> m.highZStatus == "Good")
  {
    HighCounted(samples);
    if |HighZStatuses(samples)| == 0 { assert HighZStatuses(samples) == []; }
  }

  lemma {:induction false} HighCounted(samples: seq<Snapshot>)
    ensures |HighZStatuses(samples)| == |set k | 0 <= k < |samples| && samples[k].range.raw == Text("OutOfRange")|
  {
    if samples != [] {
      var front, n := samples[..|samples| - 1], |samples| - 1;
      HighCounted(front);
      var before := set k | 0 <= k < |front| && front[k].range.raw == Text("OutOfRange");
      var all := set k | 0 <= k < |samples| && samples[k].range.raw == Text("OutOfRange");
      if samples[n].range.raw == Text("OutOfRange") { assert all == before + {n}; } else { assert all == before; }
    }
  }

  lemma RangeGrows(paths: nat, samples: seq<Snapshot>, s: Snapshot)
    ensures var before, after := FoldOf(paths, samples).highZStatus, FoldOf(paths, samples + [s]).highZStatus;
            var status := if s.range.status == "" then "BadWaitingForInitialData" else s.range.status;
            after == if s.range.raw == Text("OutOfRange") && StatusRank(status) >= StatusRank(before) then status else before
  {
    HighZSnoc(samples, s);
  }

  /** The columns written for a series are its own, with the mean in place of the
      total. */
  lemma EncodedColumns(m: Minute, body: Body, i: nat)
    requires IsEncoding(m, body) && i < |body.series|
    ensures body.sampleCount == m.sampleCount && body.highZCount == m.highZCount && body.highZStatus == m.highZStatus
    ensures var row := body.series[i];
            && row.index in m.series
            && var item := m.series[row.index];
               && row.first == item.first && row.last == item.last
               && row.minimum == item.minimum && row.maximum == item.maximum
               && row.count == item.count && row.status == item.status
               && (if row.mean.Some? then row.count > 0 && row.mean.value * row.count as real == item.total else row.count == 0)
  {
    var item := m.series[body.series[i].index];
    if item.count > 0 { MeanTimesCount(item.total, item.count); }
  }
}
