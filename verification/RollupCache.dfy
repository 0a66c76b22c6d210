/** The recorder's one accumulator in front of the rollup table: a write-back
    cache of a single line. */
module RollupCache {
  import opened Wrappers
  import opened RollupFold
  import opened MinuteRollups

  const MINUTE_US := 60_000_000

  /** The whole minute the time falls into. */
  function BucketOf(timeUs: int): (bucket: int)
    ensures bucket <= timeUs < bucket + 60_000_000 && bucket % 60_000_000 == 0
  {
    timeUs / MINUTE_US * MINUTE_US
  }

  // -------------------------------------------------------------- the cache

  datatype Line<T> = Line(bucket: int, item: T)

  /** The table and the line held in memory.  The items are minutes; to say
      what those mean, also lists of samples. */
  datatype Cache<T> = Cache(table: map<int, T>, line: Option<Line<T>>)

  /** The table with the line laid over it. */
  function Overlay<T>(c: Cache<T>): map<int, T> {
    if c.line.None? then c.table else c.table[c.line.value.bucket := c.line.value.item]
  }

  function Flushed<T>(c: Cache<T>): Cache<T> {
    c.(table := Overlay(c))
  }

  /** Write the line back and load, or start, the line of `bucket`. */
  function Focus<T>(c: Cache<T>, bucket: int, empty: T): (f: Cache<T>)
    ensures f.line.Some? && f.line.value.bucket == bucket
  {
    if c.line.Some? && c.line.value.bucket == bucket then c
    else
      var table := Overlay(c);
      Cache(table, Some(Line(bucket, if bucket in table then table[bucket] else empty)))
  }

  function Put<T>(c: Cache<T>, item: T, flush: bool): Cache<T>
    requires c.line.Some?
  {
    var updated := c.(line := Some(Line(c.line.value.bucket, item)));
    if flush then Flushed(updated) else updated
  }

  function Sampled(paths: nat, c: Cache<Minute>, bucket: int, s: Snapshot, flush: bool): Cache<Minute> {
    var f := Focus(c, bucket, EMPTY_MINUTE);
    Put(f, Extend(paths, f.line.value.item, s), flush)
  }

  /** Rows as stored: encoded bodies by bucket. */
  type Table = map<int, Body>

  function DecodedTable(table: Table): map<int, Minute> {
    map b | b in table :: Decoded(table[b])
  }

  class HistorianRecorder {
    const paths: nat
    var table: Table
    var rollup: MinuteAccumulator?
    var lastFlush: real

    ghost predicate Valid()
      reads this, rollup
    {
      rollup != null ==> Consistent(rollup.View())
    }

    ghost function View(): Cache<Minute>
      reads this, rollup
    {
      Cache(DecodedTable(table), if rollup == null then None else Some(Line(rollup.bucketUs, rollup.View())))
    }

    constructor (paths: nat, table: Table)
      ensures Valid() && this.paths == paths && View() == Cache(DecodedTable(table), None)
    {
      this.paths, this.table, rollup, lastFlush := paths, table, null, 0.0;
    }

    method WriteRollup(accumulator: MinuteAccumulator)
      requires Valid() && Consistent(accumulator.View())
      modifies this`table
      ensures Valid()
      ensures DecodedTable(table) == old(DecodedTable(table))[accumulator.bucketUs := accumulator.View()]
      ensures accumulator.bucketUs in table && Decoded(table[accumulator.bucketUs]) == accumulator.View()
    {
      var body := accumulator.Encode();
      DecodeEncode(accumulator.View(), body);
      table := table[accumulator.bucketUs := body];
    }

    method LoadRollup(bucket: int) returns (accumulator: MinuteAccumulator?)
      ensures accumulator == null <==> bucket !in table
      ensures accumulator != null ==>
                fresh(accumulator) && accumulator.bucketUs == bucket && accumulator.View() == Decoded(table[bucket])
    {
      if bucket in table {
        accumulator := MinuteAccumulator.Decode(bucket, table[bucket]);
      } else {
        accumulator := null;
      }
    }

    /** The line of another minute is written back before this one is loaded. */
    method SwitchTo(bucket: int)
      requires Valid() && AllConsistent(DecodedTable(table))
      modifies this`table, this`rollup
      ensures Valid() && AllConsistent(DecodedTable(table))
      ensures rollup != null && (rollup == old(rollup) || fresh(rollup))
      ensures View() == Focus(old(View()), bucket, EMPTY_MINUTE)
    {
      if rollup == null || rollup.bucketUs != bucket {
        if rollup != null {
          WriteRollup(rollup);
        }
        var existing := LoadRollup(bucket);
        if existing == null {
          existing := new MinuteAccumulator(bucket);
        }
        assert DecodedTable(table) == Overlay(old(View()));
        assert bucket in table ==> Consistent(DecodedTable(table)[bucket]);
        rollup := existing;
      }
    }

    /** `_update_rollup`: switch lines if need be, update the line, and write it
        through when ten seconds have passed since the last time. */
    method UpdateRollup(snapshot: Snapshot, receiveTimeUs: int, monotonic: real)
      requires Valid() && AllConsistent(DecodedTable(table))
      modifies this, rollup
      ensures Valid() && AllConsistent(DecodedTable(table))
      ensures rollup != null && (rollup == old(rollup) || fresh(rollup))
      ensures View() == Sampled(paths, old(View()), BucketOf(receiveTimeUs), snapshot,
                                monotonic - old(lastFlush) >= 10.0)
      ensures rollup.bucketUs == BucketOf(receiveTimeUs)
      ensures if monotonic - old(lastFlush) >= 10.0
              then && lastFlush == monotonic && rollup.bucketUs in table
                   && Decoded(table[rollup.bucketUs]) == rollup.View()
              else lastFlush == old(lastFlush)
    {
      SwitchTo(receiveTimeUs / MINUTE_US * MINUTE_US);
      ExtendIsConsistent(paths, rollup.View(), snapshot);
      rollup.Update(paths, snapshot);
      if monotonic - lastFlush >= 10.0 {
        WriteRollup(rollup);
        lastFlush := monotonic;
      }
    }

    /** A clean stop writes the line back. */
    method Stop()
      requires Valid()
      modifies this
      ensures Valid() && View() == Flushed(old(View()))
    {
      if rollup != null {
        WriteRollup(rollup);
      }
    }
  }

  ghost predicate AllConsistent(table: map<int, Minute>) {
    forall b :: b in table ==> Consistent(table[b])
  }

  lemma ExtendIsConsistent(paths: nat, m: Minute, s: Snapshot)
    requires Consistent(m)
    ensures Consistent(Extend(paths, m, s))
  {
    var series := ExtendSeries(paths, m.series, s);
    forall i | i in series && series[i].count == 0
      ensures series[i].total == 0.0
    {
      ExtendSeriesAt(paths, m.series, s, i);
    }
  }

  // ------------------------------------------------------------------- runs

  datatype Step =
    | Sample(timeUs: int, snapshot: Snapshot, flush: bool)
    | Retain(cutoff: int)
    | Stop
    | Crash

  function Old<T>(table: map<int, T>, cutoff: int): set<int> {
    set b | b in table && b < cutoff
  }

  function Next(paths: nat, c: Cache<Minute>, step: Step): Cache<Minute> {
    match step
    case Sample(t, s, flush) => Sampled(paths, c, BucketOf(t), s, flush)
    case Retain(cutoff) => c.(table := c.table - Old(c.table, cutoff))
    case Stop => Flushed(c).(line := None)
    case Crash => c.(line := None)
  }

  function After(paths: nat, steps: seq<Step>): Cache<Minute> {
    if steps == [] then Cache(map[], None) else Next(paths, After(paths, steps[..|steps| - 1]), steps[|steps| - 1])
  }

  // The same machine over lists of samples shows what each minute stands for.

  function NextList(c: Cache<seq<Snapshot>>, step: Step): Cache<seq<Snapshot>> {
    match step
    case Sample(t, s, flush) =>
      var f := Focus(c, BucketOf(t), []);
      Put(f, f.line.value.item + [s], flush)
    case Retain(cutoff) => c.(table := c.table - Old(c.table, cutoff))
    case Stop => Flushed(c).(line := None)
    case Crash => c.(line := None)
  }

  function AfterList(steps: seq<Step>): Cache<seq<Snapshot>> {
    if steps == [] then Cache(map[], None) else NextList(AfterList(steps[..|steps| - 1]), steps[|steps| - 1])
  }

  function Folds(paths: nat, lists: map<int, seq<Snapshot>>): map<int, Minute> {
    map b | b in lists :: FoldOf(paths, lists[b])
  }

  function FoldCache(paths: nat, c: Cache<seq<Snapshot>>): Cache<Minute> {
    Cache(Folds(paths, c.table),
          if c.line.None? then None else Some(Line(c.line.value.bucket, FoldOf(paths, c.line.value.item))))
  }

  lemma EmptyFold(paths: nat)
    ensures FoldOf(paths, []) == EMPTY_MINUTE
  {
  }

  lemma OverlayFolds(paths: nat, c: Cache<seq<Snapshot>>)
    ensures Overlay(FoldCache(paths, c)) == Folds(paths, Overlay(c))
  {
  }

  lemma FocusFolds(paths: nat, c: Cache<seq<Snapshot>>, bucket: int)
    ensures Focus(FoldCache(paths, c), bucket, EMPTY_MINUTE) == FoldCache(paths, Focus(c, bucket, []))
  {
    EmptyFold(paths);
    OverlayFolds(paths, c);
  }

  lemma PutFolds(paths: nat, c: Cache<seq<Snapshot>>, item: seq<Snapshot>, flush: bool)
    requires c.line.Some?
    ensures Put(FoldCache(paths, c), FoldOf(paths, item), flush) == FoldCache(paths, Put(c, item, flush))
  {
    OverlayFolds(paths, c.(line := Some(Line(c.line.value.bucket, item))));
  }

  /** Each step of the recorder is the fold of the same step over lists. */
  lemma NextFolds(paths: nat, c: Cache<seq<Snapshot>>, step: Step)
    ensures Next(paths, FoldCache(paths, c), step) == FoldCache(paths, NextList(c, step))
  {
    match step
    case Sample(t, s, flush) =>
      var f := Focus(c, BucketOf(t), []);
      FocusFolds(paths, c, BucketOf(t));
      FoldSnoc(paths, f.line.value.item, s);
      PutFolds(paths, f, f.line.value.item + [s], flush);
    case Retain(cutoff) =>
      assert Old(Folds(paths, c.table), cutoff) == Old(c.table, cutoff);
      assert Folds(paths, c.table - Old(c.table, cutoff)) == Folds(paths, c.table) - Old(c.table, cutoff);
    case Stop => OverlayFolds(paths, c);
    case Crash =>
  }

  lemma {:induction false} RecorderFolds(paths: nat, steps: seq<Step>)
    ensures After(paths, steps) == FoldCache(paths, AfterList(steps))
  {
    if steps != [] {
      var front := steps[..|steps| - 1];
      RecorderFolds(paths, front);
      NextFolds(paths, AfterList(front), steps[|steps| - 1]);
    } else {
      assert Folds(paths, map[]) == map[];
    }
  }

  /** The samples each minute must account for, kept by rules of their own:
      every sample joins its minute; retention drops old minutes except the one
      in memory; a crash drops what was not yet written. */
  function Kept(steps: seq<Step>): map<int, seq<Snapshot>> {
    if steps == [] then map[]
    else
      var front, step := steps[..|steps| - 1], steps[|steps| - 1];
      var kept, c := Kept(front), AfterList(front);
      match step
      case Sample(t, s, _) => kept[BucketOf(t) := (if BucketOf(t) in kept then kept[BucketOf(t)] else []) + [s]]
      case Retain(cutoff) =>
        kept - (if c.line.Some? then Old(kept, cutoff) - {c.line.value.bucket} else Old(kept, cutoff))
      case Stop => kept
      case Crash => c.table
  }

  /** The table is in step with the kept samples except, perhaps, for the cached
      minute, of which it has a non-empty prefix or nothing. */
  ghost predicate InStep(c: Cache<seq<Snapshot>>, kept: map<int, seq<Snapshot>>) {
    && Overlay(c) == kept
    && (forall b :: b in kept ==> kept[b] != [])
    && (forall b :: b in c.table ==> c.table[b] != [] && b in kept && c.table[b] <= kept[b])
  }

  lemma FocusStaysInStep(c: Cache<seq<Snapshot>>, kept: map<int, seq<Snapshot>>, b: int)
    requires InStep(c, kept)
    ensures var f, samples := Focus(c, b, []), if b in kept then kept[b] else [];
            && f.line == Some(Line(b, samples))
            && f.table.Keys + {b} == kept.Keys + {b}
            && (forall k :: k in f.table ==> k in kept && f.table[k] != [] && f.table[k] <= kept[k])
            && (forall k :: k in f.table && k != b ==> f.table[k] == kept[k])
  {
  }

  lemma PutStaysInStep(f: Cache<seq<Snapshot>>, kept: map<int, seq<Snapshot>>, samples: seq<Snapshot>, s: Snapshot, flush: bool)
    requires f.line.Some? && f.line.value.item == samples
    requires samples == if f.line.value.bucket in kept then kept[f.line.value.bucket] else []
    requires f.table.Keys + {f.line.value.bucket} == kept.Keys + {f.line.value.bucket}
    requires forall k :: k in kept ==> kept[k] != []
    requires forall k :: k in f.table ==> k in kept && f.table[k] != [] && f.table[k] <= kept[k]
    requires forall k :: k in f.table && k != f.line.value.bucket ==> f.table[k] == kept[k]
    ensures InStep(Put(f, samples + [s], flush), kept[f.line.value.bucket := samples + [s]])
  {
    var b, more := f.line.value.bucket, samples + [s];
    var updated := f.(line := Some(Line(b, more)));
    var o := Overlay(updated);
    forall k
      ensures k in o <==> k in kept[b := more]
      ensures k in o ==> o[k] == kept[b := more][k]
    {
      assert k in f.table.Keys + {b} <==> k in kept.Keys + {b};
    }
    assert o == kept[b := more];
    assert samples <= more;
  }

  lemma SampleStaysInStep(c: Cache<seq<Snapshot>>, kept: map<int, seq<Snapshot>>, t: int, s: Snapshot, flush: bool)
    requires InStep(c, kept)
    ensures InStep(NextList(c, Sample(t, s, flush)),
                   kept[BucketOf(t) := (if BucketOf(t) in kept then kept[BucketOf(t)] else []) + [s]])
  {
    var b := BucketOf(t);
    FocusStaysInStep(c, kept, b);
    PutStaysInStep(Focus(c, b, []), kept, if b in kept then kept[b] else [], s, flush);
  }

  lemma RetainStaysInStep(c: Cache<seq<Snapshot>>, kept: map<int, seq<Snapshot>>, cutoff: int)
    requires InStep(c, kept)
    ensures InStep(NextList(c, Retain(cutoff)),
                   kept - (if c.line.Some? then Old(kept, cutoff) - {c.line.value.bucket} else Old(kept, cutoff)))
  {
    var left := kept - (if c.line.Some? then Old(kept, cutoff) - {c.line.value.bucket} else Old(kept, cutoff));
    var o := Overlay(NextList(c, Retain(cutoff)));
    assert o.Keys == left.Keys;
    assert forall k :: k in o ==> o[k] == left[k];
    assert o == left;
  }

  lemma NextStaysInStep(steps: seq<Step>)
    requires steps != [] && InStep(AfterList(steps[..|steps| - 1]), Kept(steps[..|steps| - 1]))
    ensures InStep(AfterList(steps), Kept(steps))
  {
    var c, kept := AfterList(steps[..|steps| - 1]), Kept(steps[..|steps| - 1]);
    match steps[|steps| - 1]
    case Sample(t, s, flush) => SampleStaysInStep(c, kept, t, s, flush);
    case Retain(cutoff) => RetainStaysInStep(c, kept, cutoff);
    case Stop =>
    case Crash =>
  }

  lemma {:induction false} StaysInStep(steps: seq<Step>)
    ensures InStep(AfterList(steps), Kept(steps))
  {
    if steps != [] {
      StaysInStep(steps[..|steps| - 1]);
      NextStaysInStep(steps);
    }
  }

  // ----------------------------------------------------------- main theorems

  /** In any order of minutes, clock jumps and crashes included, table and line
      together are the per-minute fold of the kept samples. */
  lemma OverlayIsTheFold(paths: nat, steps: seq<Step>)
    ensures Overlay(After(paths, steps)) == Folds(paths, Kept(steps))
  {
    RecorderFolds(paths, steps);
    StaysInStep(steps);
    OverlayFolds(paths, AfterList(steps));
  }

  /** At any point a crash would leave, for every minute stored, the fold of a
      prefix of its samples. */
  lemma CrashLeavesPrefixes(paths: nat, steps: seq<Step>, bucket: int)
    requires bucket in After(paths, steps).table
    ensures bucket in Kept(steps)
    ensures exists n :: 0 < n <= |Kept(steps)[bucket]|
                        && After(paths, steps).table[bucket] == FoldOf(paths, Kept(steps)[bucket][..n])
  {
    RecorderFolds(paths, steps);
    StaysInStep(steps);
    var stored, samples := AfterList(steps).table[bucket], Kept(steps)[bucket];
    assert stored == samples[..|stored|];
  }

  /** A crash loses at most a tail of the one minute in memory. */
  lemma CrashLosesOneTail(steps: seq<Step>, bucket: int)
    requires bucket in Kept(steps)
    ensures var c, kept := AfterList(steps), Kept(steps + [Crash]);
            && (bucket in kept ==> kept[bucket] <= Kept(steps)[bucket])
            && (c.line.None? || c.line.value.bucket != bucket ==> bucket in kept && kept[bucket] == Kept(steps)[bucket])
  {
    StaysInStep(steps);
    assert (steps + [Crash])[..|steps|] == steps;
  }

  /** The samples of each minute, in order of arrival. */
  function PerMinute(steps: seq<Step>, bucket: int): seq<Snapshot> {
    if steps == [] then []
    else
      var step := steps[|steps| - 1];
      PerMinute(steps[..|steps| - 1], bucket)
      + if step.Sample? && BucketOf(step.timeUs) == bucket then [step.snapshot] else []
  }

  lemma {:induction false} NothingLost(steps: seq<Step>, bucket: int)
    requires forall i :: 0 <= i < |steps| ==> steps[i].Sample? || steps[i].Stop?
    ensures (if bucket in Kept(steps) then Kept(steps)[bucket] else []) == PerMinute(steps, bucket)
  {
    if steps != [] {
      NothingLost(steps[..|steps| - 1], bucket);
    }
  }

  /** Without crashes and retention, a clean stop leaves exactly the fold of all
      samples, minute by minute, on disk. */
  lemma CleanStopLeavesTheFold(paths: nat, steps: seq<Step>, bucket: int)
    requires forall i :: 0 <= i < |steps| ==> steps[i].Sample? || steps[i].Stop?
    requires steps != [] && steps[|steps| - 1].Stop?
    ensures After(paths, steps).line == None
    ensures bucket in After(paths, steps).table <==> PerMinute(steps, bucket) != []
    ensures bucket in After(paths, steps).table ==>
              After(paths, steps).table[bucket] == FoldOf(paths, PerMinute(steps, bucket))
  {
    NothingLost(steps, bucket);
    StaysInStep(steps);
    OverlayIsTheFold(paths, steps);
  }
}
