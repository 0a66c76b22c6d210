/** From the recorder's cache to the replica: what a replicated rollup stands for. */
module RollupShipping {
  import opened RollupFold
  import RollupCache
  import opened HistorianTables
  import opened ReplicationSystem

  // ---------------------------------------------------------------- subsequences

  /** `part` is `whole` with some samples left out. */
  ghost predicate IsPart(part: seq<Snapshot>, whole: seq<Snapshot>) {
    if part == [] then true
    else if whole == [] then false
    else || IsPart(part, whole[..|whole| - 1])
         || (part[|part| - 1] == whole[|whole| - 1] && IsPart(part[..|part| - 1], whole[..|whole| - 1]))
  }

  lemma PartSnoc(part: seq<Snapshot>, whole: seq<Snapshot>, s: Snapshot)
    requires IsPart(part, whole)
    ensures IsPart(part, whole + [s]) && IsPart(part + [s], whole + [s])
  {
    assert (whole + [s])[..|whole|] == whole && (part + [s])[..|part|] == part;
  }

  lemma {:induction false} PrefixIsPart(part: seq<Snapshot>, whole: seq<Snapshot>, n: nat)
    requires IsPart(part, whole) && n <= |part|
    ensures IsPart(part[..n], whole)
    decreases |whole|
  {
    if n == |part| {
      assert part[..n] == part;
    } else if part != [] {
      var front := whole[..|whole| - 1];
      if IsPart(part, front) {
        PrefixIsPart(part, front, n);
      } else {
        PrefixIsPart(part[..|part| - 1], front, n);
        assert part[..|part| - 1][..n] == part[..n];
      }
      if n > 0 { assert IsPart(part[..n], front); }
    }
  }

  // ---------------------------------------------------------------- the recorder

  /** What a minute must account for is what arrived for it, less what crashes lost. */
  lemma {:induction false} KeptIsPart(steps: seq<RollupCache.Step>, bucket: int)
    ensures bucket in RollupCache.Kept(steps) ==> IsPart(RollupCache.Kept(steps)[bucket], RollupCache.PerMinute(steps, bucket))
  {
    if steps != [] {
      var front, step := steps[..|steps| - 1], steps[|steps| - 1];
      var arrived := RollupCache.PerMinute(front, bucket);
      KeptIsPart(front, bucket);
      match step
      case Sample(t, s, _) =>
        if RollupCache.BucketOf(t) == bucket {
          PartSnoc(if bucket in RollupCache.Kept(front) then RollupCache.Kept(front)[bucket] else [], arrived, s);
        } else {
          assert arrived + [] == arrived;
        }
      case Retain(_) => assert arrived + [] == arrived;
      case Stop => assert arrived + [] == arrived;
      case Crash =>
        assert arrived + [] == arrived;
        RollupCache.StaysInStep(front);
        var table := RollupCache.AfterList(front).table;
        if bucket in table {
          PrefixIsPart(RollupCache.Kept(front)[bucket], arrived, |table[bucket]|);
          assert RollupCache.Kept(front)[bucket][..|table[bucket]|] == table[bucket];
        }
    }
  }

  /** Some of the samples that arrived for the minute, in order, fold to this. */
  ghost predicate FoldsSome(paths: nat, arrived: seq<Snapshot>, m: Minute) {
    exists part :: part != [] && IsPart(part, arrived) && m == FoldOf(paths, part)
  }

  /** At any moment, after any crashes, every stored minute folds some of the
      samples that arrived for it: all of them up to some point, less what crashes
      lost. */
  lemma StoredFoldsSome(paths: nat, steps: seq<RollupCache.Step>, bucket: int)
    requires bucket in RollupCache.After(paths, steps).table
    ensures FoldsSome(paths, RollupCache.PerMinute(steps, bucket), RollupCache.After(paths, steps).table[bucket])
  {
    RollupCache.CrashLeavesPrefixes(paths, steps, bucket);
    KeptIsPart(steps, bucket);
    var kept := RollupCache.Kept(steps)[bucket];
    var n :| 0 < n <= |kept| && RollupCache.After(paths, steps).table[bucket] == FoldOf(paths, kept[..n]);
    PrefixIsPart(kept, RollupCache.PerMinute(steps, bucket), n);
  }

  lemma {:induction false} ArrivedGrows(part: seq<Snapshot>, steps: seq<RollupCache.Step>, k: nat, bucket: int)
    requires k <= |steps| && IsPart(part, RollupCache.PerMinute(steps[..k], bucket))
    ensures IsPart(part, RollupCache.PerMinute(steps, bucket))
    decreases |steps|
  {
    if k == |steps| {
      assert steps[..k] == steps;
    } else {
      var front, step := steps[..|steps| - 1], steps[|steps| - 1];
      assert front[..k] == steps[..k];
      ArrivedGrows(part, front, k, bucket);
      if step.Sample? && RollupCache.BucketOf(step.timeUs) == bucket {
        PartSnoc(part, RollupCache.PerMinute(front, bucket), step.snapshot);
      } else {
        assert RollupCache.PerMinute(front, bucket) + [] == RollupCache.PerMinute(front, bucket);
      }
    }
  }

  /** What was stored at some moment folds some of all that ever arrives. */
  lemma StoredOnceFoldsSome(paths: nat, recorder: seq<RollupCache.Step>, k: nat, bucket: int)
    requires k <= |recorder| && bucket in RollupCache.After(paths, recorder[..k]).table
    ensures FoldsSome(paths, RollupCache.PerMinute(recorder, bucket), RollupCache.After(paths, recorder[..k]).table[bucket])
  {
    StoredFoldsSome(paths, recorder[..k], bucket);
    var part :| part != [] && IsPart(part, RollupCache.PerMinute(recorder[..k], bucket))
                && RollupCache.After(paths, recorder[..k]).table[bucket] == FoldOf(paths, part);
    ArrivedGrows(part, recorder, k, bucket);
  }

  // ------------------------------------------------------------------ the replica

  lemma EverStep(s: System, step: Step, t: Table, r: Row)
    requires t in s.past.links && t in Next(s, step).past.links
    requires r in Next(s, step).past.links[t].ever
    ensures r in s.past.links[t].ever || step == EdgeWrite(r)
  {
  }

  /** Every row the edge ever had was written by a step of the run. */
  lemma {:induction false} EverWasWritten(states: seq<System>, steps: seq<Step>, n: nat, t: Table, r: Row)
    requires IsRun(states, steps) && n < |states| && t in states[n].past.links && r in states[n].past.links[t].ever
    ensures exists k :: 0 <= k < n && steps[k] == EdgeWrite(r)
  {
    if n > 0 {
      OkThroughout(states, steps, n - 1);
      assert TableOk(states[n - 1], t);
      EverStep(states[n - 1], steps[n - 1], t, r);
      if steps[n - 1] != EdgeWrite(r) {
        EverWasWritten(states, steps, n - 1, t, r);
      }
    }
  }

  /** The row holds what the recorder's table held for its minute at some moment. */
  ghost predicate FromRecorder(paths: nat, recorder: seq<RollupCache.Step>, bodyOf: Blob -> Body, row: Row) {
    && row.RollupRow?
    && exists k: nat :: k <= |recorder| && row.bucket in RollupCache.After(paths, recorder[..k]).table
                        && Decoded(bodyOf(row.payload)) == RollupCache.After(paths, recorder[..k]).table[row.bucket]
  }

  /** If the edge writes rollups only from its recorder, then in every reachable
      state each rollup on the replica decodes to the fold of samples that arrived
      for its minute, in order, less what crashes lost. */
  lemma ReplicaRollupsFoldSamples(states: seq<System>, steps: seq<Step>, n: nat, paths: nat, recorder: seq<RollupCache.Step>,
                                  bodyOf: Blob -> Body, bucket: int)
    requires IsRun(states, steps) && n < |states| && bucket in states[n].replica.rollup
    requires forall k :: 0 <= k < n && steps[k].EdgeWrite? && steps[k].row.RollupRow? ==>
                           FromRecorder(paths, recorder, bodyOf, steps[k].row)
    ensures var row := states[n].replica.rollup[bucket];
            && row.RollupRow? && row.bucket == bucket
            && FoldsSome(paths, RollupCache.PerMinute(recorder, bucket), Decoded(bodyOf(row.payload)))
  {
    OkThroughout(states, steps, n);
    assert TableOk(states[n], MinuteRollup);
    var row := states[n].replica.rollup[bucket];
    assert row == states[n].past.links[MinuteRollup].mirror[bucket];
    EverWasWritten(states, steps, n, MinuteRollup, row);
    var w :| 0 <= w < n && steps[w] == EdgeWrite(row);
    assert FromRecorder(paths, recorder, bodyOf, steps[w].row);
    var k: nat :| k <= |recorder| && row.bucket in RollupCache.After(paths, recorder[..k]).table
                  && Decoded(bodyOf(row.payload)) == RollupCache.After(paths, recorder[..k]).table[row.bucket];
    StoredOnceFoldsSome(paths, recorder, k, bucket);
  }
}
