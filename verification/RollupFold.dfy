/** One minute of samples, and what a rollup of it means. */
module RollupFold {
  import opened Wrappers

  // ------------------------------------------------------------------ samples

  datatype Raw = Absent | Number(number: real) | NonFinite | Flag(flag: bool) | Text(text: string)

  /** `finite_number`. */
  function FiniteNumber(raw: Raw): Option<real> {
    match raw
    case Number(r) => Some(r)
    case Flag(b) => Some(if b then 1.0 else 0.0)
    case _ => None
  }

  /** What one path of a snapshot carries; an empty status stands for none. */
  datatype Payload = Payload(raw: Raw, status: string)

  const NOTHING := Payload(Absent, "")

  /** The rolled-up paths, by index, and the resistance range. */
  datatype Snapshot = Snapshot(values: map<int, Payload>, range: Payload)

  function StatusOf(p: Payload): string {
    if p.status == "" then "BadWaitingForInitialData" else p.status
  }

  function Lower(c: char): char {
    if 'A' <= c <= 'Z' then c - 'A' + 'a' else c
  }

  function Lowered(s: string): string {
    seq(|s|, i requires 0 <= i < |s| => Lower(s[i]))
  }

  function StatusRank(status: string): int {
    var lowered := Lowered(status);
    if "bad" <= lowered then 3
    else if "uncertain" <= lowered then 2
    else if lowered == "good" then 0
    else 1
  }

  lemma GoodRanksLowest()
    ensures StatusRank("Good") == 0
  {
    var lowered := Lowered("Good");
    assert lowered[0] == 'g' && lowered[1] == 'o' && lowered[2] == 'o' && lowered[3] == 'd';
    assert lowered == "good";
    assert "bad"[0] != lowered[0] && "uncertain"[0] != lowered[0];
  }

  datatype Reading = Reading(value: Option<real>, status: string)

  function ReadingOf(s: Snapshot, index: int): Reading {
    var p := if index in s.values then s.values[index] else NOTHING;
    Reading(FiniteNumber(p.raw), StatusOf(p))
  }

  function Readings(samples: seq<Snapshot>, index: int): seq<Reading> {
    seq(|samples|, i requires 0 <= i < |samples| => ReadingOf(samples[i], index))
  }

  predicate IsHighZ(s: Snapshot) {
    s.range.raw == Text("OutOfRange")
  }

  // ---------------------------------------------------- folds over whole lists

  /** The values present, in order. */
  function Present(rs: seq<Reading>): seq<real> {
    if rs == [] then []
    else Present(rs[..|rs| - 1]) + (var last := rs[|rs| - 1]; if last.value.Some? then [last.value.value] else [])
  }

  function Sum(xs: seq<real>): real {
    if xs == [] then 0.0 else Sum(xs[..|xs| - 1]) + xs[|xs| - 1]
  }

  function Least(xs: seq<real>): Option<real> {
    if xs == [] then None
    else
      var x := xs[|xs| - 1];
      match Least(xs[..|xs| - 1])
      case None => Some(x)
      case Some(y) => Some(if x < y then x else y)
  }

  function Greatest(xs: seq<real>): Option<real> {
    if xs == [] then None
    else
      var x := xs[|xs| - 1];
      match Greatest(xs[..|xs| - 1])
      case None => Some(x)
      case Some(y) => Some(if x > y then x else y)
  }

  function First(xs: seq<real>): Option<real> {
    if xs == [] then None else Some(xs[0])
  }

  function Last(xs: seq<real>): Option<real> {
    if xs == [] then None else Some(xs[|xs| - 1])
  }

  function Statuses(rs: seq<Reading>): seq<string> {
    seq(|rs|, i requires 0 <= i < |rs| => rs[i].status)
  }

  /** The worst status, starting from `initial`; of equals the latest. */
  function Worst(initial: string, statuses: seq<string>): string {
    if statuses == [] then initial
    else
      var s, w := statuses[|statuses| - 1], Worst(initial, statuses[..|statuses| - 1]);
      if StatusRank(s) >= StatusRank(w) then s else w
  }

  function HighZStatuses(samples: seq<Snapshot>): seq<string> {
    if samples == [] then []
    else
      var s := samples[|samples| - 1];
      HighZStatuses(samples[..|samples| - 1]) + if IsHighZ(s) then [StatusOf(s.range)] else []
  }

  /** One series of one minute. */
  datatype Stat = Stat(
    first: Option<real>,
    last: Option<real>,
    minimum: Option<real>,
    maximum: Option<real>,
    total: real,
    count: nat,
    status: string)

  function Summary(rs: seq<Reading>): Stat
    requires rs != []
  {
    var xs := Present(rs);
    Stat(First(xs), Last(xs), Least(xs), Greatest(xs), Sum(xs), |xs|, Worst(rs[0].status, Statuses(rs)))
  }

  datatype Minute = Minute(sampleCount: nat, highZCount: nat, highZStatus: string, series: map<int, Stat>)

  const EMPTY_MINUTE := Minute(0, 0, "Good", map[])

  function Tabulate<T>(n: nat, f: int -> T): map<int, T> {
    if n == 0 then map[] else Tabulate(n - 1, f)[n - 1 := f(n - 1)]
  }

  lemma {:induction false} TabulateAt<T>(n: nat, f: int -> T, i: int)
    ensures i in Tabulate(n, f) <==> 0 <= i < n
    ensures 0 <= i < n ==> Tabulate(n, f)[i] == f(i)
  {
    if n > 0 {
      TabulateAt(n - 1, f, i);
    }
  }

  /** One summary per series, once there is a sample at all. */
  function SeriesFold(paths: nat, samples: seq<Snapshot>): map<int, Stat> {
    if samples == [] then map[] else Tabulate(paths, i => Summary(Readings(samples, i)))
  }

  lemma SeriesFoldAt(paths: nat, samples: seq<Snapshot>, i: int)
    ensures i in SeriesFold(paths, samples) <==> samples != [] && 0 <= i < paths
    ensures i in SeriesFold(paths, samples) ==> SeriesFold(paths, samples)[i] == Summary(Readings(samples, i))
  {
    if samples != [] {
      TabulateAt(paths, i => Summary(Readings(samples, i)), i);
    }
  }

  /** What a rollup of these samples over `paths` series means. */
  function FoldOf(paths: nat, samples: seq<Snapshot>): Minute {
    Minute(
      |samples|,
      |HighZStatuses(samples)|,
      Worst("Good", HighZStatuses(samples)),
      SeriesFold(paths, samples))
  }

  // ------------------------------------------------------------- one more sample

  /** One more reading of a series. */
  function ExtendStat(old_: Option<Stat>, r: Reading): Stat {
    match old_
    case None =>
      Stat(r.value, r.value, r.value, r.value, if r.value.Some? then r.value.value else 0.0, if r.value.Some? then 1 else 0, r.status)
    case Some(s) =>
      var status := if StatusRank(r.status) >= StatusRank(s.status) then r.status else s.status;
      if r.value.None? then s.(status := status)
      else
        var v := r.value.value;
        Stat(if s.count == 0 then Some(v) else s.first,
             Some(v),
             if s.count == 0 || s.minimum.None? || v < s.minimum.value then Some(v) else s.minimum,
             if s.count == 0 || s.maximum.None? || v > s.maximum.value then Some(v) else s.maximum,
             s.total + v,
             s.count + 1,
             status)
  }

  function Extend(paths: nat, m: Minute, s: Snapshot): Minute {
    var high := IsHighZ(s);
    var status := StatusOf(s.range);
    Minute(
      m.sampleCount + 1,
      m.highZCount + if high then 1 else 0,
      if high && StatusRank(status) >= StatusRank(m.highZStatus) then status else m.highZStatus,
      ExtendSeries(paths, m.series, s))
  }

  /** The first `paths` series take in one reading each. */
  function ExtendSeries(paths: nat, series: map<int, Stat>, s: Snapshot): map<int, Stat> {
    if paths == 0 then series
    else
      var i := paths - 1;
      ExtendSeries(i, series, s)[i := ExtendStat(if i in series then Some(series[i]) else None, ReadingOf(s, i))]
  }

  lemma {:induction false} ExtendSeriesAt(paths: nat, series: map<int, Stat>, s: Snapshot, i: int)
    ensures i in ExtendSeries(paths, series, s) <==> i in series || 0 <= i < paths
    ensures 0 <= i < paths ==>
              ExtendSeries(paths, series, s)[i] == ExtendStat(if i in series then Some(series[i]) else None, ReadingOf(s, i))
    ensures i in series && !(0 <= i < paths) ==> ExtendSeries(paths, series, s)[i] == series[i]
  {
    if paths > 0 {
      ExtendSeriesAt(paths - 1, series, s, i);
    }
  }

  lemma ReadingsSnoc(samples: seq<Snapshot>, s: Snapshot, i: int)
    ensures Readings(samples + [s], i) == Readings(samples, i) + [ReadingOf(s, i)]
  {
  }

  lemma SummaryOne(r: Reading)
    ensures Summary([r]) == ExtendStat(None, r)
  {
    var rs := [r];
    assert rs[..0] == [] && Present(rs[..0]) == [];
    assert Statuses(rs) == [r.status] && Statuses(rs)[..0] == [];
    assert Worst(r.status, Statuses(rs)) == r.status;
    var xs := Present(rs);
    if r.value.Some? {
      var v := r.value.value;
      assert xs == [v] && xs[..0] == [];
      assert Least(xs[..0]) == None && Greatest(xs[..0]) == None && Sum(xs[..0]) == 0.0;
    } else {
      assert xs == [];
    }
  }

  lemma SummarySnoc(rs: seq<Reading>, r: Reading)
    requires rs != []
    ensures Summary(rs + [r]) == ExtendStat(Some(Summary(rs)), r)
  {
    var more := rs + [r];
    assert more[..|rs|] == rs;
    assert Statuses(more)[..|rs|] == Statuses(rs) && Statuses(more)[|rs|] == r.status;
    var xs, ys := Present(rs), Present(more);
    if r.value.Some? {
      assert ys == xs + [r.value.value] && ys[..|xs|] == xs;
    } else {
      assert ys == xs;
    }
  }

  lemma HighZSnoc(samples: seq<Snapshot>, s: Snapshot)
    ensures var w, v := Worst("Good", HighZStatuses(samples)), Worst("Good", HighZStatuses(samples + [s]));
            && |HighZStatuses(samples + [s])| == |HighZStatuses(samples)| + (if IsHighZ(s) then 1 else 0)
            && v == if IsHighZ(s) && StatusRank(StatusOf(s.range)) >= StatusRank(w) then StatusOf(s.range) else w
  {
    var more := samples + [s];
    assert more[..|samples|] == samples;
    var high, highs := HighZStatuses(samples), HighZStatuses(more);
    if IsHighZ(s) {
      assert highs == high + [StatusOf(s.range)] && highs[..|high|] == high;
    } else {
      assert highs == high;
    }
  }

  lemma StatSnoc(samples: seq<Snapshot>, s: Snapshot, i: int)
    ensures Summary(Readings(samples + [s], i))
            == ExtendStat(if samples == [] then None else Some(Summary(Readings(samples, i))), ReadingOf(s, i))
  {
    ReadingsSnoc(samples, s, i);
    if samples == [] {
      assert Readings(samples + [s], i) == [ReadingOf(s, i)];
      SummaryOne(ReadingOf(s, i));
    } else {
      SummarySnoc(Readings(samples, i), ReadingOf(s, i));
    }
  }

  lemma SeriesFoldSnocAt(paths: nat, samples: seq<Snapshot>, s: Snapshot, i: int)
    ensures var a, b := ExtendSeries(paths, SeriesFold(paths, samples), s), SeriesFold(paths, samples + [s]);
            (i in a <==> i in b) && (i in a ==> a[i] == b[i])
  {
    ExtendSeriesAt(paths, SeriesFold(paths, samples), s, i);
    SeriesFoldAt(paths, samples, i);
    SeriesFoldAt(paths, samples + [s], i);
    if 0 <= i < paths {
      StatSnoc(samples, s, i);
    }
  }

  lemma SeriesFoldSnoc(paths: nat, samples: seq<Snapshot>, s: Snapshot)
    ensures ExtendSeries(paths, SeriesFold(paths, samples), s) == SeriesFold(paths, samples + [s])
  {
    var a, b := ExtendSeries(paths, SeriesFold(paths, samples), s), SeriesFold(paths, samples + [s]);
    forall i
      ensures i in a <==> i in b
      ensures i in a ==> a[i] == b[i]
    {
      SeriesFoldSnocAt(paths, samples, s, i);
    }
    assert a == b;
  }

  /** Extending the fold of some samples is the fold of one sample more. */
  lemma FoldSnoc(paths: nat, samples: seq<Snapshot>, s: Snapshot)
    ensures Extend(paths, FoldOf(paths, samples), s) == FoldOf(paths, samples + [s])
  {
    HighZSnoc(samples, s);
    SeriesFoldSnoc(paths, samples, s);
  }

  /** The worst status really is one of them, and none outranks it. */
  lemma {:induction false} WorstOutranksAll(initial: string, statuses: seq<string>)
    ensures Worst(initial, statuses) == initial || Worst(initial, statuses) in statuses
    ensures StatusRank(Worst(initial, statuses)) >= StatusRank(initial)
    ensures forall i :: 0 <= i < |statuses| ==> StatusRank(Worst(initial, statuses)) >= StatusRank(statuses[i])
  {
    if statuses != [] {
      WorstOutranksAll(initial, statuses[..|statuses| - 1]);
    }
  }

  // ------------------------------------------------------------- serialisation

  datatype SeriesRow = SeriesRow(
    index: int,
    first: Option<real>,
    last: Option<real>,
    minimum: Option<real>,
    maximum: Option<real>,
    mean: Option<real>,
    count: nat,
    status: string)

  /** The JSON body; compression around it is injective. */
  datatype Body = Body(sampleCount: nat, highZCount: nat, highZStatus: string, series: seq<SeriesRow>)

  function RowOf(index: int, s: Stat): SeriesRow {
    SeriesRow(index, s.first, s.last, s.minimum, s.maximum,
              if s.count == 0 then None else Some(s.total / s.count as real), s.count, s.status)
  }

  function StatOf(r: SeriesRow): Stat {
    Stat(r.first, r.last, r.minimum, r.maximum,
         (if r.mean.Some? then r.mean.value else 0.0) * r.count as real, r.count, r.status)
  }

  /** A later row for the same index replaces an earlier one. */
  function SeriesOf(rows: seq<SeriesRow>): map<int, Stat> {
    if rows == [] then map[]
    else SeriesOf(rows[..|rows| - 1])[rows[|rows| - 1].index := StatOf(rows[|rows| - 1])]
  }

  function Decoded(body: Body): Minute {
    Minute(body.sampleCount, body.highZCount, body.highZStatus, SeriesOf(body.series))
  }

  /** The body lists every series once, by ascending index. */
  ghost predicate IsEncoding(m: Minute, body: Body) {
    && body.sampleCount == m.sampleCount && body.highZCount == m.highZCount && body.highZStatus == m.highZStatus
    && ListsSeries(m.series, m.series.Keys, body.series)
  }

  ghost predicate ListsSeries(series: map<int, Stat>, indexes: set<int>, rows: seq<SeriesRow>) {
    && (forall i, j :: 0 <= i < j < |rows| ==> rows[i].index < rows[j].index)
    && (forall i :: 0 <= i < |rows| ==> rows[i].index in series && rows[i] == RowOf(rows[i].index, series[rows[i].index]))
    && (forall k :: k in indexes && k in series ==> exists i :: 0 <= i < |rows| && rows[i].index == k)
  }

  /** An empty series has no total to lose. */
  predicate Consistent(m: Minute) {
    forall i :: i in m.series && m.series[i].count == 0 ==> m.series[i].total == 0.0
  }

  lemma MeanFromTotal(mean: real, count: nat, total: real)
    requires count > 0 && mean * count as real == total
    ensures mean == total / count as real
  {
  }

  lemma MeanTimesCount(total: real, count: nat)
    requires count > 0
    ensures total / count as real * count as real == total
  {
  }

  lemma {:induction false} SeriesAt(rows: seq<SeriesRow>, i: nat)
    requires i < |rows|
    requires forall a, b :: 0 <= a < b < |rows| ==> rows[a].index < rows[b].index
    ensures rows[i].index in SeriesOf(rows) && SeriesOf(rows)[rows[i].index] == StatOf(rows[i])
  {
    if i < |rows| - 1 {
      SeriesAt(rows[..|rows| - 1], i);
    }
  }

  lemma {:induction false} SeriesOnly(rows: seq<SeriesRow>, k: int)
    requires k in SeriesOf(rows)
    ensures exists i :: 0 <= i < |rows| && rows[i].index == k
  {
    var n := |rows| - 1;
    if rows[n].index != k {
      SeriesOnly(rows[..n], k);
      var i :| 0 <= i < n && rows[..n][i].index == k;
      assert rows[i].index == k;
    }
  }

  lemma StatOfRow(index: int, s: Stat)
    requires s.count == 0 ==> s.total == 0.0
    ensures StatOf(RowOf(index, s)) == s
  {
    if s.count > 0 {
      MeanTimesCount(s.total, s.count);
    }
  }

  lemma DecodeEncodeAt(m: Minute, body: Body, k: int)
    requires IsEncoding(m, body) && Consistent(m) && k in m.series
    ensures k in SeriesOf(body.series) && SeriesOf(body.series)[k] == m.series[k]
  {
    var i :| 0 <= i < |body.series| && body.series[i].index == k;
    SeriesAt(body.series, i);
    StatOfRow(k, m.series[k]);
  }

  /** Decoding what was encoded gives the same minute back, totals included. */
  lemma DecodeEncode(m: Minute, body: Body)
    requires IsEncoding(m, body) && Consistent(m)
    ensures Decoded(body) == m
  {
    var series := SeriesOf(body.series);
    forall k
      ensures k in series <==> k in m.series
      ensures k in m.series ==> series[k] == m.series[k]
    {
      if k in m.series {
        DecodeEncodeAt(m, body, k);
      }
      if k in series {
        SeriesOnly(body.series, k);
      }
    }
    assert series == m.series;
  }

  lemma FoldIsConsistent(paths: nat, samples: seq<Snapshot>)
    ensures Consistent(FoldOf(paths, samples))
  {
    forall i | i in SeriesFold(paths, samples) && SeriesFold(paths, samples)[i].count == 0
      ensures SeriesFold(paths, samples)[i].total == 0.0
    {
      SeriesFoldAt(paths, samples, i);
    }
  }
}
