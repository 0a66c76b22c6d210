/** Turning stored minutes into query points, and coarsening those points. */
module RollupQuery {
  import opened Wrappers
  import opened RollupFold
  import opened MinuteRollups

  datatype Aggregate = Aggregate(
    first: Option<real>,
    last: Option<real>,
    minimum: Option<real>,
    maximum: Option<real>,
    count: int)

  datatype Value = Value(value: Option<real>, status: string, stampUs: Option<int>, aggregate: Option<Aggregate>)

  datatype Point = Point(timeMs: int, values: map<int, Value>, outOfRange: bool, rangeStatus: string)

  const NO_DATA := Value(None, "BadNoData", None, None)

  function ValueOf(bucketUs: int, m: Minute, path: int): Value {
    if path !in m.series then NO_DATA
    else ValueOfStat(bucketUs, m.series[path])
  }

  function ValueOfStat(bucketUs: int, item: Stat): Value {
    Value(if item.count == 0 then None else Some(item.total / item.count as real),
          item.status,
          Some(bucketUs + 30_000_000),
          Some(Aggregate(item.first, item.last, item.minimum, item.maximum, item.count)))
  }

  function PointOf(bucketUs: int, m: Minute, paths: seq<int>): Point {
    Point((bucketUs + 30_000_000) / 1000,
          map path | path in paths :: ValueOf(bucketUs, m, path),
          m.highZCount > 0,
          m.highZStatus)
  }

  /** `_rollup_points` over the selected rows. */
  method RollupPoints(rows: seq<(int, Body)>, paths: seq<int>) returns (points: seq<Point>)
    ensures |points| == |rows|
    ensures forall i :: 0 <= i < |rows| ==> points[i] == PointOf(rows[i].0, Decoded(rows[i].1), paths)
  {
    points := [];
    for i := 0 to |rows|
      invariant |points| == i
      invariant forall j :: 0 <= j < i ==> points[j] == PointOf(rows[j].0, Decoded(rows[j].1), paths)
    {
      var p := RollupPoint(rows[i].0, rows[i].1, paths);
      points := points + [p];
    }
  }

  method RollupPoint(bucketUs: int, body: Body, paths: seq<int>) returns (p: Point)
    ensures p == PointOf(bucketUs, Decoded(body), paths)
  {
    var accumulator := MinuteAccumulator.Decode(bucketUs, body);
    var values: map<int, Value> := map[];
    for k := 0 to |paths|
      invariant values == map path | path in paths[..k] :: ValueOf(bucketUs, Decoded(body), path)
    {
      var path := paths[k];
      assert paths[..k + 1] == paths[..k] + [path];
      if path !in accumulator.series {
        values := values[path := Value(None, "BadNoData", None, None)];
      } else {
        var item := accumulator.series[path];
        var mean := if item.count > 0 then Some(item.total / item.count as real) else None;
        values := values[path := Value(mean, item.status, Some(bucketUs + 30_000_000),
                                       Some(Aggregate(item.first, item.last, item.minimum, item.maximum, item.count)))];
      }
    }
    assert paths[..|paths|] == paths;
    p := Point((bucketUs + 30_000_000) / 1000, values, accumulator.highZCount > 0, accumulator.highZStatus);
  }

  // ------------------------------------------------------------------ digests

  /** What coarsening must preserve of a list of readings. */
  datatype Digest = Digest(
    count: nat,
    total: real,
    first: Option<real>,
    last: Option<real>,
    minimum: Option<real>,
    maximum: Option<real>,
    rank: int)

  function MaxRank(statuses: seq<string>): int {
    if statuses == [] then 0
    else
      var r, w := StatusRank(statuses[|statuses| - 1]), MaxRank(statuses[..|statuses| - 1]);
      if r > w then r else w
  }

  function DigestOf(rs: seq<Reading>): Digest {
    var xs := Present(rs);
    Digest(|xs|, Sum(xs), First(xs), Last(xs), Least(xs), Greatest(xs), MaxRank(Statuses(rs)))
  }

  const ZERO := Digest(0, 0.0, None, None, None, None, 0)

  function Smaller(a: Option<real>, b: Option<real>): Option<real> {
    if a.None? then b else if b.None? then a else Some(if b.value < a.value then b.value else a.value)
  }

  function Larger(a: Option<real>, b: Option<real>): Option<real> {
    if a.None? then b else if b.None? then a else Some(if b.value > a.value then b.value else a.value)
  }

  function Join(a: Digest, b: Digest): Digest {
    Digest(a.count + b.count,
           a.total + b.total,
           if a.first.Some? then a.first else b.first,
           if b.last.Some? then b.last else a.last,
           Smaller(a.minimum, b.minimum),
           Larger(a.maximum, b.maximum),
           if b.rank > a.rank then b.rank else a.rank)
  }

  function JoinAll(ds: seq<Digest>): Digest {
    if ds == [] then ZERO else Join(JoinAll(ds[..|ds| - 1]), ds[|ds| - 1])
  }

  lemma DigestOne(r: Reading)
    ensures DigestOf([r]) == match r.value
                             case None => ZERO.(rank := StatusRank(r.status))
                             case Some(v) => Digest(1, v, Some(v), Some(v), Some(v), Some(v), StatusRank(r.status))
  {
    var rs := [r];
    assert rs[..0] == [] && Present(rs[..0]) == [];
    assert Statuses(rs) == [r.status] && Statuses(rs)[..0] == [];
    assert MaxRank(Statuses(rs)[..0]) == 0;
    var xs := Present(rs);
    if r.value.Some? {
      assert xs == [r.value.value] && xs[..0] == [];
      assert Least(xs[..0]) == None && Greatest(xs[..0]) == None && Sum(xs[..0]) == 0.0;
    } else {
      assert xs == [];
    }
  }

  lemma DigestSnoc(rs: seq<Reading>, r: Reading)
    ensures DigestOf(rs + [r]) == Join(DigestOf(rs), DigestOf([r]))
  {
    var more := rs + [r];
    assert more[..|rs|] == rs;
    assert Statuses(more)[..|rs|] == Statuses(rs) && Statuses(more)[|rs|] == r.status;
    DigestOne(r);
    var xs, ys := Present(rs), Present(more);
    if r.value.Some? {
      assert ys == xs + [r.value.value] && ys[..|xs|] == xs;
    } else {
      assert ys == xs;
    }
  }

  lemma JoinAssociates(a: Digest, b: Digest, c: Digest)
    ensures Join(Join(a, b), c) == Join(a, Join(b, c))
  {
  }

  /** Digesting a concatenation is joining the digests. */
  lemma {:induction false} DigestConcat(xs: seq<Reading>, ys: seq<Reading>)
    ensures DigestOf(xs + ys) == Join(DigestOf(xs), DigestOf(ys))
    decreases |ys|
  {
    if ys == [] {
      assert xs + ys == xs && Statuses(ys) == [];
      RankIsNatural(Statuses(xs));
    } else {
      var front, last := ys[..|ys| - 1], ys[|ys| - 1];
      assert xs + ys == (xs + front) + [last] && ys == front + [last];
      DigestConcat(xs, front);
      DigestSnoc(xs + front, last);
      DigestSnoc(front, last);
      JoinAssociates(DigestOf(xs), DigestOf(front), DigestOf([last]));
    }
  }

  lemma {:induction false} RankIsNatural(statuses: seq<string>)
    ensures MaxRank(statuses) >= 0
  {
    if statuses != [] {
      RankIsNatural(statuses[..|statuses| - 1]);
    }
  }

  // --------------------------------------------------------------- coarsening

  /** A payload as rollup points carry it. */
  predicate Proper(v: Value) {
    && v.status != ""
    && (v.value.Some? ==>
          && v.aggregate.Some? && v.aggregate.value.count >= 1
          && v.aggregate.value.first.Some? && v.aggregate.value.last.Some?
          && v.aggregate.value.minimum.Some? && v.aggregate.value.maximum.Some?)
  }

  function DigestOfValue(v: Value): Digest
    requires Proper(v)
  {
    if v.value.None? then ZERO.(rank := StatusRank(v.status))
    else
      var a := v.aggregate.value;
      Digest(a.count, v.value.value * a.count as real, a.first, a.last, a.minimum, a.maximum, StatusRank(v.status))
  }

  function DigestsOf(vs: seq<Value>): seq<Digest>
    requires AllProper(vs)
  {
    seq(|vs|, i requires 0 <= i < |vs| => DigestOfValue(vs[i]))
  }

  /** Python's `max(..., key=status_rank, default="BadNoData")`. */
  function FirstWorst(statuses: seq<string>): string {
    if statuses == [] then "BadNoData"
    else if |statuses| == 1 then statuses[0]
    else
      var s, w := statuses[|statuses| - 1], FirstWorst(statuses[..|statuses| - 1]);
      if StatusRank(s) > StatusRank(w) then s else w
  }

  /** It is the first of those that none outranks. */
  lemma {:induction false} FirstWorstIs(statuses: seq<string>, k: nat)
    requires k < |statuses|
    requires forall j :: 0 <= j < k ==> StatusRank(statuses[j]) < StatusRank(statuses[k])
    requires forall j :: k < j < |statuses| ==> StatusRank(statuses[j]) <= StatusRank(statuses[k])
    ensures FirstWorst(statuses) == statuses[k]
    decreases |statuses|
  {
    var front := statuses[..|statuses| - 1];
    if k < |front| {
      FirstWorstIs(front, k);
    } else if front != [] {
      FirstWorstRanks(front);
    }
  }

  lemma {:induction false} FirstWorstRanks(statuses: seq<string>)
    requires statuses != []
    ensures FirstWorst(statuses) in statuses && StatusRank(FirstWorst(statuses)) == MaxRank(statuses)
  {
    var front := statuses[..|statuses| - 1];
    if front != [] { FirstWorstRanks(front); } else { assert MaxRank(front) == 0; }
  }

  method WorstOf(statuses: seq<string>) returns (worst: string)
    ensures worst == FirstWorst(statuses)
  {
    if statuses == [] {
      return "BadNoData";
    }
    worst := statuses[0];
    for i := 1 to |statuses|
      invariant worst == FirstWorst(statuses[..i])
    {
      assert statuses[..i + 1][..i] == statuses[..i];
      if StatusRank(statuses[i]) > StatusRank(worst) {
        worst := statuses[i];
      }
    }
    assert statuses[..|statuses|] == statuses;
  }

  function GivenStatuses(payloads: seq<Value>): seq<string> {
    seq(|payloads|, i requires 0 <= i < |payloads| => if payloads[i].status == "" then "BadNoData" else payloads[i].status)
  }

  /** The value is stamped with the group's middle, unless there is none, and its
      status is the first of the group's worst. */
  predicate Labelled(payloads: seq<Value>, middleMs: int, v: Value) {
    && v.stampUs == (if v.value.Some? then Some(middleMs * 1000) else None)
    && v.status == FirstWorst(GivenStatuses(payloads))
  }

  /** One series of one group. */
  method CoarsenSeries(payloads: seq<Value>, middleMs: int) returns (v: Value)
    requires payloads != []
    ensures AllProper(payloads) ==> Proper(v) && DigestOfValue(v) == JoinAll(DigestsOf(payloads))
    ensures Labelled(payloads, middleMs, v)
  {
    var worst := WorstOf(GivenStatuses(payloads));
    FirstWorstRanks(GivenStatuses(payloads));
    var t := Totals(0.0, 0, None, None, None, None);
    ghost var proper := AllProper(payloads);
    if proper {
      NothingJoined(payloads, t);
    }
    for i := 0 to |payloads|
      invariant proper ==> AllProper(payloads) && JoinedSoFar(payloads, i, t)
    {
      ghost var before := t;
      if payloads[i].value.Some? {
        t := AddPayload(t, payloads[i]);
      }
      if proper {
        JoinedOneMore(payloads, i, before);
      }
    }
    if t.count <= 0 {
      v := Value(None, worst, None, None);
    } else {
      v := Value(Some(t.weightedTotal / t.count as real), worst, Some(middleMs * 1000),
                 Some(Aggregate(t.first, t.last, t.minimum, t.maximum, t.count)));
    }
    if proper {
      JoinedAll(payloads, t, v, worst);
    }
  }

  /** The running totals take in one usable payload; a payload without an
      aggregate stands for a single sample. */
  method AddPayload(t: Totals, payload: Value) returns (sum: Totals)
    requires payload.value.Some?
    ensures Proper(payload) ==> sum == Added(t, payload)
  {
    var value := payload.value.value;
    var aggregate := payload.aggregate;
    var itemCount := if aggregate.Some? && aggregate.value.count > 1 then aggregate.value.count else 1;
    var itemMin := if aggregate.Some? && aggregate.value.minimum.Some? then aggregate.value.minimum else Some(value);
    var itemMax := if aggregate.Some? && aggregate.value.maximum.Some? then aggregate.value.maximum else Some(value);
    sum := t;
    sum := sum.(weightedTotal := sum.weightedTotal + value * itemCount as real);
    sum := sum.(count := sum.count + itemCount);
    sum := sum.(minimum := Smaller(sum.minimum, itemMin));
    sum := sum.(maximum := Larger(sum.maximum, itemMax));
    if sum.first.None? {
      sum := sum.(first := if aggregate.Some? then aggregate.value.first else Some(value));
    }
    sum := sum.(last := if aggregate.Some? then aggregate.value.last else Some(value));
  }

  lemma NothingJoined(payloads: seq<Value>, t: Totals)
    requires AllProper(payloads) && t == Totals(0.0, 0, None, None, None, None)
    ensures JoinedSoFar(payloads, 0, t)
  {
    assert payloads[..0] == [] && GivenStatuses(payloads[..0]) == [];
    assert DigestsOf(payloads[..0]) == [];
  }

  predicate AllProper(vs: seq<Value>) {
    forall v :: v in vs ==> Proper(v)
  }

  /** The running totals of a group. */
  datatype Totals = Totals(
    weightedTotal: real,
    count: int,
    minimum: Option<real>,
    maximum: Option<real>,
    first: Option<real>,
    last: Option<real>)

  /** The running totals say the same as the digest. */
  predicate Tallies(d: Digest, t: Totals) {
    && d.count == t.count && d.total == t.weightedTotal
    && d.first == t.first && d.last == t.last && d.minimum == t.minimum && d.maximum == t.maximum
    && (t.count == 0 <==> t.first.None?)
    && (t.count == 0 ==> t.weightedTotal == 0.0 && t.last.None? && t.minimum.None? && t.maximum.None?)
    && (t.count > 0 ==> t.last.Some? && t.minimum.Some? && t.maximum.Some?)
  }

  lemma TalliesOneMore(d: Digest, t: Totals, v: Value)
    requires Tallies(d, t) && Proper(v)
    ensures Tallies(Join(d, DigestOfValue(v)), Added(t, v))
  {
  }

  ghost predicate JoinedSoFar(payloads: seq<Value>, i: nat, t: Totals)
    requires i <= |payloads| && AllProper(payloads)
  {
    var d := JoinAll(DigestsOf(payloads[..i]));
    Tallies(d, t) && d.rank == MaxRank(GivenStatuses(payloads[..i]))
  }

  function Added(t: Totals, v: Value): Totals
    requires Proper(v)
  {
    if v.value.None? then t
    else
      var a := v.aggregate.value;
      Totals(t.weightedTotal + v.value.value * a.count as real, t.count + a.count,
             Smaller(t.minimum, a.minimum), Larger(t.maximum, a.maximum),
             if t.first.None? then a.first else t.first, a.last)
  }

  lemma JoinedOneMore(payloads: seq<Value>, i: nat, t: Totals)
    requires i < |payloads| && AllProper(payloads) && JoinedSoFar(payloads, i, t)
    ensures Proper(payloads[i]) && JoinedSoFar(payloads, i + 1, Added(t, payloads[i]))
  {
    assert payloads[i] in payloads;
    DigestsOfPrefix(payloads, i);
    StatusesOfPrefix(payloads, i);
    TalliesOneMore(JoinAll(DigestsOf(payloads[..i])), t, payloads[i]);
  }

  lemma StatusesOfPrefix(payloads: seq<Value>, i: nat)
    requires i < |payloads|
    ensures MaxRank(GivenStatuses(payloads[..i + 1]))
            == (var r, w := StatusRank(if payloads[i].status == "" then "BadNoData" else payloads[i].status),
                            MaxRank(GivenStatuses(payloads[..i]));
                if r > w then r else w)
  {
    var more := GivenStatuses(payloads[..i + 1]);
    assert more[..i] == GivenStatuses(payloads[..i]);
  }

  lemma JoinedAll(payloads: seq<Value>, t: Totals, v: Value, worst: string)
    requires payloads != [] && AllProper(payloads) && JoinedSoFar(payloads, |payloads|, t)
    requires worst in GivenStatuses(payloads) && StatusRank(worst) == MaxRank(GivenStatuses(payloads))
    requires v.status == worst
    requires t.count <= 0 ==> v.value == None
    requires t.count > 0 ==> v.value == Some(t.weightedTotal / t.count as real)
                             && v.aggregate == Some(Aggregate(t.first, t.last, t.minimum, t.maximum, t.count))
    ensures Proper(v) && DigestOfValue(v) == JoinAll(DigestsOf(payloads))
  {
    assert payloads[..|payloads|] == payloads;
    TalliesValue(JoinAll(DigestsOf(payloads)), t, v);
  }

  /** The value with the mean of the totals has their digest. */
  lemma TalliesValue(d: Digest, t: Totals, v: Value)
    requires Tallies(d, t) && v.status != "" && StatusRank(v.status) == d.rank
    requires t.count <= 0 ==> v.value == None
    requires t.count > 0 ==> v.value == Some(t.weightedTotal / t.count as real)
                             && v.aggregate == Some(Aggregate(t.first, t.last, t.minimum, t.maximum, t.count))
    ensures Proper(v) && DigestOfValue(v) == d
  {
    if t.count > 0 { MeanTimesCount(t.weightedTotal, t.count); }
  }

  lemma DigestsOfPrefix(vs: seq<Value>, i: nat)
    requires i < |vs| && AllProper(vs)
    ensures JoinAll(DigestsOf(vs[..i + 1])) == Join(JoinAll(DigestsOf(vs[..i])), DigestOfValue(vs[i]))
  {
    var more := DigestsOf(vs[..i + 1]);
    assert more[..i] == DigestsOf(vs[..i]) && more[i] == DigestOfValue(vs[i]);
  }

  function PayloadsOf(group: seq<Point>, path: int): seq<Value> {
    seq(|group|, i requires 0 <= i < |group| =>
                   if path in group[i].values then group[i].values[path] else NO_DATA)
  }

  function RangeStatuses(group: seq<Point>): seq<string> {
    seq(|group|, i requires 0 <= i < |group| =>
                   if group[i].rangeStatus == "" then "BadNoData" else group[i].rangeStatus)
  }

  /** `p` stands for the whole group. */
  ghost predicate IsCoarse(group: seq<Point>, paths: seq<int>, p: Point) {
    && group != []
    && p.timeMs == group[|group| / 2].timeMs
    && p.values.Keys == (set path | path in paths)
    && (forall path :: path in paths && AllProper(PayloadsOf(group, path)) ==>
                         Proper(p.values[path]) && DigestOfValue(p.values[path]) == JoinAll(DigestsOf(PayloadsOf(group, path))))
    && (forall path :: path in paths ==> Labelled(PayloadsOf(group, path), p.timeMs, p.values[path]))
    && p.rangeStatus == FirstWorst(RangeStatuses(group))
    && (p.outOfRange <==> AnyOutOfRange(group))
    && StatusRank(p.rangeStatus) == MaxRank(RangeStatuses(group))
  }

  method CoarsenGroup(group: seq<Point>, paths: seq<int>) returns (p: Point)
    requires group != []
    ensures IsCoarse(group, paths, p)
  {
    var middleMs := group[|group| / 2].timeMs;
    var values: map<int, Value> := map[];
    for k := 0 to |paths|
      invariant values.Keys == set path | path in paths[..k]
      invariant forall path :: path in paths[..k] && AllProper(PayloadsOf(group, path)) ==>
                                 Proper(values[path]) && DigestOfValue(values[path]) == JoinAll(DigestsOf(PayloadsOf(group, path)))
      invariant forall path :: path in paths[..k] ==> Labelled(PayloadsOf(group, path), middleMs, values[path])
    {
      var value := CoarsenSeries(PayloadsOf(group, paths[k]), middleMs);
      assert paths[..k + 1] == paths[..k] + [paths[k]];
      values := values[paths[k] := value];
    }
    assert paths[..|paths|] == paths;
    var high := false;
    for i := 0 to |group|
      invariant high <==> exists j :: 0 <= j < i && group[j].outOfRange
    {
      high := high || group[i].outOfRange;
    }
    var rangeStatus := WorstOf(RangeStatuses(group));
    FirstWorstRanks(RangeStatuses(group));
    p := Point(middleMs, values, high, rangeStatus);
  }

  function Clip(i: nat, n: nat): nat {
    if i <= n then i else n
  }

  /** The points of group number `r` when every group has `width` of them. */
  function GroupAt(points: seq<Point>, width: nat, r: nat): seq<Point> {
    Slice(points, r * width, width)
  }

  function Slice(points: seq<Point>, offset: nat, width: nat): seq<Point> {
    points[Clip(offset, |points|)..Clip(offset + width, |points|)]
  }

  function WidthFor(n: nat, limit: nat): (width: nat)
    requires limit > 0
    ensures width >= 1
  {
    var ceiling := (n + limit - 1) / limit;
    if ceiling > 1 then ceiling else 1
  }

  /** `result` replaces the first groups, one point each. */
  ghost predicate Coarsened(points: seq<Point>, paths: seq<int>, width: nat, result: seq<Point>) {
    result == []
    || var k := |result| - 1;
       Coarsened(points, paths, width, result[..k]) && IsCoarse(GroupAt(points, width, k), paths, result[k])
  }

  lemma {:induction false} CoarsenedAt(points: seq<Point>, paths: seq<int>, width: nat, result: seq<Point>, r: nat)
    requires Coarsened(points, paths, width, result) && r < |result|
    ensures IsCoarse(GroupAt(points, width, r), paths, result[r])
  {
    if r < |result| - 1 {
      CoarsenedAt(points, paths, width, result[..|result| - 1], r);
    }
  }

  /** `k` groups of `width` points each reach up to `offset`, none past the end. */
  predicate Reaches(n: nat, width: nat, k: nat, offset: nat) {
    offset == k * width && (k - 1) * width < n
  }

  /** Consecutive groups, each replaced by one point; never more than `limit`. */
  method CoarsenRollupPoints(points: seq<Point>, paths: seq<int>, limit: nat) returns (result: seq<Point>)
    requires limit > 0
    ensures |result| <= limit
    ensures var width := WidthFor(|points|, limit);
            && (|result| - 1) * width < |points| <= |result| * width
            && Coarsened(points, paths, width, result)
  {
    var width := WidthFor(|points|, limit);
    result := [];
    var offset: nat := 0;
    while offset < |points|
      invariant Reaches(|points|, width, |result|, offset)
      invariant Coarsened(points, paths, width, result)
    {
      var group := Slice(points, offset, width);
      var p := CoarsenGroup(group, paths);
      OneMoreGroup(points, paths, width, offset, result, p);
      result := result + [p];
      offset := offset + width;
    }
    FewGroups(|points|, limit, |result|);
  }

  lemma OneMoreGroup(points: seq<Point>, paths: seq<int>, width: nat, offset: nat, result: seq<Point>, p: Point)
    requires Reaches(|points|, width, |result|, offset) && offset < |points|
    requires Coarsened(points, paths, width, result)
    requires IsCoarse(Slice(points, offset, width), paths, p)
    ensures Coarsened(points, paths, width, result + [p])
    ensures Reaches(|points|, width, |result + [p]|, offset + width)
  {
    assert (result + [p])[..|result|] == result;
    assert (|result| + 1) * width == offset + width;
  }

  lemma FewGroups(n: nat, limit: nat, groups: nat)
    requires limit > 0 && (groups - 1) * WidthFor(n, limit) < n
    ensures groups <= limit
  {
    var width, q := WidthFor(n, limit), (n + limit - 1) / limit;
    assert limit * q + (n + limit - 1) % limit == n + limit - 1;
    assert limit * width >= limit * q >= n;
    TimesMonotone(limit, groups - 1, width);
  }

  lemma TimesMonotone(a: int, b: int, c: nat)
    ensures a <= b ==> a * c <= b * c
  {
    if a <= b {
      assert b * c == a * c + (b - a) * c;
    }
  }

  datatype QueryError = NoSeries | NotRetained | IntervalInvalid | BeyondRetention | LimitInvalid | TooManyPoints

  datatype Bounds = Bounds(maxQueryPoints: int, maxExportRows: int, retentionEnabled: bool, eventRetentionUs: int)

  predicate AllRetained(paths: seq<int>, retained: set<int>) {
    forall i :: 0 <= i < |paths| ==> paths[i] in retained
  }

  /** The stored minutes as points. */
  ghost predicate ArePointsOf(rows: seq<(int, Body)>, paths: seq<int>, points: seq<Point>) {
    && |points| == |rows|
    && forall i :: 0 <= i < |rows| ==> points[i] == PointOf(rows[i].0, Decoded(rows[i].1), paths)
  }

  /** One point for each group, the groups covering all points. */
  ghost predicate CoarsensAll(points: seq<Point>, paths: seq<int>, limit: nat, result: seq<Point>)
    requires limit > 0
  {
    var width := WidthFor(|points|, limit);
    (|result| - 1) * width < |points| <= |result| * width && Coarsened(points, paths, width, result)
  }

  ghost predicate IsRollupAnswer(rows: seq<(int, Body)>, paths: seq<int>, limit: nat, result: seq<Point>)
    requires limit > 0
  {
    exists points :: ArePointsOf(rows, paths, points)
                     && if |points| <= limit then result == points else CoarsensAll(points, paths, limit, result)
  }

  /** `query`, given what its counts and then its SELECTs return: raw points when
      they fit, otherwise rollups, coarsened until they fit. */
  method Query(raw: seq<Point>, rows: seq<(int, Body)>, rawCount: nat, rollupCount: nat, paths: seq<int>,
               retained: set<int>, startUs: int, endUs: int, maxPoints: int, forceRaw: bool, bounds: Bounds)
    returns (r: Result<seq<Point>, QueryError>)
    ensures r == Failure(NoSeries) <==> paths == []
    ensures r == Failure(NotRetained) <==> exists i :: 0 <= i < |paths| && paths[i] !in retained
    ensures r == Failure(IntervalInvalid) <==> paths != [] && AllRetained(paths, retained) && endUs <= startUs
    ensures paths != [] && AllRetained(paths, retained) && startUs < endUs ==>
              var limit := if maxPoints != 0 then maxPoints else bounds.maxQueryPoints;
              if bounds.retentionEnabled && endUs - startUs > bounds.eventRetentionUs then r == Failure(BeyondRetention)
              else if !(1 <= limit <= bounds.maxExportRows) then r == Failure(LimitInvalid)
              else if !forceRaw && (rawCount > limit || (rawCount == 0 && rollupCount > 0))
              then r.Success? && |r.value| <= limit && IsRollupAnswer(rows, paths, limit, r.value)
              else r == if |raw| <= limit then Success(raw) else Failure(TooManyPoints)
    ensures rawCount == |raw| && rollupCount == |rows| ==>
              var limit := if maxPoints != 0 then maxPoints else bounds.maxQueryPoints;
              && (r == Failure(TooManyPoints) ==> forceRaw && |raw| > limit)
              && (r.Success? && 0 < |raw| <= limit ==> r.value == raw)
              && (r.Success? && !forceRaw && rows != [] && (raw == [] || |raw| > limit) ==>
                    r.value != [] && limit > 0 && IsRollupAnswer(rows, paths, limit, r.value))
              && (r == Success([]) ==> || (raw == [] && (forceRaw || rows == []))
                                       || (!forceRaw && |raw| > limit && rows == []))
  {
    if paths == [] {
      return Failure(NoSeries);
    }
    for i := 0 to |paths|
      invariant forall j :: 0 <= j < i ==> paths[j] in retained
    {
      if paths[i] !in retained {
        return Failure(NotRetained);
      }
    }
    if endUs <= startUs {
      return Failure(IntervalInvalid);
    }
    if bounds.retentionEnabled && endUs - startUs > bounds.eventRetentionUs {
      return Failure(BeyondRetention);
    }
    var limit := if maxPoints != 0 then maxPoints else bounds.maxQueryPoints;
    if !(1 <= limit <= bounds.maxExportRows) {
      return Failure(LimitInvalid);
    }
    var useRollup := !forceRaw && (rawCount > limit || (rawCount == 0 && rollupCount > 0));
    var points := raw;
    if useRollup {
      points := RollupPoints(rows, paths);
    }
    if |points| > limit {
      if !useRollup {
        return Failure(TooManyPoints);
      }
      points := CoarsenRollupPoints(points, paths, limit);
    }
    r := Success(points);
    if rawCount == |raw| && rollupCount == |rows| { AnswersWhatThereIs(raw, rows, paths, limit, forceRaw, r); }
  }

  lemma RollupAnswerIsEmptyExactly(rows: seq<(int, Body)>, paths: seq<int>, limit: nat, result: seq<Point>)
    requires limit > 0 && IsRollupAnswer(rows, paths, limit, result)
    ensures result == [] <==> rows == []
  {
    var points :| ArePointsOf(rows, paths, points)
                  && if |points| <= limit then result == points else CoarsensAll(points, paths, limit, result);
  }

  /** Too many points are refused only where raw ones were insisted on; raw points that
      fit are the answer; and where there are none, or too many, the stored minutes
      are.  So the answer is empty exactly when there is nothing to show, or when there
      are too many raw points and no minute is stored yet. */
  lemma AnswersWhatThereIs(raw: seq<Point>, rows: seq<(int, Body)>, paths: seq<int>, limit: nat, forceRaw: bool,
                           r: Result<seq<Point>, QueryError>)
    requires limit > 0
    requires if !forceRaw && (|raw| > limit || (raw == [] && rows != []))
             then r.Success? && |r.value| <= limit && IsRollupAnswer(rows, paths, limit, r.value)
             else r == if |raw| <= limit then Success(raw) else Failure(TooManyPoints)
    ensures r == Failure(TooManyPoints) <==> forceRaw && |raw| > limit
    ensures 0 < |raw| <= limit ==> r == Success(raw)
    ensures !forceRaw && rows != [] && (raw == [] || |raw| > limit) ==>
              r.Success? && r.value != [] && IsRollupAnswer(rows, paths, limit, r.value)
    ensures r == Success([]) <==>
              || (raw == [] && (forceRaw || rows == []))
              || (!forceRaw && |raw| > limit && rows == [])
  {
    if r.Success? && IsRollupAnswer(rows, paths, limit, r.value) {
      RollupAnswerIsEmptyExactly(rows, paths, limit, r.value);
    }
  }

  /** The width is the least with which the groups stay within the limit. */
  lemma WidthIsLeast(n: nat, limit: nat, width: nat)
    requires limit > 0 && width > 0
    ensures n <= limit * WidthFor(n, limit)
    ensures width < WidthFor(n, limit) ==> limit * width < n
  {
    var q := (n + limit - 1) / limit;
    assert limit * q + (n + limit - 1) % limit == n + limit - 1;
    if q <= 1 { assert limit * q <= limit; }
    TimesMonotone(width, q - 1, limit);
    TimesMonotone(q, WidthFor(n, limit), limit);
  }

  // ------------------------------------------------- refinement of raw folding

  function Flatten(minutes: seq<seq<Snapshot>>): seq<Snapshot> {
    if minutes == [] then [] else Flatten(minutes[..|minutes| - 1]) + minutes[|minutes| - 1]
  }

  lemma ReadingsConcat(xs: seq<Snapshot>, ys: seq<Snapshot>, path: int)
    ensures Readings(xs + ys, path) == Readings(xs, path) + Readings(ys, path)
  {
  }

  lemma {:induction false} WorstHasMaxRank(initial: string, statuses: seq<string>)
    requires StatusRank(initial) == 0 || (statuses != [] && statuses[0] == initial)
    ensures StatusRank(Worst(initial, statuses)) == MaxRank(statuses)
  {
    if statuses != [] {
      var front := statuses[..|statuses| - 1];
      if front == [] {
        assert Worst(initial, front) == initial && MaxRank(front) == 0;
      } else {
        assert front[0] == statuses[0];
        WorstHasMaxRank(initial, front);
      }
    }
  }

  lemma {:induction false} LeastPresent(xs: seq<real>)
    ensures xs != [] ==> Least(xs).Some? && Greatest(xs).Some?
  {
    if xs != [] {
      LeastPresent(xs[..|xs| - 1]);
    }
  }

  lemma SummaryStatus(rs: seq<Reading>)
    requires rs != [] && forall r :: r in rs ==> r.status != ""
    ensures Summary(rs).status != "" && StatusRank(Summary(rs).status) == MaxRank(Statuses(rs))
  {
    assert Statuses(rs)[0] == rs[0].status;
    WorstHasMaxRank(rs[0].status, Statuses(rs));
    WorstOutranksAll(rs[0].status, Statuses(rs));
  }

  lemma StatDigest(bucketUs: int, item: Stat)
    requires item.status != ""
    requires item.count > 0 ==> item.first.Some? && item.last.Some? && item.minimum.Some? && item.maximum.Some?
    requires item.count == 0 ==> item == Stat(None, None, None, None, 0.0, 0, item.status)
    ensures var v := ValueOfStat(bucketUs, item);
            && Proper(v)
            && DigestOfValue(v) == Digest(item.count, item.total, item.first, item.last, item.minimum, item.maximum,
                                          StatusRank(item.status))
  {
    if item.count > 0 {
      MeanTimesCount(item.total, item.count);
    }
  }

  lemma SummaryDigest(bucketUs: int, rs: seq<Reading>)
    requires rs != [] && forall r :: r in rs ==> r.status != ""
    ensures var v := ValueOfStat(bucketUs, Summary(rs));
            Proper(v) && DigestOfValue(v) == DigestOf(rs)
  {
    SummaryStatus(rs);
    LeastPresent(Present(rs));
    StatDigest(bucketUs, Summary(rs));
  }

  lemma ReadingsHaveStatus(samples: seq<Snapshot>, path: int)
    ensures forall r :: r in Readings(samples, path) ==> r.status != ""
  {
  }

  /** A minute's point carries the digest of its raw samples. */
  lemma PointCarriesDigest(bucketUs: int, n: nat, samples: seq<Snapshot>, path: int)
    requires samples != [] && 0 <= path < n
    ensures var v := ValueOf(bucketUs, FoldOf(n, samples), path);
            Proper(v) && DigestOfValue(v) == DigestOf(Readings(samples, path))
  {
    ReadingsHaveStatus(samples, path);
    SummaryDigest(bucketUs, Readings(samples, path));
    SeriesFoldAt(n, samples, path);
    assert ValueOf(bucketUs, FoldOf(n, samples), path) == ValueOfStat(bucketUs, Summary(Readings(samples, path)));
  }

  /** The points are those of stored rows that encode these minutes of samples. */
  ghost predicate FromSamples(n: nat, minutes: seq<seq<Snapshot>>, rows: seq<(int, Body)>, paths: seq<int>, group: seq<Point>) {
    && |minutes| == |rows| == |group|
    && (forall i :: 0 <= i < |group| ==>
          && minutes[i] != []
          && IsEncoding(FoldOf(n, minutes[i]), rows[i].1)
          && group[i] == PointOf(rows[i].0, Decoded(rows[i].1), paths))
  }

  lemma PayloadCarriesDigest(n: nat, minutes: seq<seq<Snapshot>>, rows: seq<(int, Body)>, paths: seq<int>, group: seq<Point>,
                             path: int, i: nat)
    requires FromSamples(n, minutes, rows, paths, group) && path in paths && 0 <= path < n && i < |group|
    ensures var v := PayloadsOf(group, path)[i];
            Proper(v) && DigestOfValue(v) == DigestOf(Readings(minutes[i], path))
  {
    FoldIsConsistent(n, minutes[i]);
    DecodeEncode(FoldOf(n, minutes[i]), rows[i].1);
    PointCarriesDigest(rows[i].0, n, minutes[i], path);
  }

  lemma {:induction false} JoinedReadings(vs: seq<Value>, minutes: seq<seq<Snapshot>>, path: int)
    requires |vs| == |minutes| && AllProper(vs)
    requires forall i :: 0 <= i < |vs| ==> DigestOfValue(vs[i]) == DigestOf(Readings(minutes[i], path))
    ensures JoinAll(DigestsOf(vs)) == DigestOf(Readings(Flatten(minutes), path))
    decreases |vs|
  {
    if vs == [] {
      assert Flatten(minutes) == [] && Readings(Flatten(minutes), path) == [] && Statuses([]) == [];
      assert DigestsOf(vs) == [];
    } else {
      var k := |vs| - 1;
      JoinedReadings(vs[..k], minutes[..k], path);
      DigestsOfPrefix(vs, k);
      assert vs[..k + 1] == vs;
      ReadingsConcat(Flatten(minutes[..k]), minutes[k], path);
      DigestConcat(Readings(Flatten(minutes[..k]), path), Readings(minutes[k], path));
    }
  }

  lemma GroupDigest(n: nat, minutes: seq<seq<Snapshot>>, rows: seq<(int, Body)>, paths: seq<int>,
                    group: seq<Point>, path: int)
    requires FromSamples(n, minutes, rows, paths, group) && path in paths && 0 <= path < n
    ensures AllProper(PayloadsOf(group, path))
    ensures JoinAll(DigestsOf(PayloadsOf(group, path))) == DigestOf(Readings(Flatten(minutes), path))
  {
    var vs := PayloadsOf(group, path);
    forall i | 0 <= i < |vs|
      ensures Proper(vs[i]) && DigestOfValue(vs[i]) == DigestOf(Readings(minutes[i], path))
    {
      PayloadCarriesDigest(n, minutes, rows, paths, group, path, i);
    }
    assert AllProper(vs);
    JoinedReadings(vs, minutes, path);
  }

  /** The coarse value says of the group what one fold over all its raw samples
      says: count, mean, first, last, extremes, and the rank of the status. */
  ghost predicate SaysOf(v: Value, rs: seq<Reading>) {
    var xs := Present(rs);
    && StatusRank(v.status) == MaxRank(Statuses(rs))
    && (xs == [] ==> v.value == None)
    && (xs != [] ==> v.value == Some(Sum(xs) / |xs| as real)
                     && v.aggregate == Some(Aggregate(First(xs), Last(xs), Least(xs), Greatest(xs), |xs|)))
  }

  lemma DigestDecides(v: Value, rs: seq<Reading>)
    requires Proper(v) && DigestOfValue(v) == DigestOf(rs)
    ensures SaysOf(v, rs)
  {
    var xs := Present(rs);
    if v.value.Some? {
      var c := v.aggregate.value.count;
      MeanFromTotal(v.value.value, c, Sum(xs));
    }
  }

  /** Coarsening decoded rollups agrees with folding the raw samples. */
  lemma CoarseningRefinesFolding(n: nat, minutes: seq<seq<Snapshot>>, rows: seq<(int, Body)>, paths: seq<int>,
                                 group: seq<Point>, p: Point, path: int)
    requires FromSamples(n, minutes, rows, paths, group) && path in paths && 0 <= path < n
    requires IsCoarse(group, paths, p)
    ensures SaysOf(p.values[path], Readings(Flatten(minutes), path))
  {
    GroupDigest(n, minutes, rows, paths, group, path);
    DigestDecides(p.values[path], Readings(Flatten(minutes), path));
  }

  // --------------------------------------------------------- the range columns

  lemma {:induction false} HighZConcat(xs: seq<Snapshot>, ys: seq<Snapshot>)
    ensures HighZStatuses(xs + ys) == HighZStatuses(xs) + HighZStatuses(ys)
    decreases |ys|
  {
    if ys == [] {
      assert xs + ys == xs;
    } else {
      var front := ys[..|ys| - 1];
      assert (xs + ys)[..|xs + ys| - 1] == xs + front;
      HighZConcat(xs, front);
    }
  }

  lemma {:induction false} MaxRankConcat(xs: seq<string>, ys: seq<string>)
    ensures MaxRank(xs + ys) == if MaxRank(ys) > MaxRank(xs) then MaxRank(ys) else MaxRank(xs)
    decreases |ys|
  {
    RankIsNatural(xs);
    if ys == [] {
      assert xs + ys == xs;
    } else {
      var front := ys[..|ys| - 1];
      assert (xs + ys)[..|xs + ys| - 1] == xs + front;
      MaxRankConcat(xs, front);
    }
  }

  predicate AnyOutOfRange(group: seq<Point>) {
    exists i :: 0 <= i < |group| && group[i].outOfRange
  }

  lemma AnyOutOfRangeSnoc(group: seq<Point>)
    requires group != []
    ensures AnyOutOfRange(group) <==> AnyOutOfRange(group[..|group| - 1]) || group[|group| - 1].outOfRange
  {
    var front := group[..|group| - 1];
    if AnyOutOfRange(front) {
      var i :| 0 <= i < |front| && front[i].outOfRange;
      assert group[i].outOfRange;
    }
    if AnyOutOfRange(group) {
      var i :| 0 <= i < |group| && group[i].outOfRange;
      assert i < |front| ==> front[i].outOfRange;
    }
  }

  lemma {:induction false} JoinedRanges(group: seq<Point>, minutes: seq<seq<Snapshot>>)
    requires |group| == |minutes|
    requires forall i :: 0 <= i < |group| ==>
                           && (group[i].outOfRange <==> HighZStatuses(minutes[i]) != [])
                           && group[i].rangeStatus != ""
                           && StatusRank(group[i].rangeStatus) == MaxRank(HighZStatuses(minutes[i]))
    ensures AnyOutOfRange(group) <==> HighZStatuses(Flatten(minutes)) != []
    ensures MaxRank(RangeStatuses(group)) == MaxRank(HighZStatuses(Flatten(minutes)))
    decreases |group|
  {
    if group == [] {
      assert Flatten(minutes) == [] && RangeStatuses(group) == [];
    } else {
      JoinedRanges(group[..|group| - 1], minutes[..|group| - 1]);
      AnyOutOfRangeSnoc(group);
      HighZOfMinutesSnoc(minutes);
      RangeStatusesSnoc(group);
    }
  }

  /** The group is out of range exactly when some raw sample was, and its range
      status has the worst rank among those samples. */
  lemma RangeRefinesFolding(n: nat, minutes: seq<seq<Snapshot>>, rows: seq<(int, Body)>, paths: seq<int>,
                            group: seq<Point>, p: Point)
    requires FromSamples(n, minutes, rows, paths, group) && IsCoarse(group, paths, p)
    ensures p.outOfRange <==> HighZStatuses(Flatten(minutes)) != []
    ensures StatusRank(p.rangeStatus) == MaxRank(HighZStatuses(Flatten(minutes)))
  {
    forall i | 0 <= i < |group|
      ensures group[i].outOfRange <==> HighZStatuses(minutes[i]) != []
      ensures group[i].rangeStatus != "" && StatusRank(group[i].rangeStatus) == MaxRank(HighZStatuses(minutes[i]))
    {
      RangeOfMinute(n, minutes[i], rows[i], paths, group[i]);
    }
    JoinedRanges(group, minutes);
  }

  lemma HighZOfMinutesSnoc(minutes: seq<seq<Snapshot>>)
    requires minutes != []
    ensures var before, last := MaxRank(HighZStatuses(Flatten(minutes[..|minutes| - 1]))),
                                MaxRank(HighZStatuses(minutes[|minutes| - 1]));
            MaxRank(HighZStatuses(Flatten(minutes))) == if last > before then last else before
    ensures HighZStatuses(Flatten(minutes))
            == HighZStatuses(Flatten(minutes[..|minutes| - 1])) + HighZStatuses(minutes[|minutes| - 1])
  {
    HighZConcat(Flatten(minutes[..|minutes| - 1]), minutes[|minutes| - 1]);
    MaxRankConcat(HighZStatuses(Flatten(minutes[..|minutes| - 1])), HighZStatuses(minutes[|minutes| - 1]));
  }

  lemma RangeStatusesSnoc(group: seq<Point>)
    requires group != [] && group[|group| - 1].rangeStatus != ""
    ensures var w, r := MaxRank(RangeStatuses(group[..|group| - 1])), StatusRank(group[|group| - 1].rangeStatus);
            MaxRank(RangeStatuses(group)) == if r > w then r else w
  {
    var statuses := RangeStatuses(group);
    assert statuses[..|statuses| - 1] == RangeStatuses(group[..|group| - 1]);
    assert statuses[|statuses| - 1] == group[|group| - 1].rangeStatus;
  }

  lemma RangeOfMinute(n: nat, samples: seq<Snapshot>, row: (int, Body), paths: seq<int>, p: Point)
    requires IsEncoding(FoldOf(n, samples), row.1) && p == PointOf(row.0, Decoded(row.1), paths)
    ensures p.outOfRange <==> HighZStatuses(samples) != []
    ensures p.rangeStatus != "" && StatusRank(p.rangeStatus) == MaxRank(HighZStatuses(samples))
  {
    FoldIsConsistent(n, samples);
    DecodeEncode(FoldOf(n, samples), row.1);
    GoodRanksLowest();
    WorstHasMaxRank("Good", HighZStatuses(samples));
    WorstOutranksAll("Good", HighZStatuses(samples));
    HighZNamed(samples);
  }

  lemma {:induction false} HighZNamed(samples: seq<Snapshot>)
    ensures forall s :: s in HighZStatuses(samples) ==> s != ""
  {
    if samples != [] {
      HighZNamed(samples[..|samples| - 1]);
    }
  }

  // --------------------------------------------------------------- the whole answer

  /** The stored minutes are encodings of folds of these samples. */
  ghost predicate Stores(n: nat, minutes: seq<seq<Snapshot>>, rows: seq<(int, Body)>) {
    && |rows| == |minutes|
    && forall i :: 0 <= i < |rows| ==> minutes[i] != [] && IsEncoding(FoldOf(n, minutes[i]), rows[i].1)
  }

  /** The point says of the samples what one fold over them says. */
  ghost predicate Says(p: Point, samples: seq<Snapshot>, path: int) {
    && path in p.values && SaysOf(p.values[path], Readings(samples, path))
    && (p.outOfRange <==> HighZStatuses(samples) != [])
    && StatusRank(p.rangeStatus) == MaxRank(HighZStatuses(samples))
  }

  lemma SliceFromSamples(n: nat, minutes: seq<seq<Snapshot>>, rows: seq<(int, Body)>, paths: seq<int>, points: seq<Point>,
                         low: nat, high: nat)
    requires Stores(n, minutes, rows) && ArePointsOf(rows, paths, points) && low <= high <= |points|
    ensures FromSamples(n, minutes[low..high], rows[low..high], paths, points[low..high])
  {
    forall i | 0 <= i < high - low
      ensures minutes[low..high][i] != []
      ensures IsEncoding(FoldOf(n, minutes[low..high][i]), rows[low..high][i].1)
      ensures points[low..high][i] == PointOf(rows[low..high][i].0, Decoded(rows[low..high][i].1), paths)
    {
      assert minutes[low..high][i] == minutes[low + i] && rows[low..high][i] == rows[low + i];
      assert points[low..high][i] == points[low + i];
    }
  }

  lemma GroupSays(n: nat, minutes: seq<seq<Snapshot>>, rows: seq<(int, Body)>, paths: seq<int>, group: seq<Point>,
                  p: Point, path: int)
    requires FromSamples(n, minutes, rows, paths, group) && IsCoarse(group, paths, p)
    requires path in paths && 0 <= path < n
    ensures Says(p, Flatten(minutes), path)
  {
    CoarseningRefinesFolding(n, minutes, rows, paths, group, p, path);
    RangeRefinesFolding(n, minutes, rows, paths, group, p);
  }

  /** Every point of a coarsened answer says of its group of minutes what one fold
      over all their raw samples says. */
  lemma AnswerRefinesFolding(n: nat, minutes: seq<seq<Snapshot>>, rows: seq<(int, Body)>, paths: seq<int>,
                             points: seq<Point>, width: nat, result: seq<Point>, r: nat, path: int)
    requires Stores(n, minutes, rows) && ArePointsOf(rows, paths, points)
    requires Coarsened(points, paths, width, result) && r < |result|
    requires path in paths && 0 <= path < n
    ensures Says(result[r], Flatten(GroupOfMinutes(minutes, width, r)), path)
  {
    CoarsenedAt(points, paths, width, result, r);
    ClipsOrdered(r, width, |points|);
    var low, high := Clip(r * width, |points|), Clip(r * width + width, |points|);
    SliceFromSamples(n, minutes, rows, paths, points, low, high);
    GroupSays(n, minutes[low..high], rows[low..high], paths, points[low..high], result[r], path);
  }

  lemma ClipsOrdered(r: nat, width: nat, n: nat)
    ensures 0 <= r * width && Clip(r * width, n) <= Clip(r * width + width, n) <= n
  {}

  function GroupOfMinutes(minutes: seq<seq<Snapshot>>, width: nat, r: nat): seq<seq<Snapshot>> {
    minutes[Clip(r * width, |minutes|)..Clip(r * width + width, |minutes|)]
  }

  // ------------------------------------------------------ one stored minute, one point

  /** The point of one stored minute: its time is the minute's middle, and it says of
      the samples what one fold over them says. */
  lemma PointSays(n: nat, samples: seq<Snapshot>, row: (int, Body), paths: seq<int>, path: int)
    requires samples != [] && IsEncoding(FoldOf(n, samples), row.1) && path in paths && 0 <= path < n
    ensures var p := PointOf(row.0, Decoded(row.1), paths);
            && Says(p, samples, path)
            && p.timeMs == (row.0 + 30_000_000) / 1000
            && p.values[path].stampUs == Some(row.0 + 30_000_000)
            && p.values[path].status == Summary(Readings(samples, path)).status
            && p.rangeStatus == FoldOf(n, samples).highZStatus
  {
    FoldIsConsistent(n, samples);
    DecodeEncode(FoldOf(n, samples), row.1);
    PointCarriesDigest(row.0, n, samples, path);
    DigestDecides(ValueOf(row.0, FoldOf(n, samples), path), Readings(samples, path));
    RangeOfMinute(n, samples, row, paths, PointOf(row.0, Decoded(row.1), paths));
    SeriesFoldAt(n, samples, path);
  }

  /** The point says of the stretch of `width` minutes from `low` on, or of what there
      is of it, what one fold over all its raw samples says. */
  ghost predicate SaysStretch(minutes: seq<seq<Snapshot>>, low: nat, width: nat, p: Point, path: int) {
    low <= |minutes|
    && Says(p, Flatten(minutes[low..if low + width <= |minutes| then low + width else |minutes|]), path)
  }

  lemma FewSay(n: nat, minutes: seq<seq<Snapshot>>, rows: seq<(int, Body)>, paths: seq<int>, points: seq<Point>, r: nat, path: int)
    requires Stores(n, minutes, rows) && ArePointsOf(rows, paths, points)
    requires r < |points| && path in paths && 0 <= path < n
    ensures SaysStretch(minutes, r, 1, points[r], path)
  {
    PointSays(n, minutes[r], rows[r], paths, path);
    assert minutes[r..r + 1] == [minutes[r]];
    FlattenOne(minutes[r]);
  }

  /** The least width with which `n` points make at most `limit` groups. */
  ghost predicate LeastWidth(n: nat, limit: nat, width: nat) {
    width > 0 && n <= limit * width && (width == 1 || limit * (width - 1) < n)
  }

  lemma OneLeastWidth(n: nat, limit: nat, width: nat)
    requires limit > 0 && LeastWidth(n, limit, width)
    ensures width == WidthFor(n, limit)
  {
    WidthIsLeast(n, limit, width);
    if width > WidthFor(n, limit) { TimesMonotone(WidthFor(n, limit), width - 1, limit); }
  }

  lemma LowIsRow(groups: nat, r: nat, width: nat, low: nat, n: nat)
    requires r < groups && (groups - 1) * width < n && low == r * width
    ensures low < n && (width == 1 ==> low == r)
  {
    TimesMonotone(r, groups - 1, width);
  }

  /** The answer has a point for each group of the least width. */
  lemma RollupAnswerCovers(rows: seq<(int, Body)>, paths: seq<int>, limit: nat, width: nat, result: seq<Point>)
    requires limit > 0 && IsRollupAnswer(rows, paths, limit, result) && LeastWidth(|rows|, limit, width)
    ensures (|result| - 1) * width < |rows| <= |result| * width
  {
    OneLeastWidth(|rows|, limit, width);
    if |rows| <= limit { OneGroupWhenFew(|rows|, limit); }
  }

  lemma ManyAreCoarsened(rows: seq<(int, Body)>, paths: seq<int>, limit: nat, width: nat, result: seq<Point>)
      returns (points: seq<Point>)
    requires limit > 0 && IsRollupAnswer(rows, paths, limit, result) && LeastWidth(|rows|, limit, width) && |rows| > limit
    ensures ArePointsOf(rows, paths, points) && Coarsened(points, paths, width, result)
    ensures (|result| - 1) * width < |points|
  {
    OneLeastWidth(|rows|, limit, width);
    points :| ArePointsOf(rows, paths, points)
              && if |points| <= limit then result == points else CoarsensAll(points, paths, limit, result);
  }

  lemma FewWidth(n: nat, limit: nat, width: nat, r: nat, low: nat)
    requires limit > 0 && LeastWidth(n, limit, width) && n <= limit && low == r * width
    ensures width == 1 && low == r
  {
    OneLeastWidth(n, limit, width);
    OneGroupWhenFew(n, limit);
  }

  lemma FewAnswerSays(n: nat, minutes: seq<seq<Snapshot>>, rows: seq<(int, Body)>, paths: seq<int>, limit: nat,
                      result: seq<Point>, r: nat, path: int)
    requires limit > 0 && Stores(n, minutes, rows) && IsRollupAnswer(rows, paths, limit, result) && |rows| <= limit
    requires r < |result| && path in paths && 0 <= path < n
    ensures SaysStretch(minutes, r, 1, result[r], path)
  {
    FewSay(n, minutes, rows, paths, result, r, path);
  }

  /** A coarse point says of its own group what one fold over its samples says. */
  lemma CoarseSays(n: nat, minutes: seq<seq<Snapshot>>, rows: seq<(int, Body)>, paths: seq<int>, points: seq<Point>,
                   low: nat, high: nat, p: Point, path: int)
    requires Stores(n, minutes, rows) && ArePointsOf(rows, paths, points) && low <= high <= |points|
    requires IsCoarse(points[low..high], paths, p) && path in paths && 0 <= path < n
    ensures Says(p, Flatten(minutes[low..high]), path)
  {
    SliceFromSamples(n, minutes, rows, paths, points, low, high);
    GroupSays(n, minutes[low..high], rows[low..high], paths, points[low..high], p, path);
  }

  lemma CoarseSaysStretch(n: nat, minutes: seq<seq<Snapshot>>, rows: seq<(int, Body)>, paths: seq<int>, points: seq<Point>,
                          low: nat, width: nat, p: Point, path: int)
    requires Stores(n, minutes, rows) && ArePointsOf(rows, paths, points) && low <= |points|
    requires IsCoarse(points[low..EndOf(low, width, |points|)], paths, p) && path in paths && 0 <= path < n
    ensures SaysStretch(minutes, low, width, p, path)
  {
    CoarseSays(n, minutes, rows, paths, points, low, EndOf(low, width, |points|), p, path);
  }

  lemma GroupIsSlice(points: seq<Point>, width: nat, r: nat, low: nat)
    requires low == r * width && low <= |points|
    ensures GroupAt(points, width, r) == points[low..if low + width <= |points| then low + width else |points|]
  {}

  function EndOf(low: nat, width: nat, n: nat): nat {
    if low + width <= n then low + width else n
  }

  lemma CoarseAt(points: seq<Point>, paths: seq<int>, width: nat, result: seq<Point>, r: nat, low: nat)
    requires Coarsened(points, paths, width, result) && r < |result| && low == r * width && low <= |points|
    ensures IsCoarse(points[low..EndOf(low, width, |points|)], paths, result[r])
  {
    CoarsenedAt(points, paths, width, result, r);
    GroupIsSlice(points, width, r, low);
  }

  lemma CoarsePointAt(rows: seq<(int, Body)>, paths: seq<int>, limit: nat, width: nat, result: seq<Point>, r: nat, low: nat)
      returns (points: seq<Point>)
    requires limit > 0 && IsRollupAnswer(rows, paths, limit, result) && LeastWidth(|rows|, limit, width) && |rows| > limit
    requires r < |result| && low == r * width
    ensures ArePointsOf(rows, paths, points) && low <= |points|
    ensures IsCoarse(points[low..EndOf(low, width, |points|)], paths, result[r])
  {
    points := ManyAreCoarsened(rows, paths, limit, width, result);
    LowIsRow(|result|, r, width, low, |points|);
    CoarseAt(points, paths, width, result, r, low);
  }

  lemma ManyAnswerSays(n: nat, minutes: seq<seq<Snapshot>>, rows: seq<(int, Body)>, paths: seq<int>, limit: nat,
                       width: nat, result: seq<Point>, r: nat, low: nat, path: int)
    requires limit > 0 && Stores(n, minutes, rows) && IsRollupAnswer(rows, paths, limit, result)
    requires LeastWidth(|rows|, limit, width) && low == r * width && |rows| > limit
    requires r < |result| && path in paths && 0 <= path < n
    ensures SaysStretch(minutes, low, width, result[r], path)
  {
    var points := CoarsePointAt(rows, paths, limit, width, result, r, low);
    CoarseSaysStretch(n, minutes, rows, paths, points, low, width, result[r], path);
  }

  /** Every point of an answer from stored minutes, coarsened or not, says of its own
      stretch of minutes what one fold over all their raw samples says; the stretches
      follow each other without gaps, as wide as the limit demands. */
  lemma RollupAnswerSays(n: nat, minutes: seq<seq<Snapshot>>, rows: seq<(int, Body)>, paths: seq<int>, limit: nat,
                         width: nat, result: seq<Point>, r: nat, low: nat, path: int)
    requires limit > 0 && Stores(n, minutes, rows) && IsRollupAnswer(rows, paths, limit, result)
    requires LeastWidth(|rows|, limit, width) && low == r * width
    requires r < |result| && path in paths && 0 <= path < n
    ensures SaysStretch(minutes, low, width, result[r], path)
  {
    if |rows| <= limit {
      FewAnswerSays(n, minutes, rows, paths, limit, result, r, path);
      FewWidth(|rows|, limit, width, r, low);
    } else {
      ManyAnswerSays(n, minutes, rows, paths, limit, width, result, r, low, path);
    }
  }

  /** The point carries the time of the middle minute of its stretch. */
  ghost predicate TimedAtMiddle(rows: seq<(int, Body)>, low: nat, width: nat, p: Point) {
    && low < |rows| && width > 0
    && var length := if low + width <= |rows| then width else |rows| - low;
       p.timeMs == (rows[low + length / 2].0 + 30_000_000) / 1000
  }

  lemma CoarseIsTimed(rows: seq<(int, Body)>, paths: seq<int>, points: seq<Point>, low: nat, width: nat, p: Point)
    requires ArePointsOf(rows, paths, points) && low <= |points| && width > 0
    requires IsCoarse(points[low..EndOf(low, width, |points|)], paths, p)
    ensures TimedAtMiddle(rows, low, width, p)
  {
    var group := points[low..EndOf(low, width, |points|)];
    assert group[|group| / 2] == points[low + |group| / 2];
  }

  lemma FewAreTimed(rows: seq<(int, Body)>, paths: seq<int>, limit: nat, result: seq<Point>, r: nat)
    requires limit > 0 && IsRollupAnswer(rows, paths, limit, result) && |rows| <= limit && r < |result|
    ensures TimedAtMiddle(rows, r, 1, result[r])
  {}

  lemma RollupAnswerIsTimed(rows: seq<(int, Body)>, paths: seq<int>, limit: nat, width: nat, result: seq<Point>, r: nat, low: nat)
    requires limit > 0 && IsRollupAnswer(rows, paths, limit, result)
    requires LeastWidth(|rows|, limit, width) && low == r * width && r < |result|
    ensures TimedAtMiddle(rows, low, width, result[r])
  {
    if |rows| <= limit {
      FewAreTimed(rows, paths, limit, result, r);
      FewWidth(|rows|, limit, width, r, low);
    } else {
      ManyAreTimed(rows, paths, limit, width, result, r, low);
    }
  }

  lemma ManyAreTimed(rows: seq<(int, Body)>, paths: seq<int>, limit: nat, width: nat, result: seq<Point>, r: nat, low: nat)
    requires limit > 0 && IsRollupAnswer(rows, paths, limit, result) && |rows| > limit
    requires LeastWidth(|rows|, limit, width) && low == r * width && r < |result|
    ensures TimedAtMiddle(rows, low, width, result[r])
  {
    var points := CoarsePointAt(rows, paths, limit, width, result, r, low);
    CoarseIsTimed(rows, paths, points, low, width, result[r]);
  }

  lemma FlattenOne(minute: seq<Snapshot>)
    ensures Flatten([minute]) == minute
  {
    assert [minute][..0] == [];
  }

  lemma OneGroupWhenFew(n: nat, limit: nat)
    requires limit > 0 && n <= limit
    ensures WidthFor(n, limit) == 1
  {
    var q := (n + limit - 1) / limit;
    assert limit * q + (n + limit - 1) % limit == n + limit - 1;
    if q > 1 { TimesMonotone(2, q, limit); }
  }
}
