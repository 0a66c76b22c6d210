/** Reading a resistance off the calibration curve: evaluation of the spline, and
    its inverse by bracketing and bisection. */
module InverseInterpolation {
  import opened Wrappers
  import opened SplineTheory
  import opened Spline

  /** All the coefficients, the last place included, where `a`, `b` and `d` keep
      their initial zero. */
  function Coefficients(a: seq<real>, b: seq<real>, c: seq<real>, d: seq<real>): (q: seq<Cubic>)
    requires |a| == |b| == |c| == |d|
    ensures |q| == |a|
    ensures forall i :: 0 <= i < |q| ==> q[i] == Cubic(a[i], b[i], c[i], d[i])
  {
    seq(|a|, i requires 0 <= i < |a| => Cubic(a[i], b[i], c[i], d[i]))
  }

  const NOTHING := Cubic(0.0, 0.0, 0.0, 0.0)

  // ------------------------------------------------------------------ evaluation

  /** The first knot whose successor lies beyond v, or the last. */
  function Locate(x: seq<real>, v: real, i: nat): (k: nat)
    requires i < |x|
    ensures i <= k < |x|
    ensures k + 1 < |x| ==> v < x[k + 1]
    ensures forall m :: i < m <= k ==> x[m] <= v
    decreases |x| - i
  {
    if i + 1 == |x| || v < x[i + 1] then i else Locate(x, v, i + 1)
  }

  /** The curve as `interpolate_y` evaluates it. */
  function Curve(x: seq<real>, q: seq<Cubic>, v: real): real
    requires |x| == |q| > 0
  {
    Eval(q[Locate(x, v, 0)], v - x[Locate(x, v, 0)])
  }

  /** v lies before the next knot and before no earlier one but the first. */
  ghost predicate FirstBefore(x: seq<real>, v: real, i: nat)
    requires i + 1 < |x|
  {
    v < x[i + 1] && forall j :: 0 < j <= i ==> x[j] <= v
  }

  ghost predicate BeforeNone(x: seq<real>, v: real) {
    forall j :: 0 < j < |x| ==> x[j] <= v
  }

  lemma LocatedFirst(x: seq<real>, v: real)
    requires |x| > 0
    ensures forall i :: 0 <= i < |x| - 1 && FirstBefore(x, v, i) ==> Locate(x, v, 0) == i
    ensures BeforeNone(x, v) ==> Locate(x, v, 0) == |x| - 1
  {}

  lemma {:induction false} LocateIs(x: seq<real>, v: real, i: nat, k: nat)
    requires Increasing(x) && i <= k < |x|
    requires k > 0 ==> x[k] <= v
    requires k + 1 < |x| ==> v < x[k + 1]
    ensures Locate(x, v, i) == k
    decreases k - i
  {
    if i < k {
      assert x[i + 1] <= x[k];
      LocateIs(x, v, i + 1, k);
    }
  }

  /** On each interval the curve is that interval's piece; it meets the data at
      every knot but the last, where it is zero whatever was measured there. */
  lemma CurveMeetsData(x: seq<real>, y: seq<real>, q: seq<Cubic>, i: nat, v: real)
    requires Table(x, y) && |q| == |x| && IsNaturalSpline(x, y, q[..|x| - 1]) && q[|x| - 1] == NOTHING
    requires i < |x| - 1
    ensures x[i] <= v < x[i + 1] ==> Curve(x, q, v) == Eval(q[i], v - x[i])
    ensures Curve(x, q, x[i]) == y[i]
    ensures v < x[0] ==> Curve(x, q, v) == Eval(q[0], v - x[0])
    ensures v >= x[|x| - 1] ==> Curve(x, q, v) == 0.0
  {
    if x[i] <= v < x[i + 1] { LocateIs(x, v, 0, i); }
    LocateIs(x, x[i], 0, i);
    assert MeetsData(x, y, q[..|x| - 1], i);
    if v >= x[|x| - 1] { LocateIs(x, v, 0, |x| - 1); }
  }

  method InterpolateY(x: array<real>, a: array<real>, b: array<real>, c: array<real>, d: array<real>, v: real)
      returns (r: real)
    requires 0 < a.Length == b.Length == c.Length == d.Length <= x.Length
    ensures r == Curve(x[..a.Length], Coefficients(a[..], b[..], c[..], d[..]), v)
    ensures forall i :: 0 <= i < a.Length - 1 && FirstBefore(x[..a.Length], v, i) ==>
                          r == Eval(Cubic(a[i], b[i], c[i], d[i]), v - x[i])
    ensures BeforeNone(x[..a.Length], v) ==>
              var n := a.Length - 1; r == Eval(Cubic(a[n], b[n], c[n], d[n]), v - x[n])
  {
    var n := a.Length;
    LocatedFirst(x[..n], v);
    var i := 0;
    while i < n - 1 && !(v < x[i + 1])
      invariant 0 <= i < n
      invariant Locate(x[..n], v, 0) == Locate(x[..n], v, i)
    {
      i := i + 1;
    }
    var dx := v - x[i];
    r := a[i] + b[i] * dx + c[i] * dx * dx + d[i] * dx * dx * dx;
    assert r == Eval(Cubic(a[i], b[i], c[i], d[i]), v - x[i]);
  }

  // ------------------------------------------------------------------- bracketing

  function Least(u: real, v: real): real { if v < u then v else u }

  function Most(u: real, v: real): real { if v > u then v else u }

  function KnotValue(x: seq<real>, q: seq<Cubic>, i: nat): real
    requires |x| == |q| && i < |x|
  {
    Curve(x, q, x[i])
  }

  /** The smallest and the largest value seen up to interval i; a zero at its far
      end is not taken for a minimum. */
  function LeastSeen(x: seq<real>, q: seq<Cubic>, i: nat): (r: real)
    requires |x| == |q| && i + 1 < |x|
    ensures r <= KnotValue(x, q, 0)
  {
    var before := if i == 0 then KnotValue(x, q, 0) else LeastSeen(x, q, i - 1);
    var near, far := KnotValue(x, q, i), KnotValue(x, q, i + 1);
    var least := Least(before, near);
    if far != 0.0 then Least(least, far) else least
  }

  function MostSeen(x: seq<real>, q: seq<Cubic>, i: nat): real
    requires |x| == |q| && i + 1 < |x|
  {
    var before := if i == 0 then KnotValue(x, q, 0) else MostSeen(x, q, i - 1);
    Most(Most(before, KnotValue(x, q, i)), KnotValue(x, q, i + 1))
  }

  predicate Brackets(x: seq<real>, q: seq<Cubic>, v: real, i: nat)
    requires |x| == |q| && i + 1 < |x|
  {
    var near, far := KnotValue(x, q, i), KnotValue(x, q, i + 1);
    (v >= near && v <= far) || (v <= near && v >= far)
  }

  predicate Stops(x: seq<real>, q: seq<Cubic>, v: real, i: nat)
    requires |x| == |q| && i + 1 < |x|
  {
    v < LeastSeen(x, q, i) || Brackets(x, q, v, i)
  }

  /** Where the search ends: the first interval that stops it, or beyond them all. */
  function Stop(x: seq<real>, q: seq<Cubic>, v: real, i: nat): (k: nat)
    requires |x| == |q| && i < |x|
    ensures i <= k < |x|
    ensures k + 1 < |x| ==> Stops(x, q, v, k)
    ensures forall m :: i <= m < k ==> !Stops(x, q, v, m)
    decreases |x| - i
  {
    if i + 1 == |x| || Stops(x, q, v, i) then i else Stop(x, q, v, i + 1)
  }

  /** A search that nothing stops has seen only smaller values: the answer of last
      resort, not a number, is never given, whatever the table. */
  lemma {:induction false} UnstoppedIsAbove(x: seq<real>, q: seq<Cubic>, v: real, i: nat)
    requires |x| == |q| && i + 1 < |x|
    requires forall m :: 0 <= m <= i ==> !Stops(x, q, v, m)
    ensures v > KnotValue(x, q, i) && v > KnotValue(x, q, i + 1)
    ensures v > MostSeen(x, q, i)
  {
    assert !Stops(x, q, v, i);
    if i > 0 { UnstoppedIsAbove(x, q, v, i - 1); }
  }

  lemma NeverStopped(x: seq<real>, q: seq<Cubic>, v: real)
    requires |x| == |q| >= 2 && Stop(x, q, v, 0) == |x| - 1
    ensures v > MostSeen(x, q, |x| - 2)
  {
    UnstoppedIsAbove(x, q, v, |x| - 2);
  }

  /** v lies below every value seen so far, a zero at the far end apart. */
  ghost predicate BelowAll(x: seq<real>, q: seq<Cubic>, v: real, i: nat)
    requires |x| == |q| && i + 1 < |x|
  {
    && (forall j :: 0 <= j <= i ==> v < KnotValue(x, q, j))
    && (v < KnotValue(x, q, i + 1) || KnotValue(x, q, i + 1) == 0.0)
  }

  /** v lies between the values at the ends, whichever is the larger. */
  predicate Between(u: real, v: real, w: real) {
    u <= v <= w || w <= v <= u
  }

  lemma {:induction false} BelowSeen(x: seq<real>, q: seq<Cubic>, v: real, i: nat)
    requires |x| == |q| && i + 1 < |x|
    ensures v < LeastSeen(x, q, i) <==> BelowAll(x, q, v, i)
  {
    if i > 0 { BelowSeen(x, q, v, i - 1); }
  }

  lemma AboveStopsNowhere(x: seq<real>, q: seq<Cubic>, v: real)
    requires |x| == |q| >= 2
    ensures Stop(x, q, v, 0) == |x| - 1 <==> forall i :: 0 <= i < |x| ==> v > KnotValue(x, q, i)
  {
    if Stop(x, q, v, 0) == |x| - 1 {
      forall i | 0 <= i < |x|
        ensures v > KnotValue(x, q, i)
      {
        UnstoppedIsAbove(x, q, v, if i + 1 < |x| then i else i - 1);
      }
    }
  }

  /** Where the search ends, for any table: nowhere exactly when v exceeds the values
      at all knots, and otherwise at the first interval whose values v lies between
      or by which it is below everything seen. */
  lemma SearchEnds(x: seq<real>, q: seq<Cubic>, v: real, k: nat)
    requires |x| == |q| >= 2 && k < |x| - 1
    ensures Stop(x, q, v, 0) == |x| - 1 <==> forall i :: 0 <= i < |x| ==> v > KnotValue(x, q, i)
    ensures Stop(x, q, v, 0) == k <==>
              && (BelowAll(x, q, v, k) || Between(KnotValue(x, q, k), v, KnotValue(x, q, k + 1)))
              && forall j :: 0 <= j < k ==>
                               !BelowAll(x, q, v, j) && !Between(KnotValue(x, q, j), v, KnotValue(x, q, j + 1))
    ensures v < LeastSeen(x, q, k) <==> BelowAll(x, q, v, k)
  {
    AboveStopsNowhere(x, q, v);
    forall j | 0 <= j < |x| - 1
      ensures Stops(x, q, v, j) <==> BelowAll(x, q, v, j) || Between(KnotValue(x, q, j), v, KnotValue(x, q, j + 1))
    {
      BelowSeen(x, q, v, j);
    }
    BelowSeen(x, q, v, k);
  }

  // -------------------------------------------------------------------- bisection

  function Halved(width: real, k: nat): real {
    if k == 0 then width else Halved(width, k - 1) * 0.5
  }

  function PowerOfTwo(k: nat): (r: real)
    ensures r > 0.0
  {
    if k == 0 then 1.0 else 2.0 * PowerOfTwo(k - 1)
  }

  lemma {:induction false} HalvedIsQuotient(width: real, k: nat)
    ensures Halved(width, k) * PowerOfTwo(k) == width
    ensures PowerOfTwo(0) == 1.0 && PowerOfTwo(k + 1) == PowerOfTwo(k) + PowerOfTwo(k)
  {
    if k > 0 { HalvedIsQuotient(width, k - 1); }
  }

  predicate LowSide(x: seq<real>, q: seq<Cubic>, low: real, v: real, falling: bool)
    requires |x| == |q| > 0
  {
    if falling then Curve(x, q, low) > v else Curve(x, q, low) <= v
  }

  predicate HighSide(x: seq<real>, q: seq<Cubic>, high: real, v: real, falling: bool)
    requires |x| == |q| > 0
  {
    if falling then v >= Curve(x, q, high) else v <= Curve(x, q, high)
  }

  predicate Encloses(x: seq<real>, q: seq<Cubic>, low: real, high: real, v: real, falling: bool)
    requires |x| == |q| > 0
  {
    LowSide(x, q, low, v, falling) && HighSide(x, q, high, v, falling)
  }

  /** A bracket that encloses v, or still ends where interval i does, when that end
      does not lie on the other side of v. */
  predicate Narrows(x: seq<real>, q: seq<Cubic>, i: nat, low: real, high: real, v: real, falling: bool)
    requires |x| == |q| && i + 1 < |x|
  {
    && LowSide(x, q, low, v, falling)
    && (HighSide(x, q, high, v, falling) || (high == x[i + 1] && !HighSide(x, q, x[i + 1], v, falling)))
  }

  function Distance(u: real, v: real): real {
    if u < v then v - u else u - v
  }

  /** The answer is close enough, or an end of a bracket halved `rounds` times. */
  ghost predicate Bisected(x: seq<real>, q: seq<Cubic>, i: nat, v: real, rounds: nat, tolerance: real, r: real)
    requires |x| == |q| && i + 1 < |x|
  {
    && x[i] <= r <= x[i + 1]
    && (|| Distance(Curve(x, q, r), v) < tolerance
        || exists low, high :: EndsBracket(x, q, i, v, rounds, low, high, r))
  }

  predicate EndsBracket(x: seq<real>, q: seq<Cubic>, i: nat, v: real, rounds: nat, low: real, high: real, r: real)
    requires |x| == |q| && i + 1 < |x|
  {
    && x[i] <= low <= high <= x[i + 1]
    && high - low == Halved(x[i + 1] - x[i], rounds)
    && Narrows(x, q, i, low, high, v, KnotValue(x, q, i) > v)
    && (if rounds == 0 then r == 0.5 * (low + high) else r == low || r == high)
  }

  /** One round keeps a bracket of half the width. */
  lemma RoundKeeps(x: seq<real>, q: seq<Cubic>, i: nat, low: real, high: real, v: real, falling: bool, width: real)
    requires |x| == |q| && i + 1 < |x| && low <= high && high - low == width
    ensures var mid := 0.5 * (low + high);
            && low <= mid <= high
            && mid - low == width * 0.5 == high - mid
            && (Narrows(x, q, i, low, high, v, falling) ==>
                  if (Curve(x, q, mid) > v) == falling then Narrows(x, q, i, mid, high, v, falling)
                  else Narrows(x, q, i, low, mid, v, falling))
  {}

  /** The arrays, as the sequences that properties speak of. */
  ghost predicate Reads(x: array<real>, a: array<real>, b: array<real>, c: array<real>, d: array<real>,
                        X: seq<real>, Q: seq<Cubic>)
    reads x, a, b, c, d
  {
    && 0 < a.Length == b.Length == c.Length == d.Length <= x.Length
    && X == x[..a.Length] && Q == Coefficients(a[..], b[..], c[..], d[..])
  }

  method Evaluate(x: array<real>, a: array<real>, b: array<real>, c: array<real>, d: array<real>, v: real,
                  ghost X: seq<real>, ghost Q: seq<Cubic>)
      returns (r: real)
    requires Reads(x, a, b, c, d, X, Q)
    ensures r == Curve(X, Q, v)
  {
    r := InterpolateY(x, a, b, c, d, v);
  }

  method Bisect(x: array<real>, a: array<real>, b: array<real>, c: array<real>, d: array<real>,
                i: nat, y0: real, v: real, maxIter: int, tol: real, ghost X: seq<real>, ghost Q: seq<Cubic>)
      returns (mid: real)
    requires Reads(x, a, b, c, d, X, Q) && i + 1 < |X| && X[i] <= X[i + 1]
    requires y0 == KnotValue(X, Q, i)
    ensures Bisected(X, Q, i, v, if maxIter < 0 then 0 else maxIter, tol, mid)
  {
    var low, high := x[i], x[i + 1];
    mid := 0.5 * (low + high);
    var j := 0;
    while j < maxIter
      invariant 0 <= j && (j <= maxIter || (maxIter < 0 && j == 0))
      invariant X[i] <= low <= high <= X[i + 1] && X[i] <= mid <= X[i + 1]
      invariant EndsBracket(X, Q, i, v, j, low, high, mid)
    {
      RoundKeeps(X, Q, i, low, high, v, y0 > v, high - low);
      mid := 0.5 * (low + high);
      var yMid := Evaluate(x, a, b, c, d, mid, X, Q);
      if Distance(yMid, v) < tol { return; }
      if (yMid > v) == (y0 > v) { low := mid; } else { high := mid; }
      j := j + 1;
    }
  }

  function LeastBefore(x: seq<real>, q: seq<Cubic>, i: nat): real
    requires |x| == |q| && i < |x|
  {
    if i == 0 then KnotValue(x, q, 0) else LeastSeen(x, q, i - 1)
  }

  function MostBefore(x: seq<real>, q: seq<Cubic>, i: nat): real
    requires |x| == |q| && i < |x|
  {
    if i == 0 then KnotValue(x, q, 0) else MostSeen(x, q, i - 1)
  }

  /** Evaluates both ends of interval i and tracks the smallest and largest value. */
  method Look(x: array<real>, a: array<real>, b: array<real>, c: array<real>, d: array<real>,
              i: nat, least0: real, most0: real, ghost X: seq<real>, ghost Q: seq<Cubic>)
      returns (y0: real, y1: real, least: real, most: real)
    requires Reads(x, a, b, c, d, X, Q) && i + 1 < |X|
    requires least0 == LeastBefore(X, Q, i) && most0 == MostBefore(X, Q, i)
    ensures y0 == KnotValue(X, Q, i) && y1 == KnotValue(X, Q, i + 1)
    ensures least == LeastSeen(X, Q, i) && most == MostSeen(X, Q, i)
  {
    y0 := Evaluate(x, a, b, c, d, x[i], X, Q);
    y1 := Evaluate(x, a, b, c, d, x[i + 1], X, Q);
    least, most := least0, most0;
    if y0 > most { most := y0; }
    if y1 > most { most := y1; }
    if y0 < least { least := y0; }
    if y1 < least && y1 != 0.0 { least := y1; }
  }

  /** `interpolate_x`; None stands for not-a-number, and is never returned. */
  method InterpolateX(x: array<real>, a: array<real>, b: array<real>, c: array<real>, d: array<real>,
                      v: real, maxIter: int, tol: real, ghost X: seq<real>, ghost Q: seq<Cubic>)
      returns (r: Option<real>)
    requires Reads(x, a, b, c, d, X, Q) && |X| >= 2 && Increasing(X)
    ensures var k := Stop(X, Q, v, 0);
            if k == |X| - 1 then r == Some(1050.0)
            else if v < LeastSeen(X, Q, k) then r == Some(0.1)
            else r.Some? && Bisected(X, Q, k, v, if maxIter < 0 then 0 else maxIter, tol, r.value)
  {
    var n := a.Length;
    var most := Evaluate(x, a, b, c, d, x[0], X, Q);
    var least := most;
    for i := 0 to n - 1
      invariant Stop(X, Q, v, 0) == Stop(X, Q, v, i)
      invariant least == LeastBefore(X, Q, i) && most == MostBefore(X, Q, i)
    {
      var y0, y1;
      y0, y1, least, most := Look(x, a, b, c, d, i, least, most, X, Q);
      if v < least {
        assert Stop(X, Q, v, 0) == i;
        return Some(0.1);
      }
      if (v >= y0 && v <= y1) || (v <= y0 && v >= y1) {
        var mid := Bisect(x, a, b, c, d, i, y0, v, maxIter, tol, X, Q);
        return Some(mid);
      }
    }
    NeverStopped(X, Q, v);
    if v > most { return Some(1050.0); }
    r := None;
  }

  // ------------------------------------------------------- an increasing table

  lemma LeastIsFirst(x: seq<real>, y: seq<real>, q: seq<Cubic>, i: nat)
    requires Table(x, y) && |q| == |x| && IsNaturalSpline(x, y, q[..|x| - 1]) && q[|x| - 1] == NOTHING
    requires Increasing(y) && y[0] > 0.0 && i < |x| - 1
    ensures LeastSeen(x, q, i) == y[0]
  {
    if i > 0 { LeastIsFirst(x, y, q, i - 1); }
    CurveMeetsData(x, y, q, 0, x[0]);
    CurveMeetsData(x, y, q, i, x[|x| - 1]);
    if i + 1 < |x| - 1 { CurveMeetsData(x, y, q, i + 1, x[0]); }
  }

  ghost predicate Calibrated(x: seq<real>, y: seq<real>, q: seq<Cubic>) {
    && Table(x, y) && |x| >= 2 && |q| == |x|
    && IsNaturalSpline(x, y, q[..|x| - 1]) && q[|x| - 1] == NOTHING
    && Increasing(y) && y[0] > 0.0
  }

  /** What the search sees of a strictly increasing positive table. */
  lemma KnotsSeen(x: seq<real>, y: seq<real>, q: seq<Cubic>, v: real, i: nat)
    requires Calibrated(x, y, q) && i < |x| - 1
    ensures KnotValue(x, q, i) == y[i]
    ensures KnotValue(x, q, i + 1) == if i + 1 < |x| - 1 then y[i + 1] else 0.0
    ensures Stops(x, q, v, i) <==> v < y[0] || (i < |x| - 2 && y[i] <= v <= y[i + 1]) || (i == |x| - 2 && 0.0 <= v <= y[i])
    ensures v < LeastSeen(x, q, i) <==> v < y[0]
  {
    CurveMeetsData(x, y, q, i, x[|x| - 1]);
    LeastIsFirst(x, y, q, i);
    if i + 1 < |x| - 1 { CurveMeetsData(x, y, q, i + 1, x[0]); }
  }

  /** For a strictly increasing positive magnitude table the answer is 0.1 below
      the first magnitude, 1050 above the last but one, and otherwise a point of
      an interval whose magnitudes enclose the value, either within the tolerance
      or an end of an enclosing bracket of that interval's width over two to the
      number of rounds.  With two knots the last but one is the first, and of the one
      value left nothing is enclosed at the far end, where the curve is zero. */
  lemma IncreasingTableInverts(x: seq<real>, y: seq<real>, q: seq<Cubic>, v: real)
    requires Calibrated(x, y, q)
    ensures var n, k := |x|, Stop(x, q, v, 0);
            && (k == n - 1 <==> v > y[n - 2])
            && (k < n - 1 ==> (v < LeastSeen(x, q, k) <==> v < y[0]))
            && (y[0] <= v <= y[n - 2] ==>
                  if n == 2 then k == 0 && v == y[0] && !HighSide(x, q, x[1], v, KnotValue(x, q, 0) > v)
                  else k < n - 2 && y[k] <= v <= y[k + 1] && Encloses(x, q, x[k], x[k + 1], v, KnotValue(x, q, k) > v))
  {
    var n, k := |x|, Stop(x, q, v, 0);
    if n == 2 { KnotsSeen(x, y, q, v, 0); }
    if v <= y[n - 2] { SearchStops(x, y, q, v); }
    if k < n - 1 { StoppedInside(x, y, q, v, k); }
  }

  /** Up to the last magnitude but one the search stops, and with more than two knots
      before the last interval. */
  lemma SearchStops(x: seq<real>, y: seq<real>, q: seq<Cubic>, v: real)
    requires Calibrated(x, y, q) && v <= y[|x| - 2]
    ensures Stop(x, q, v, 0) < |x| - 1 && (|x| > 2 ==> Stop(x, q, v, 0) < |x| - 2)
  {
    if v < y[0] || |x| == 2 {
      KnotsSeen(x, y, q, v, 0);
    } else {
      var i := Enclosing(y[..|x| - 1], v);
      KnotsSeen(x, y, q, v, i);
      assert Stop(x, q, v, 0) <= i;
    }
  }

  lemma StoppedInside(x: seq<real>, y: seq<real>, q: seq<Cubic>, v: real, k: nat)
    requires Calibrated(x, y, q) && k < |x| - 1 && Stops(x, q, v, k)
    ensures v <= y[|x| - 2] && (v < LeastSeen(x, q, k) <==> v < y[0])
    ensures y[0] <= v && k < |x| - 2 ==>
              y[k] <= v <= y[k + 1] && Encloses(x, q, x[k], x[k + 1], v, KnotValue(x, q, k) > v)
  {
    KnotsSeen(x, y, q, v, k);
    assert y[0] <= y[|x| - 2] && y[k] <= y[|x| - 2];
    if k < |x| - 2 { assert y[k + 1] <= y[|x| - 2]; }
  }

  lemma {:induction false} Enclosing(y: seq<real>, v: real) returns (i: nat)
    requires |y| >= 2 && y[0] <= v <= y[|y| - 1]
    ensures i + 1 < |y| && y[i] <= v <= y[i + 1]
  {
    if |y| == 2 || v >= y[|y| - 2] { i := |y| - 2; } else { i := Enclosing(y[..|y| - 1], v); }
  }

  // ------------------------------------------------------------------- end to end

  lemma CoefficientsArePieces(a: seq<real>, b: seq<real>, c: seq<real>, d: seq<real>)
    requires |a| == |b| == |c| == |d| > 0
    ensures PiecesIn(a, b, c, d) == Coefficients(a, b, c, d)[..|a| - 1]
  {}

  const ROUNDS := 100
  const TOLERANCE := 0.000001

  /** The end of a bracket that is the interval halved `rounds` times, with the curve
      not above v at its low end and, but for the last interval, not below it at its
      high end. */
  ghost predicate Halves(x: seq<real>, q: seq<Cubic>, k: nat, v: real, rounds: nat, low: real, high: real, r: real)
    requires |x| == |q| && k + 1 < |x|
  {
    && x[k] <= low <= high <= x[k + 1] && (r == low || r == high)
    && high - low == Halved(x[k + 1] - x[k], rounds)
    && Curve(x, q, low) <= v
    && (v <= Curve(x, q, high) || (k == |x| - 2 && high == x[k + 1]))
  }

  /** The resistance lies in interval k, and either the curve comes within the tolerance
      of v there, or it is the end of such a bracket. */
  ghost predicate Located(x: seq<real>, q: seq<Cubic>, k: nat, v: real, rounds: nat, tolerance: real, r: real)
    requires |x| == |q| && k + 1 < |x|
  {
    && x[k] <= r <= x[k + 1]
    && (|| -tolerance < Curve(x, q, r) - v < tolerance
        || exists low, high :: Halves(x, q, k, v, rounds, low, high, r))
  }

  lemma BracketHalves(x: seq<real>, q: seq<Cubic>, k: nat, v: real, rounds: nat, low: real, high: real, r: real)
    requires |x| == |q| && k + 1 < |x| && rounds > 0 && EndsBracket(x, q, k, v, rounds, low, high, r)
    requires KnotValue(x, q, k) <= v && (k < |x| - 2 ==> HighSide(x, q, x[k + 1], v, false))
    ensures Halves(x, q, k, v, rounds, low, high, r)
  {}

  lemma BisectedIsLocated(x: seq<real>, q: seq<Cubic>, k: nat, v: real, rounds: nat, tolerance: real, r: real)
    requires |x| == |q| && k + 1 < |x|
    requires KnotValue(x, q, k) <= v && (k < |x| - 2 ==> HighSide(x, q, x[k + 1], v, false))
    requires rounds > 0 && Bisected(x, q, k, v, rounds, tolerance, r)
    ensures Located(x, q, k, v, rounds, tolerance, r)
  {
    if !(Distance(Curve(x, q, r), v) < tolerance) {
      var low, high :| EndsBracket(x, q, k, v, rounds, low, high, r);
      BracketHalves(x, q, k, v, rounds, low, high, r);
    }
  }

  ghost predicate IsLocated(x: seq<real>, y: seq<real>, q: seq<Cubic>, v: real, r: real)
    requires |x| == |y| == |q| >= 2
  {
    exists k: nat :: (if |x| == 2 then k == 0 else k < |x| - 2) && y[k] <= v <= y[k + 1]
                     && Located(x, q, k, v, 100, 0.000001, r)
  }

  lemma LocatedThere(x: seq<real>, y: seq<real>, q: seq<Cubic>, v: real, r: real)
    requires Calibrated(x, y, q) && y[0] <= v <= y[|x| - 2]
    requires Stop(x, q, v, 0) < |x| - 1 && Bisected(x, q, Stop(x, q, v, 0), v, 100, 0.000001, r)
    ensures IsLocated(x, y, q, v, r)
  {
    IncreasingTableInverts(x, y, q, v);
    KnotsSeen(x, y, q, v, Stop(x, q, v, 0));
    BisectedIsLocated(x, q, Stop(x, q, v, 0), v, 100, 0.000001, r);
  }

  /** From a calibration table to the resistance for a measured magnitude. */
  method ResistanceFor(x: array<real>, y: array<real>, a: array<real>, b: array<real>, c: array<real>, d: array<real>, v: real)
      returns (r: real)
    requires 2 <= y.Length == a.Length == b.Length == c.Length == d.Length <= x.Length
    requires Increasing(x[..y.Length]) && Increasing(y[..]) && y[0] > 0.0
    requires a !in {b, c, d, x, y} && b !in {c, d, x, y} && c !in {d, x, y} && d !in {x, y}
    requires a[y.Length - 1] == b[y.Length - 1] == d[y.Length - 1] == 0.0
    modifies a, b, c, d
    ensures Calibrated(x[..y.Length], y[..], Coefficients(a[..], b[..], c[..], d[..]))
    ensures v < y[0] ==> r == 0.1
    ensures v > y[y.Length - 2] ==> r == 1050.0
    ensures y[0] <= v <= y[y.Length - 2] ==>
              IsLocated(x[..y.Length], y[..], Coefficients(a[..], b[..], c[..], d[..]), v, r)
  {
    ComputeSplineCoefficients(x, y, a, b, c, d);
    ghost var X, Q := x[..y.Length], Coefficients(a[..], b[..], c[..], d[..]);
    CoefficientsArePieces(a[..], b[..], c[..], d[..]);
    assert Calibrated(X, y[..], Q);
    IncreasingTableInverts(X, y[..], Q, v);
    var found := InterpolateX(x, a, b, c, d, v, ROUNDS, TOLERANCE, X, Q);
    r := found.value;
    if y[0] <= v <= y[y.Length - 2] { LocatedThere(X, y[..], Q, v, r); }
  }

  // ------------------------------------------------------------------------ phase

  /** `interpolate_phase`: as the curve, but the last piece goes on for ever. */
  method InterpolatePhase(m: array<real>, a: array<real>, b: array<real>, c: array<real>, d: array<real>, v: real)
      returns (r: real)
    requires 2 <= a.Length == b.Length == c.Length == d.Length <= m.Length
    ensures r == Phase(m[..a.Length], Coefficients(a[..], b[..], c[..], d[..]), v)
    ensures forall i :: 0 <= i < a.Length - 1 && FirstBefore(m[..a.Length], v, i) ==>
                          r == Eval(Cubic(a[i], b[i], c[i], d[i]), v - m[i])
    ensures BeforeNone(m[..a.Length], v) ==>
              var n := a.Length - 2; r == Eval(Cubic(a[n], b[n], c[n], d[n]), v - m[n])
  {
    var n := a.Length;
    LocatedFirst(m[..n], v);
    var i := 0;
    while i < n - 1 && !(v < m[i + 1])
      invariant 0 <= i < n
      invariant Locate(m[..n], v, 0) == Locate(m[..n], v, i)
    {
      i := i + 1;
    }
    if i >= n - 1 { i := n - 2; }
    var dx := v - m[i];
    r := a[i] + b[i] * dx + c[i] * dx * dx + d[i] * dx * dx * dx;
    assert r == Eval(Cubic(a[i], b[i], c[i], d[i]), v - m[i]);
  }

  function Phase(x: seq<real>, q: seq<Cubic>, v: real): real
    requires |x| == |q| >= 2
  {
    var k := Locate(x, v, 0);
    var i := if k >= |x| - 1 then |x| - 2 else k;
    Eval(q[i], v - x[i])
  }

  /** Between two knots the phase curve is their piece, below the table the first and
      above it the last one continued. */
  lemma PhaseIsPiecewise(x: seq<real>, q: seq<Cubic>, v: real, i: nat)
    requires Increasing(x) && |q| == |x| >= 2 && i < |x| - 1
    ensures x[i] <= v < x[i + 1] ==> Phase(x, q, v) == Eval(q[i], v - x[i])
    ensures v < x[0] ==> Phase(x, q, v) == Eval(q[0], v - x[0])
    ensures v >= x[|x| - 1] ==> Phase(x, q, v) == Eval(q[|x| - 2], v - x[|x| - 2])
  {
    if x[i] <= v < x[i + 1] { LocateIs(x, v, 0, i); }
    if v >= x[|x| - 1] { LocateIs(x, v, 0, |x| - 1); }
  }

  /** Unlike the magnitude curve, the phase curve meets the data at every knot. */
  lemma PhaseMeetsData(x: seq<real>, y: seq<real>, q: seq<Cubic>, i: nat)
    requires Table(x, y) && |q| == |x| && IsNaturalSpline(x, y, q[..|x| - 1])
    requires i < |x|
    ensures Phase(x, q, x[i]) == y[i]
  {
    LocateIs(x, x[i], 0, i);
    assert MeetsData(x, y, q[..|x| - 1], if i < |x| - 1 then i else i - 1);
  }
}
