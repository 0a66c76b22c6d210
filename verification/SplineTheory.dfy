/** Natural cubic splines: the elimination the calibration uses, as functions on
    sequences, and why it yields the one natural spline through the data. */
module SplineTheory {

  ghost predicate Increasing(x: seq<real>) {
    forall i, j :: 0 <= i < j < |x| ==> x[i] < x[j]
  }

  /** A table of at least two knots. */
  ghost predicate Table(x: seq<real>, y: seq<real>) {
    |x| == |y| >= 2 && Increasing(x)
  }

  function H(x: seq<real>, i: nat): real
    requires i + 1 < |x|
  {
    x[i + 1] - x[i]
  }

  // ------------------------------------------------------- the tridiagonal system

  function Alpha(x: seq<real>, y: seq<real>, i: nat): real
    requires Table(x, y) && 0 < i < |x| - 1
  {
    (3.0 / H(x, i)) * (y[i + 1] - y[i]) - (3.0 / H(x, i - 1)) * (y[i] - y[i - 1])
  }

  ghost predicate Row(h0: real, h1: real, c0: real, c1: real, c2: real, alpha: real) {
    h0 * c0 + 2.0 * (h0 + h1) * c1 + h1 * c2 == alpha
  }

  ghost predicate RowHolds(x: seq<real>, y: seq<real>, c: seq<real>, i: nat)
    requires Table(x, y) && |c| == |x| && 0 < i < |x| - 1
  {
    Row(H(x, i - 1), H(x, i), c[i - 1], c[i], c[i + 1], Alpha(x, y, i))
  }

  ghost predicate Solves(x: seq<real>, y: seq<real>, c: seq<real>)
    requires Table(x, y)
  {
    && |c| == |x| && c[0] == 0.0 && c[|x| - 1] == 0.0
    && forall i :: 0 < i < |x| - 1 ==> RowHolds(x, y, c, i)
  }

  // -------------------------------------------------------------- the elimination

  /** The pivot stays above the next interval, so the next factor stays below one. */
  lemma PivotExceeds(h0: real, h1: real, mu: real)
    requires 0.0 < h0 && 0.0 < h1 && 0.0 <= mu < 1.0
    ensures 2.0 * (h0 + h1) - h0 * mu > h1
  {
    assert h0 * mu <= h0;
  }

  lemma Cancel(u: real, v: real, l: real)
    requires l > 0.0 && u * l < v * l
    ensures u < v
  {}

  lemma QuotientBelowOne(h: real, l: real)
    requires 0.0 < h < l
    ensures h / l * l == h && 0.0 < h / l < 1.0
  {
    var q := h / l;
    assert q * l == h;
    Cancel(0.0, q, l);
    Cancel(q, 1.0, l);
  }

  lemma Quotient(u: real, l: real)
    requires l > 0.0
    ensures u / l * l == u
  {}

  /** One row of the forward pass, free of divisions: a positive pivot, a factor
      below one and the eliminated right-hand side. */
  ghost predicate Forward(h0: real, h1: real, alpha: real, mu0: real, z0: real, l: real, mu: real, z: real) {
    && l == 2.0 * (h0 + h1) - h0 * mu0
    && l > 0.0 && 0.0 <= mu < 1.0
    && mu * l == h1
    && z * l == alpha - h0 * z0
  }

  lemma ForwardStep(h0: real, h1: real, alpha: real, mu0: real, z0: real)
    requires 0.0 < h0 && 0.0 < h1 && 0.0 <= mu0 < 1.0
    ensures var l := 2.0 * (h0 + h1) - h0 * mu0;
            l > 0.0 && Forward(h0, h1, alpha, mu0, z0, l, h1 / l, (alpha - h0 * z0) / l)
  {
    var l := 2.0 * (h0 + h1) - h0 * mu0;
    PivotExceeds(h0, h1, mu0);
    QuotientBelowOne(h1, l);
    Quotient(alpha - h0 * z0, l);
  }

  /** A row of the forward pass with two steps of the backward one is a row of the
      system. */
  lemma RowFromSteps(h0: real, h1: real, alpha: real, mu0: real, z0: real, l: real, mu: real, z: real,
                     c0: real, c1: real, c2: real)
    requires Forward(h0, h1, alpha, mu0, z0, l, mu, z)
    requires c0 == z0 - mu0 * c1 && c1 == z - mu * c2
    ensures Row(h0, h1, c0, c1, c2, alpha)
  {
    assert l * c1 == z * l - (mu * l) * c2;
    assert h0 * c0 == h0 * z0 - h0 * mu0 * c1;
    assert l * c1 == 2.0 * (h0 + h1) * c1 - h0 * mu0 * c1;
  }

  /** Two solutions of a row differ by a multiple of the next difference. */
  lemma DifferenceStep(h0: real, h1: real, alpha: real, mu0: real, z0: real, l: real, mu: real, z: real,
                       c0: real, c1: real, c2: real, b0: real, b1: real, b2: real)
    requires Forward(h0, h1, alpha, mu0, z0, l, mu, z)
    requires Row(h0, h1, c0, c1, c2, alpha) && Row(h0, h1, b0, b1, b2, alpha)
    requires c0 - b0 == -mu0 * (c1 - b1)
    ensures c1 - b1 == -mu * (c2 - b2)
  {
    var e0, e1, e2 := c0 - b0, c1 - b1, c2 - b2;
    assert h0 * e0 + 2.0 * (h0 + h1) * e1 + h1 * e2 == 0.0;
    assert h0 * e0 == -(h0 * mu0) * e1;
    assert l * e1 == 2.0 * (h0 + h1) * e1 - h0 * mu0 * e1;
    assert l * e1 == -h1 * e2;
    assert l * (e1 + mu * e2) == l * e1 + (mu * l) * e2;
    Zero(e1 + mu * e2, l);
  }

  lemma Zero(u: real, h: real)
    requires h > 0.0 && h * u == 0.0
    ensures u == 0.0
  {}

  /** The factors of the forward pass exist for every increasing table. */
  lemma {:induction false} Factors(x: seq<real>, y: seq<real>, n: nat) returns (l: seq<real>, mu: seq<real>, z: seq<real>)
    requires Table(x, y) && 0 < n < |x|
    ensures |l| == |mu| == |z| == n && mu[0] == 0.0 && z[0] == 0.0
    ensures forall i :: 0 <= i < n ==> 0.0 <= mu[i] < 1.0
    ensures forall i :: 0 < i < n ==> Forward(H(x, i - 1), H(x, i), Alpha(x, y, i), mu[i - 1], z[i - 1], l[i], mu[i], z[i])
  {
    if n == 1 {
      l, mu, z := [1.0], [0.0], [0.0];
    } else {
      var l0, mu0, z0 := Factors(x, y, n - 1);
      var i := n - 1;
      ForwardStep(H(x, i - 1), H(x, i), Alpha(x, y, i), mu0[i - 1], z0[i - 1]);
      var p := 2.0 * (H(x, i - 1) + H(x, i)) - H(x, i - 1) * mu0[i - 1];
      l, mu, z := l0 + [p], mu0 + [H(x, i) / p], z0 + [(Alpha(x, y, i) - H(x, i - 1) * z0[i - 1]) / p];
    }
  }

  lemma {:induction false} Differences(x: seq<real>, y: seq<real>, c: seq<real>, b: seq<real>,
                                       l: seq<real>, mu: seq<real>, z: seq<real>, i: nat)
    requires Table(x, y) && Solves(x, y, c) && Solves(x, y, b) && i < |x| - 1
    requires |l| == |mu| == |z| == |x| - 1 && mu[0] == 0.0
    requires forall k :: 0 < k < |x| - 1 ==> Forward(H(x, k - 1), H(x, k), Alpha(x, y, k), mu[k - 1], z[k - 1], l[k], mu[k], z[k])
    ensures c[i] - b[i] == -mu[i] * (c[i + 1] - b[i + 1])
  {
    if i > 0 {
      Differences(x, y, c, b, l, mu, z, i - 1);
      assert RowHolds(x, y, c, i) && RowHolds(x, y, b, i);
      DifferenceStep(H(x, i - 1), H(x, i), Alpha(x, y, i), mu[i - 1], z[i - 1], l[i], mu[i], z[i],
                     c[i - 1], c[i], c[i + 1], b[i - 1], b[i], b[i + 1]);
    }
  }

  /** The system has at most one solution. */
  lemma SolutionIsUnique(x: seq<real>, y: seq<real>, c: seq<real>, b: seq<real>)
    requires Table(x, y) && Solves(x, y, c) && Solves(x, y, b)
    ensures c == b
  {
    var l, mu, z := Factors(x, y, |x| - 1);
    var j := |x| - 1;
    while j > 0
      invariant 0 <= j < |x|
      invariant forall k :: j <= k < |x| ==> c[k] == b[k]
    {
      j := j - 1;
      Differences(x, y, c, b, l, mu, z, j);
    }
  }

  // ------------------------------------------------------------------ the pieces

  datatype Cubic = Cubic(a: real, b: real, c: real, d: real)

  function Eval(p: Cubic, t: real): real {
    p.a + p.b * t + p.c * t * t + p.d * t * t * t
  }

  /** First and second derivative. */
  function Slope(p: Cubic, t: real): real {
    p.b + 2.0 * p.c * t + 3.0 * p.d * t * t
  }

  function Bend(p: Cubic, t: real): real {
    2.0 * p.c + 6.0 * p.d * t
  }

  ghost predicate MeetsData(x: seq<real>, y: seq<real>, p: seq<Cubic>, i: nat)
    requires Table(x, y) && |p| == |x| - 1 && i < |p|
  {
    Eval(p[i], 0.0) == y[i] && Eval(p[i], H(x, i)) == y[i + 1]
  }

  ghost predicate Smooth(x: seq<real>, p: seq<Cubic>, i: nat)
    requires |p| == |x| - 1 && i + 1 < |p|
  {
    Slope(p[i], H(x, i)) == Slope(p[i + 1], 0.0) && Bend(p[i], H(x, i)) == Bend(p[i + 1], 0.0)
  }

  /** The pieces meet the data, join with equal value, slope and bend at every
      interior knot, and do not bend at the ends. */
  ghost predicate IsNaturalSpline(x: seq<real>, y: seq<real>, p: seq<Cubic>)
    requires Table(x, y)
  {
    && |p| == |x| - 1
    && (forall i :: 0 <= i < |p| ==> MeetsData(x, y, p, i))
    && (forall i :: 0 <= i < |p| - 1 ==> Smooth(x, p, i))
    && Bend(p[0], 0.0) == 0.0
    && Bend(p[|p| - 1], H(x, |p| - 1)) == 0.0
  }

  /** `a`, `b`, `c` and `d` from the curvatures. */
  function PieceFor(h: real, y0: real, y1: real, c0: real, c1: real): Cubic
    requires h != 0.0
  {
    Cubic(y0, (y1 - y0) / h - h * (c1 + 2.0 * c0) / 3.0, c0, (c1 - c0) / (3.0 * h))
  }

  ghost predicate PieceOk(x: seq<real>, y: seq<real>, c: seq<real>, p: Cubic, i: nat)
    requires Table(x, y) && |c| == |x| && i < |x| - 1
  {
    p == PieceFor(H(x, i), y[i], y[i + 1], c[i], c[i + 1])
  }

  /** The pieces with these curvatures. */
  ghost predicate HasCurvatures(x: seq<real>, y: seq<real>, c: seq<real>, p: seq<Cubic>)
    requires Table(x, y)
  {
    && |c| == |x| && |p| == |x| - 1
    && forall i :: 0 <= i < |p| ==> PieceOk(x, y, c, p[i], i)
  }

  lemma Third(h: real, u: real)
    requires h > 0.0
    ensures u / (3.0 * h) * h == u / 3.0
  {
    var e := u / (3.0 * h);
    assert e * (3.0 * h) == u;
    assert e * (3.0 * h) == 3.0 * (e * h);
  }

  /** A piece built from curvatures ends at the next value, with this slope. */
  lemma PieceEnds(h: real, y0: real, y1: real, c0: real, c1: real)
    requires h > 0.0
    ensures var p := PieceFor(h, y0, y1, c0, c1);
            && Eval(p, h) == y1
            && Bend(p, h) == 2.0 * c1
            && Slope(p, h) == (y1 - y0) / h + h * (2.0 * c1 + c0) / 3.0
  {
    var p := PieceFor(h, y0, y1, c0, c1);
    var q := (y1 - y0) / h;
    assert q * h == y1 - y0;
    Third(h, c1 - c0);
    assert p.d * h == (c1 - c0) / 3.0;
    assert p.d * h * h == (c1 - c0) / 3.0 * h;
    assert p.d * h * h * h == (c1 - c0) / 3.0 * h * h;
    assert p.b * h == q * h - h * (c1 + 2.0 * c0) / 3.0 * h;
    assert h * (c1 + 2.0 * c0) / 3.0 * h == (c1 + 2.0 * c0) / 3.0 * h * h;
  }

  /** Equal slopes at a knot are exactly one row of the system. */
  lemma SlopesMeet(h0: real, h1: real, y0: real, y1: real, y2: real, c0: real, c1: real, c2: real)
    requires h0 > 0.0 && h1 > 0.0
    ensures Slope(PieceFor(h0, y0, y1, c0, c1), h0) == Slope(PieceFor(h1, y1, y2, c1, c2), 0.0)
            <==> h0 * c0 + 2.0 * (h0 + h1) * c1 + h1 * c2 == (3.0 / h1) * (y2 - y1) - (3.0 / h0) * (y1 - y0)
  {
    PieceEnds(h0, y0, y1, c0, c1);
    ThreeOver(h0, y1 - y0);
    ThreeOver(h1, y2 - y1);
    assert h0 * (2.0 * c1 + c0) == 2.0 * h0 * c1 + h0 * c0;
    assert h1 * (c2 + 2.0 * c1) == h1 * c2 + 2.0 * h1 * c1;
    assert 2.0 * (h0 + h1) * c1 == 2.0 * h0 * c1 + 2.0 * h1 * c1;
  }

  lemma ThreeOver(h: real, u: real)
    requires h > 0.0
    ensures (3.0 / h) * u == 3.0 * (u / h)
  {
    var v, w := 3.0 / h, u / h;
    assert v * h == 3.0 && w * h == u;
    assert v * (w * h) == (v * h) * w;
  }

  /** A cubic that meets both values and bends this much is that piece. */
  lemma PieceIsDetermined(p: Cubic, h: real, y0: real, y1: real, c1: real)
    requires h > 0.0
    requires Eval(p, 0.0) == y0 && Eval(p, h) == y1 && Bend(p, h) == 2.0 * c1
    ensures p == PieceFor(h, y0, y1, p.c, c1)
  {
    var q := PieceFor(h, y0, y1, p.c, c1);
    PieceEnds(h, y0, y1, p.c, c1);
    Zero(p.d - q.d, h);
    assert p.a == q.a && p.c == q.c;
    assert p.d == q.d;
    Zero(p.b - q.b, h);
  }

  lemma PieceMeetsData(x: seq<real>, y: seq<real>, c: seq<real>, p: seq<Cubic>, i: nat)
    requires Table(x, y) && HasCurvatures(x, y, c, p) && i < |p|
    ensures MeetsData(x, y, p, i)
    ensures Bend(p[i], 0.0) == 2.0 * c[i] && Bend(p[i], H(x, i)) == 2.0 * c[i + 1]
  {
    assert PieceOk(x, y, c, p[i], i);
    PieceEnds(H(x, i), y[i], y[i + 1], c[i], c[i + 1]);
  }

  /** Neighbouring pieces join smoothly exactly when the row between them holds. */
  lemma PiecesJoin(x: seq<real>, y: seq<real>, c: seq<real>, p: seq<Cubic>, i: nat)
    requires Table(x, y) && HasCurvatures(x, y, c, p) && i < |p| - 1
    ensures Smooth(x, p, i) <==> RowHolds(x, y, c, i + 1)
  {
    assert PieceOk(x, y, c, p[i], i) && PieceOk(x, y, c, p[i + 1], i + 1);
    SlopesMeet(H(x, i), H(x, i + 1), y[i], y[i + 1], y[i + 2], c[i], c[i + 1], c[i + 2]);
    PieceMeetsData(x, y, c, p, i);
    PieceMeetsData(x, y, c, p, i + 1);
  }

  /** Pieces with given curvatures are a natural spline exactly when the
      curvatures solve the system. */
  lemma NaturalExactlyWhenSolved(x: seq<real>, y: seq<real>, c: seq<real>, p: seq<Cubic>)
    requires Table(x, y) && HasCurvatures(x, y, c, p)
    ensures IsNaturalSpline(x, y, p) <==> Solves(x, y, c)
  {
    forall i | 0 <= i < |p| ensures MeetsData(x, y, p, i) { PieceMeetsData(x, y, c, p, i); }
    forall i | 0 <= i < |p| - 1 ensures Smooth(x, p, i) <==> RowHolds(x, y, c, i + 1) { PiecesJoin(x, y, c, p, i); }
    PieceMeetsData(x, y, c, p, 0);
    PieceMeetsData(x, y, c, p, |p| - 1);
    if IsNaturalSpline(x, y, p) {
      forall i | 0 < i < |x| - 1 ensures RowHolds(x, y, c, i) { assert Smooth(x, p, i - 1); }
    }
  }

  function CurvaturesOf(p: seq<Cubic>): (c: seq<real>)
    ensures |c| == |p| + 1
    ensures forall i :: 0 <= i < |p| ==> c[i] == p[i].c
    ensures c[|p|] == 0.0
  {
    seq(|p| + 1, i requires 0 <= i <= |p| => if i < |p| then p[i].c else 0.0)
  }

  /** Any natural spline is made of pieces with its own curvatures. */
  lemma NaturalHasCurvatures(x: seq<real>, y: seq<real>, p: seq<Cubic>)
    requires Table(x, y) && IsNaturalSpline(x, y, p)
    ensures HasCurvatures(x, y, CurvaturesOf(p), p)
  {
    var c := CurvaturesOf(p);
    forall i | 0 <= i < |p| ensures PieceOk(x, y, c, p[i], i) {
      assert MeetsData(x, y, p, i);
      if i < |p| - 1 { assert Smooth(x, p, i); }
      PieceIsDetermined(p[i], H(x, i), y[i], y[i + 1], c[i + 1]);
    }
  }

  /** For strictly increasing knots there is at most one natural cubic spline
      through the data. */
  lemma OnlyNaturalSpline(x: seq<real>, y: seq<real>, p: seq<Cubic>, q: seq<Cubic>)
    requires Table(x, y) && IsNaturalSpline(x, y, p) && IsNaturalSpline(x, y, q)
    ensures p == q
  {
    NaturalHasCurvatures(x, y, p);
    NaturalHasCurvatures(x, y, q);
    NaturalExactlyWhenSolved(x, y, CurvaturesOf(p), p);
    NaturalExactlyWhenSolved(x, y, CurvaturesOf(q), q);
    SolutionIsUnique(x, y, CurvaturesOf(p), CurvaturesOf(q));
    forall i | 0 <= i < |p| ensures p[i] == q[i] {
      assert PieceOk(x, y, CurvaturesOf(p), p[i], i) && PieceOk(x, y, CurvaturesOf(q), q[i], i);
    }
  }
}
