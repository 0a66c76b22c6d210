/** The calibration's splines: coefficients computed into arrays, evaluation, and
    the inverse by bracketing and bisection. */
module Spline {
  import opened Wrappers
  import opened SplineTheory

  /** The pieces the arrays hold. */
  function PiecesIn(a: seq<real>, b: seq<real>, c: seq<real>, d: seq<real>): (p: seq<Cubic>)
    requires |a| == |b| == |c| == |d| > 0
    ensures |p| == |a| - 1
    ensures forall i :: 0 <= i < |p| ==> p[i] == Cubic(a[i], b[i], c[i], d[i])
  {
    seq(|a| - 1, i requires 0 <= i < |a| - 1 => Cubic(a[i], b[i], c[i], d[i]))
  }

  // ----------------------------------------------------------------- coefficients

  method Widths(x: array<real>, n: nat) returns (h: array<real>)
    requires 2 <= n <= x.Length
    ensures fresh(h) && h.Length == n
    ensures forall i :: 0 <= i < n - 1 ==> h[i] == H(x[..n], i)
    ensures Increasing(x[..n]) ==> forall i :: 0 <= i < n - 1 ==> h[i] > 0.0
  {
    h := new real[n];
    for i := 0 to n - 1
      invariant forall k :: 0 <= k < i ==> h[k] == H(x[..n], k)
    {
      h[i] := x[i + 1] - x[i];
    }
  }

  method Sides(h: array<real>, y: array<real>, ghost X: seq<real>) returns (alpha: array<real>)
    requires h.Length == y.Length >= 2 && Table(X, y[..])
    requires forall i :: 0 <= i < h.Length - 1 ==> h[i] == H(X, i)
    ensures fresh(alpha) && alpha.Length == y.Length
    ensures forall i :: 0 < i < y.Length - 1 ==> alpha[i] == Alpha(X, y[..], i)
  {
    var n := y.Length;
    alpha := new real[n];
    for i := 1 to n - 1
      invariant forall k :: 0 < k < i ==> alpha[k] == Alpha(X, y[..], k)
    {
      alpha[i] := (3.0 / h[i]) * (y[i + 1] - y[i]) - (3.0 / h[i - 1]) * (y[i] - y[i - 1]);
    }
  }

  /** Every row up to `n` is eliminated. */
  ghost predicate Eliminated(x: seq<real>, y: seq<real>, l: seq<real>, mu: seq<real>, z: seq<real>, n: nat)
    requires Table(x, y) && n < |x| && |l| == |mu| == |z| == |x|
  {
    && mu[0] == 0.0 && z[0] == 0.0
    && forall i :: 0 < i < n ==> Forward(H(x, i - 1), H(x, i), Alpha(x, y, i), mu[i - 1], z[i - 1], l[i], mu[i], z[i])
  }

  method Eliminate(x: array<real>, y: array<real>, h: array<real>, alpha: array<real>)
      returns (l: array<real>, mu: array<real>, z: array<real>)
    requires h.Length == alpha.Length == y.Length <= x.Length && Table(x[..y.Length], y[..])
    requires forall i :: 0 <= i < h.Length - 1 ==> h[i] == H(x[..y.Length], i)
    requires forall i :: 0 < i < y.Length - 1 ==> alpha[i] == Alpha(x[..y.Length], y[..], i)
    ensures fresh(l) && fresh(mu) && fresh(z) && l.Length == mu.Length == z.Length == y.Length
    ensures Eliminated(x[..y.Length], y[..], l[..], mu[..], z[..], y.Length - 1)
  {
    var n := y.Length;
    l, mu, z := new real[n], new real[n], new real[n];
    l[0], mu[0], z[0] := 1.0, 0.0, 0.0;
    ghost var X, Y := x[..n], y[..];
    for i := 1 to n - 1
      invariant mu[0] == 0.0 && z[0] == 0.0 && (i < n ==> 0.0 <= mu[i - 1] < 1.0)
      invariant forall k :: 0 < k < i ==>
                              Forward(H(X, k - 1), H(X, k), Alpha(X, Y, k), mu[k - 1], z[k - 1], l[k], mu[k], z[k])
    {
      var h0, h1 := h[i - 1], h[i];
      assert x[i + 1] - x[i - 1] == h0 + h1;
      l[i], mu[i], z[i] := EliminateRow(h0, h1, alpha[i], mu[i - 1], z[i - 1], x[i + 1] - x[i - 1]);
    }
    l[n - 1], z[n - 1] := 1.0, 0.0;
  }

  method EliminateRow(h0: real, h1: real, alpha: real, mu0: real, z0: real, span: real) returns (l: real, mu: real, z: real)
    requires 0.0 < h0 && 0.0 < h1 && 0.0 <= mu0 < 1.0 && span == h0 + h1
    ensures Forward(h0, h1, alpha, mu0, z0, l, mu, z)
  {
    ForwardStep(h0, h1, alpha, mu0, z0);
    l := 2.0 * span - h0 * mu0;
    mu := h1 / l;
    z := (alpha - h0 * z0) / l;
  }

  ghost predicate Backward(c0: real, mu: real, z: real, c1: real) {
    c0 == z - mu * c1
  }

  ghost predicate IsPiece(a: real, b: real, c: real, d: real, h: real, y0: real, y1: real, c1: real)
    requires h > 0.0
  {
    Cubic(a, b, c, d) == PieceFor(h, y0, y1, c, c1)
  }

  /** One step of the backward pass. */
  method BackRow(h: real, y0: real, y1: real, mu: real, z: real, c1: real) returns (c0: real, b: real, d: real)
    requires h > 0.0
    ensures Backward(c0, mu, z, c1) && IsPiece(y0, b, c0, d, h, y0, y1, c1)
  {
    c0 := z - mu * c1;
    b := (y1 - y0) / h - h * (c1 + 2.0 * c0) / 3.0;
    d := (c1 - c0) / (3.0 * h);
  }

  /** Both passes together solve the system. */
  lemma PassesSolve(x: seq<real>, y: seq<real>, l: seq<real>, mu: seq<real>, z: seq<real>, c: seq<real>)
    requires Table(x, y) && |l| == |mu| == |z| == |c| == |x|
    requires Eliminated(x, y, l, mu, z, |x| - 1)
    requires c[|x| - 1] == 0.0
    requires forall j :: 0 <= j < |x| - 1 ==> Backward(c[j], mu[j], z[j], c[j + 1])
    ensures Solves(x, y, c)
  {
    assert Backward(c[0], mu[0], z[0], c[1]);
    forall i | 0 < i < |x| - 1 ensures RowHolds(x, y, c, i) {
      assert Backward(c[i - 1], mu[i - 1], z[i - 1], c[i]) && Backward(c[i], mu[i], z[i], c[i + 1]);
      RowFromSteps(H(x, i - 1), H(x, i), Alpha(x, y, i), mu[i - 1], z[i - 1], l[i], mu[i], z[i], c[i - 1], c[i], c[i + 1]);
    }
  }

  method Substitute(h: array<real>, y: array<real>, mu: array<real>, z: array<real>,
                    a: array<real>, b: array<real>, c: array<real>, d: array<real>)
    requires h.Length == y.Length == mu.Length == z.Length == a.Length == b.Length == c.Length == d.Length >= 2
    requires a !in {b, c, d, h, y, mu, z} && b !in {c, d, h, y, mu, z} && c !in {d, h, y, mu, z} && d !in {h, y, mu, z}
    requires forall k :: 0 <= k < h.Length - 1 ==> h[k] > 0.0
    modifies a, b, c, d
    ensures c[y.Length - 1] == 0.0
    ensures forall k :: 0 <= k < y.Length - 1 ==> Backward(c[k], mu[k], z[k], c[k + 1])
    ensures forall k :: 0 <= k < y.Length - 1 ==> IsPiece(a[k], b[k], c[k], d[k], h[k], y[k], y[k + 1], c[k + 1])
    ensures a[y.Length - 1] == old(a[y.Length - 1]) && b[y.Length - 1] == old(b[y.Length - 1])
            && d[y.Length - 1] == old(d[y.Length - 1])
  {
    var n := y.Length;
    c[n - 1] := 0.0;
    for j := n - 1 downto 0
      invariant c[n - 1] == 0.0
      invariant forall k :: j <= k < n - 1 ==> Backward(c[k], mu[k], z[k], c[k + 1])
      invariant forall k :: j <= k < n - 1 ==> IsPiece(a[k], b[k], c[k], d[k], h[k], y[k], y[k + 1], c[k + 1])
      invariant a[n - 1] == old(a[n - 1]) && b[n - 1] == old(b[n - 1]) && d[n - 1] == old(d[n - 1])
    {
      c[j], b[j], d[j] := BackRow(h[j], y[j], y[j + 1], mu[j], z[j], c[j + 1]);
      a[j] := y[j];
    }
  }

  /** The pieces are those of the curvatures, which back substitution gave. */
  lemma PassesGiveSpline(x: seq<real>, y: seq<real>, h: seq<real>, l: seq<real>, mu: seq<real>, z: seq<real>,
                         a: seq<real>, b: seq<real>, c: seq<real>, d: seq<real>)
    requires Table(x, y) && |h| == |l| == |mu| == |z| == |a| == |b| == |c| == |d| == |x|
    requires Eliminated(x, y, l, mu, z, |x| - 1) && c[|x| - 1] == 0.0
    requires forall k :: 0 <= k < |x| - 1 ==> h[k] == H(x, k) && h[k] > 0.0
    requires forall k :: 0 <= k < |x| - 1 ==> Backward(c[k], mu[k], z[k], c[k + 1])
    requires forall k :: 0 <= k < |x| - 1 ==> IsPiece(a[k], b[k], c[k], d[k], h[k], y[k], y[k + 1], c[k + 1])
    ensures IsNaturalSpline(x, y, PiecesIn(a, b, c, d))
  {
    var p := PiecesIn(a, b, c, d);
    PassesSolve(x, y, l, mu, z, c);
    forall i | 0 <= i < |p| ensures PieceOk(x, y, c, p[i], i) {
      assert IsPiece(a[i], b[i], c[i], d[i], h[i], y[i], y[i + 1], c[i + 1]);
    }
    NaturalExactlyWhenSolved(x, y, c, p);
  }

  /** `compute_spline_coefficients` and, over strictly increasing magnitudes,
      `compute_phase_spline_coefficients`: the arrays hold the natural spline's
      pieces.  The last element of `a`, `b` and `d` is never written. */
  method ComputeSplineCoefficients(x: array<real>, y: array<real>,
                                   a: array<real>, b: array<real>, c: array<real>, d: array<real>)
    requires y.Length == a.Length == b.Length == c.Length == d.Length <= x.Length
    requires Table(x[..y.Length], y[..])
    requires a !in {b, c, d, x, y} && b !in {c, d, x, y} && c !in {d, x, y} && d !in {x, y}
    modifies a, b, c, d
    ensures IsNaturalSpline(x[..y.Length], y[..], PiecesIn(a[..], b[..], c[..], d[..]))
    ensures c[y.Length - 1] == 0.0
    ensures a[y.Length - 1] == old(a[y.Length - 1]) && b[y.Length - 1] == old(b[y.Length - 1])
            && d[y.Length - 1] == old(d[y.Length - 1])
  {
    var n := y.Length;
    var h := Widths(x, n);
    var alpha := Sides(h, y, x[..n]);
    var l, mu, z := Eliminate(x, y, h, alpha);
    Substitute(h, y, mu, z, a, b, c, d);
    PassesGiveSpline(x[..n], y[..], h[..], l[..], mu[..], z[..], a[..], b[..], c[..], d[..]);
  }
}
