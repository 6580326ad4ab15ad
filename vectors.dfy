/**
 * Sums and inner products of real vectors, a few entry-wise combinators, and
 * the algebra the least-squares proofs need.  Every identity is proved once,
 * by induction, for the combinators; callers rewrite concrete vectors into
 * these forms by a sequence equation.
 */
module Vectors {

  function Sum(s: seq<real>): real
  {
    if |s| == 0 then 0.0 else s[0] + Sum(s[1..])
  }

  /** The inner product of two vectors of the same length. */
  function Dot(u: seq<real>, v: seq<real>): real
    requires |u| == |v|
  {
    if |u| == 0 then 0.0 else u[0] * v[0] + Dot(u[1..], v[1..])
  }

  /** s - m, entry by entry. */
  function Deviations(s: seq<real>, m: real): seq<real>
  {
    seq(|s|, i requires 0 <= i < |s| => s[i] - m)
  }

  /** v - a * w, entry by entry. */
  function Diff(v: seq<real>, w: seq<real>, a: real): seq<real>
    requires |v| == |w|
  {
    seq(|v|, i requires 0 <= i < |v| => v[i] - a * w[i])
  }

  /** p * x + q, entry by entry. */
  function Affine(x: seq<real>, p: real, q: real): seq<real>
  {
    seq(|x|, i requires 0 <= i < |x| => p * x[i] + q)
  }

  /** p * x, entry by entry. */
  function Scale(x: seq<real>, p: real): seq<real>
  {
    seq(|x|, i requires 0 <= i < |x| => p * x[i])
  }

  /** u + v, entry by entry. */
  function Plus(u: seq<real>, v: seq<real>): seq<real>
    requires |u| == |v|
  {
    seq(|u|, i requires 0 <= i < |u| => u[i] + v[i])
  }

  // ---------------------------------------------------------------------
  // Tails of the combinators

  lemma DeviationsTail(s: seq<real>, m: real)
    requires |s| > 0
    ensures Deviations(s, m)[1..] == Deviations(s[1..], m)
  {
    assert forall i :: 0 <= i < |s| - 1 ==> Deviations(s, m)[1..][i] == Deviations(s[1..], m)[i];
  }

  lemma DiffTail(v: seq<real>, w: seq<real>, a: real)
    requires |v| == |w| > 0
    ensures Diff(v, w, a)[1..] == Diff(v[1..], w[1..], a)
  {
    assert forall i :: 0 <= i < |v| - 1 ==> Diff(v, w, a)[1..][i] == Diff(v[1..], w[1..], a)[i];
  }

  lemma AffineTail(x: seq<real>, p: real, q: real)
    requires |x| > 0
    ensures Affine(x, p, q)[1..] == Affine(x[1..], p, q)
  {
    assert forall i :: 0 <= i < |x| - 1 ==> Affine(x, p, q)[1..][i] == Affine(x[1..], p, q)[i];
  }

  lemma ScaleTail(x: seq<real>, p: real)
    requires |x| > 0
    ensures Scale(x, p)[1..] == Scale(x[1..], p)
  {
    assert forall i :: 0 <= i < |x| - 1 ==> Scale(x, p)[1..][i] == Scale(x[1..], p)[i];
  }

  lemma PlusTail(u: seq<real>, v: seq<real>)
    requires |u| == |v| > 0
    ensures Plus(u, v)[1..] == Plus(u[1..], v[1..])
  {
    assert forall i :: 0 <= i < |u| - 1 ==> Plus(u, v)[1..][i] == Plus(u[1..], v[1..])[i];
  }

  // ---------------------------------------------------------------------
  // Scalar steps, kept out of the contexts that hold vectors

  lemma DistributeSum(p: real, x: real, y: real)
    ensures p * (x + y) == p * x + p * y
  {
  }

  lemma DistributeDiff(z: real, v: real, w: real, a: real)
    ensures z * (v - a * w) == z * v - a * (z * w)
  {
  }

  lemma AffineStep(z: real, x: real, p: real, q: real, zx: real, sz: real)
    ensures z * (p * x + q) + (p * zx + q * sz) == p * (z * x + zx) + q * (z + sz)
  {
  }

  lemma ScaleStep(z: real, x: real, p: real, zx: real)
    ensures z * (p * x) + p * zx == p * (z * x + zx)
  {
  }

  lemma SquareStep(t: real, u: real, v: real, tt: real, uu: real, uv: real, vv: real)
    requires t == u + v && tt == uu + 2.0 * uv + vv
    ensures t * t + tt == (u * u + uu) + 2.0 * (u * v + uv) + (v * v + vv)
  {
  }

  // ---------------------------------------------------------------------
  // Sums and inner products of the combinators

  lemma {:induction false} SumOfDeviations(s: seq<real>, m: real)
    ensures Sum(Deviations(s, m)) == Sum(s) - m * |s| as real
  {
    if |s| > 0 {
      DeviationsTail(s, m);
      SumOfDeviations(s[1..], m);
      DistributeSum(m, 1.0, (|s| - 1) as real);
    }
  }

  lemma {:induction false} SumOfDiff(v: seq<real>, w: seq<real>, a: real)
    requires |v| == |w|
    ensures Sum(Diff(v, w, a)) == Sum(v) - a * Sum(w)
  {
    if |v| > 0 {
      DiffTail(v, w, a);
      SumOfDiff(v[1..], w[1..], a);
      DistributeSum(a, w[0], Sum(w[1..]));
    }
  }

  lemma {:induction false} SumOfAffine(x: seq<real>, p: real, q: real)
    ensures Sum(Affine(x, p, q)) == p * Sum(x) + q * |x| as real
  {
    if |x| > 0 {
      AffineTail(x, p, q);
      SumOfAffine(x[1..], p, q);
      DistributeSum(p, x[0], Sum(x[1..]));
      DistributeSum(q, 1.0, (|x| - 1) as real);
    }
  }

  lemma {:induction false} DotOfDeviations(z: seq<real>, x: seq<real>, m: real)
    requires |z| == |x|
    ensures Dot(z, Deviations(x, m)) == Dot(z, x) - m * Sum(z)
  {
    if |z| > 0 {
      DeviationsTail(x, m);
      DotOfDeviations(z[1..], x[1..], m);
      DistributeDiff(z[0], x[0], 1.0, m);
      DistributeSum(m, z[0], Sum(z[1..]));
    }
  }

  /** Shifting x leaves its inner product with a zero-sum vector unchanged. */
  lemma DotOfDeviationsBalanced(z: seq<real>, x: seq<real>, m: real)
    requires |z| == |x| && Sum(z) == 0.0
    ensures Dot(z, Deviations(x, m)) == Dot(z, x)
  {
    DotOfDeviations(z, x, m);
  }

  lemma {:induction false} DotOfDiff(z: seq<real>, v: seq<real>, w: seq<real>, a: real)
    requires |z| == |v| == |w|
    ensures Dot(z, Diff(v, w, a)) == Dot(z, v) - a * Dot(z, w)
  {
    if |z| > 0 {
      DiffTail(v, w, a);
      DotOfDiff(z[1..], v[1..], w[1..], a);
      DistributeDiff(z[0], v[0], w[0], a);
      DistributeSum(a, z[0] * w[0], Dot(z[1..], w[1..]));
    }
  }

  lemma {:induction false} DotOfAffine(z: seq<real>, x: seq<real>, p: real, q: real)
    requires |z| == |x|
    ensures Dot(z, Affine(x, p, q)) == p * Dot(z, x) + q * Sum(z)
  {
    if |z| > 0 {
      AffineTail(x, p, q);
      DotOfAffine(z[1..], x[1..], p, q);
      AffineStep(z[0], x[0], p, q, Dot(z[1..], x[1..]), Sum(z[1..]));
    }
  }

  lemma {:induction false} DotOfScale(z: seq<real>, x: seq<real>, p: real)
    requires |z| == |x|
    ensures Dot(z, Scale(x, p)) == p * Dot(z, x)
  {
    if |z| > 0 {
      ScaleTail(x, p);
      DotOfScale(z[1..], x[1..], p);
      ScaleStep(z[0], x[0], p, Dot(z[1..], x[1..]));
    }
  }

  lemma {:induction false} SquareOfPlus(u: seq<real>, v: seq<real>)
    requires |u| == |v|
    ensures Dot(Plus(u, v), Plus(u, v)) == Dot(u, u) + 2.0 * Dot(u, v) + Dot(v, v)
  {
    if |u| > 0 {
      var t, t' := Plus(u, v), Plus(u[1..], v[1..]);
      PlusTail(u, v);
      SquareOfPlus(u[1..], v[1..]);
      SquareStep(t[0], u[0], v[0], Dot(t', t'), Dot(u[1..], u[1..]), Dot(u[1..], v[1..]), Dot(v[1..], v[1..]));
    }
  }

  lemma {:induction false} DotSymmetric(u: seq<real>, v: seq<real>)
    requires |u| == |v|
    ensures Dot(u, v) == Dot(v, u)
  {
    if |u| > 0 {
      DotSymmetric(u[1..], v[1..]);
    }
  }

  /** Against a vector of zeros every inner product vanishes. */
  lemma {:induction false} DotWithZeros(u: seq<real>, v: seq<real>)
    requires |u| == |v|
    requires forall i :: 0 <= i < |u| ==> u[i] == 0.0
    ensures Dot(u, v) == 0.0
  {
    if |u| > 0 {
      DotWithZeros(u[1..], v[1..]);
    }
  }

  // ---------------------------------------------------------------------
  // Sums of squares.  Positivity of a square goes through `Product`: the
  // solver keeps a hypothesis `Product(x, x) > 0.0` that it would weaken if
  // written as `x * x > 0.0`.

  function Product(x: real, y: real): real
  {
    x * y
  }

  lemma ProductPositive(x: real, y: real)
    requires x > 0.0 && y > 0.0
    ensures Product(x, y) > 0.0
  {
  }

  lemma NonzeroSquarePositive(x: real)
    requires x != 0.0
    ensures Product(x, x) > 0.0
  {
    if x > 0.0 {
      ProductPositive(x, x);
    } else {
      ProductPositive(-x, -x);
      assert Product(-x, -x) == Product(x, x);
    }
  }

  lemma SquareNonnegative(x: real)
    ensures x * x >= 0.0
  {
  }

  lemma {:induction false} SquareSumNonnegative(u: seq<real>)
    ensures Dot(u, u) >= 0.0
  {
    if |u| > 0 {
      SquareNonnegative(u[0]);
      SquareSumNonnegative(u[1..]);
    }
  }

  /** A sum of squares is at least each of its terms. */
  lemma {:induction false} SquareSumAtLeast(u: seq<real>, i: nat)
    requires i < |u|
    ensures Dot(u, u) >= u[i] * u[i]
  {
    SquareNonnegative(u[0]);
    SquareSumNonnegative(u[1..]);
    if i > 0 {
      SquareSumAtLeast(u[1..], i - 1);
    }
  }

  /** One non-zero entry makes the sum of squares positive. */
  lemma SquareSumPositive(u: seq<real>, i: nat)
    requires i < |u| && u[i] != 0.0
    ensures Dot(u, u) > 0.0
  {
    SquareSumAtLeast(u, i);
    NonzeroSquarePositive(u[i]);
    assert Product(u[i], u[i]) == u[i] * u[i];
  }

  /** A sum of squares is zero only when every entry is. */
  lemma SquareSumZero(u: seq<real>)
    requires Dot(u, u) == 0.0
    ensures forall i :: 0 <= i < |u| ==> u[i] == 0.0
  {
    forall i | 0 <= i < |u| ensures u[i] == 0.0 {
      if u[i] != 0.0 {
        SquareSumPositive(u, i);
      }
    }
  }
}
