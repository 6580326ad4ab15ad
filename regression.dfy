/**
 * Ordinary least squares for one regressor, in closed form over the reals:
 * slope = cov(x, y) / var(x), intercept = mean(y) - slope * mean(x).
 * When x has no spread the slope is 0, which is the minimum-norm
 * least-squares solution a library solver returns in that case.
 */
module Regression {
  import opened Vectors

  function Mean(s: seq<real>): real
    requires |s| > 0
  {
    Sum(s) / |s| as real
  }

  /** Sum of squared deviations from the mean: n times the variance. */
  function Spread(xs: seq<real>): real
    requires |xs| > 0
  {
    var dx := Deviations(xs, Mean(xs));
    Dot(dx, dx)
  }

  /** Sum of cross deviations from the means: n times the covariance. */
  function CoSpread(xs: seq<real>, ys: seq<real>): real
    requires |xs| == |ys| > 0
  {
    Dot(Deviations(xs, Mean(xs)), Deviations(ys, Mean(ys)))
  }

  datatype Line = Line(slope: real, intercept: real) {
    function At(x: real): real
    {
      slope * x + intercept
    }
  }

  function Residuals(xs: seq<real>, ys: seq<real>, line: Line): seq<real>
    requires |xs| == |ys|
  {
    seq(|xs|, i requires 0 <= i < |xs| => ys[i] - line.At(xs[i]))
  }

  /** The quantity least squares minimises. */
  function SquaredError(xs: seq<real>, ys: seq<real>, line: Line): real
    requires |xs| == |ys|
  {
    var r := Residuals(xs, ys, line);
    Dot(r, r)
  }

  /** The fitted line of a one-feature linear regression with an intercept. */
  function FitLine(xs: seq<real>, ys: seq<real>): Line
    requires |xs| == |ys| > 0
  {
    var sxx := Spread(xs);
    var slope := if sxx == 0.0 then 0.0 else CoSpread(xs, ys) / sxx;
    Line(slope, Mean(ys) - slope * Mean(xs))
  }

  // ---------------------------------------------------------------------
  // Scalar steps

  lemma MeanTimesCount(s: real, n: real)
    requires n > 0.0
    ensures s - (s / n) * n == 0.0
  {
  }

  lemma MeanOfAffine(s: real, n: real, p: real, q: real)
    requires n > 0.0
    ensures (p * s + q * n) / n == p * (s / n) + q
  {
  }

  lemma CentredResidual(y: real, x: real, m: real, my: real, mx: real)
    ensures y - (m * x + (my - m * mx)) == (y - my) - m * (x - mx)
  {
  }

  lemma ShiftedResidual(y: real, x: real, m: real, c: real, m': real, c': real)
    ensures y - (m' * x + c') == (y - (m * x + c)) + ((m - m') * x + (c - c'))
  {
  }

  lemma CentredAffine(x: real, a: real, b: real, mx: real)
    ensures (a * x + b) - (a * mx + b) == a * (x - mx)
  {
  }

  lemma ScaledByQuotient(a: real, s: real)
    requires s != 0.0
    ensures (a * s) / s == a
  {
  }

  // ---------------------------------------------------------------------
  // Properties of the fit

  /** Deviations from the mean sum to zero. */
  lemma DeviationsSumToZero(s: seq<real>)
    requires |s| > 0
    ensures Sum(Deviations(s, Mean(s))) == 0.0
  {
    SumOfDeviations(s, Mean(s));
    MeanTimesCount(Sum(s), |s| as real);
  }

  /** The residuals of the fit, written in centred form. */
  lemma FitResidualsCentred(xs: seq<real>, ys: seq<real>)
    requires |xs| == |ys| > 0
    ensures Residuals(xs, ys, FitLine(xs, ys))
         == Diff(Deviations(ys, Mean(ys)), Deviations(xs, Mean(xs)), FitLine(xs, ys).slope)
  {
    var fit := FitLine(xs, ys);
    forall i | 0 <= i < |xs|
      ensures Residuals(xs, ys, fit)[i]
           == Diff(Deviations(ys, Mean(ys)), Deviations(xs, Mean(xs)), fit.slope)[i]
    {
      CentredResidual(ys[i], xs[i], fit.slope, Mean(ys), Mean(xs));
    }
  }

  /** The residuals of the fit sum to zero. */
  lemma FitResidualsSumToZero(xs: seq<real>, ys: seq<real>)
    requires |xs| == |ys| > 0
    ensures Sum(Residuals(xs, ys, FitLine(xs, ys))) == 0.0
  {
    var m := FitLine(xs, ys).slope;
    var dx, dy := Deviations(xs, Mean(xs)), Deviations(ys, Mean(ys));
    FitResidualsCentred(xs, ys);
    SumOfDiff(dy, dx, m);
    DeviationsSumToZero(xs);
    DeviationsSumToZero(ys);
    ZeroCombination(Sum(Diff(dy, dx, m)), Sum(dy), Sum(dx), m);
  }

  lemma ZeroCombination(r: real, u: real, v: real, m: real)
    requires r == u - m * v && u == 0.0 && v == 0.0
    ensures r == 0.0
  {
  }

  /** The slope balances the covariance against the variance. */
  lemma SlopeTimesSpread(xs: seq<real>, ys: seq<real>)
    requires |xs| == |ys| > 0 && Spread(xs) != 0.0
    ensures FitLine(xs, ys).slope * Spread(xs) == CoSpread(xs, ys)
  {
    QuotientTimesDivisor(CoSpread(xs, ys), Spread(xs));
  }

  lemma QuotientTimesDivisor(c: real, s: real)
    requires s != 0.0
    ensures (c / s) * s == c
  {
  }

  /** Centred residuals are orthogonal to a centred regressor without spread, whatever the slope. */
  lemma OrthogonalToFlatRegressor(dx: seq<real>, dy: seq<real>, m: real)
    requires |dx| == |dy| && Dot(dx, dx) == 0.0
    ensures Dot(dx, Diff(dy, dx, m)) == 0.0
  {
    SquareSumZero(dx);
    DotWithZeros(dx, Diff(dy, dx, m));
  }

  /**
   * Centred residuals are orthogonal to the centred regressor when the slope
   * balances covariance against spread.
   */
  lemma OrthogonalAtBalancedSlope(dx: seq<real>, dy: seq<real>, m: real)
    requires |dx| == |dy| && m * Dot(dx, dx) == Dot(dx, dy)
    ensures Dot(dx, Diff(dy, dx, m)) == 0.0
  {
    DotOfDiff(dx, dy, dx, m);
  }

  /** The residuals of the fit are orthogonal to the centred regressor. */
  lemma FitResidualsOrthogonal(xs: seq<real>, ys: seq<real>)
    requires |xs| == |ys| > 0
    ensures Dot(Deviations(xs, Mean(xs)), Residuals(xs, ys, FitLine(xs, ys))) == 0.0
  {
    var m := FitLine(xs, ys).slope;
    var dx, dy := Deviations(xs, Mean(xs)), Deviations(ys, Mean(ys));
    FitResidualsCentred(xs, ys);
    if Spread(xs) == 0.0 {
      OrthogonalToFlatRegressor(dx, dy, m);
    } else {
      SlopeTimesSpread(xs, ys);
      OrthogonalAtBalancedSlope(dx, dy, m);
    }
  }

  /**
   * The normal equations: the residuals of the fitted line sum to zero and
   * are orthogonal to the regressor.
   */
  lemma NormalEquations(xs: seq<real>, ys: seq<real>)
    requires |xs| == |ys| > 0
    ensures Sum(Residuals(xs, ys, FitLine(xs, ys))) == 0.0
    ensures Dot(Residuals(xs, ys, FitLine(xs, ys)), xs) == 0.0
  {
    var r := Residuals(xs, ys, FitLine(xs, ys));
    var dx := Deviations(xs, Mean(xs));
    FitResidualsSumToZero(xs, ys);
    FitResidualsOrthogonal(xs, ys);
    DotSymmetric(dx, r);
    DotOfDeviationsBalanced(r, xs, Mean(xs));
  }

  lemma CrossTermZero(d: real, p: real, q: real, a: real, s: real)
    requires d == p * a + q * s && a == 0.0 && s == 0.0
    ensures d == 0.0
  {
  }

  lemma ErrorSplit(other: real, fit: real, cross: real, extra: real)
    requires other == fit + 2.0 * cross + extra && cross == 0.0 && extra >= 0.0
    ensures fit <= other
    ensures fit == other ==> extra == 0.0
  {
  }

  lemma LinesAgree(x: real, m: real, c: real, m': real, c': real)
    requires (m - m') * x + (c - c') == 0.0
    ensures m * x + c == m' * x + c'
  {
  }

  lemma LinesAgreeWhereGapVanishes(xs: seq<real>, l: Line, l': Line, gap: seq<real>)
    requires gap == Affine(xs, l.slope - l'.slope, l.intercept - l'.intercept)
    requires forall i :: 0 <= i < |gap| ==> gap[i] == 0.0
    ensures forall i :: 0 <= i < |xs| ==> l.At(xs[i]) == l'.At(xs[i])
  {
    forall i | 0 <= i < |xs| ensures l.At(xs[i]) == l'.At(xs[i]) {
      assert gap[i] == 0.0;
      LinesAgree(xs[i], l.slope, l.intercept, l'.slope, l'.intercept);
    }
  }

  /**
   * Moving from one line to another adds the gap between the lines to each
   * residual.
   */
  lemma ResidualsOfOtherLine(xs: seq<real>, ys: seq<real>, l: Line, other: Line)
    requires |xs| == |ys|
    ensures Residuals(xs, ys, other)
         == Plus(Residuals(xs, ys, l), Affine(xs, l.slope - other.slope, l.intercept - other.intercept))
  {
    var r, e := Residuals(xs, ys, l), Affine(xs, l.slope - other.slope, l.intercept - other.intercept);
    forall i | 0 <= i < |xs| ensures Residuals(xs, ys, other)[i] == Plus(r, e)[i] {
      ShiftedResidual(ys[i], xs[i], l.slope, l.intercept, other.slope, other.intercept);
    }
  }

  /** The squared error of another line, expanded around a given line's residuals. */
  lemma SquaredErrorOfOtherLine(xs: seq<real>, ys: seq<real>, l: Line, other: Line)
    requires |xs| == |ys|
    ensures var r, e := Residuals(xs, ys, l), Affine(xs, l.slope - other.slope, l.intercept - other.intercept);
            SquaredError(xs, ys, other) == Dot(r, r) + 2.0 * Dot(r, e) + Dot(e, e)
  {
    var r, e := Residuals(xs, ys, l), Affine(xs, l.slope - other.slope, l.intercept - other.intercept);
    ResidualsOfOtherLine(xs, ys, l, other);
    SquareOfPlus(r, e);
  }

  /** Residuals that sum to zero and are orthogonal to x are orthogonal to every line over x. */
  lemma CrossTermVanishes(r: seq<real>, xs: seq<real>, p: real, q: real)
    requires |r| == |xs| && Sum(r) == 0.0 && Dot(r, xs) == 0.0
    ensures Dot(r, Affine(xs, p, q)) == 0.0
  {
    DotOfAffine(r, xs, p, q);
    CrossTermZero(Dot(r, Affine(xs, p, q)), p, q, Dot(r, xs), Sum(r));
  }

  /**
   * A line whose residuals satisfy the normal equations is no worse than any
   * other line, and only lines that agree with it on every x do as well.
   */
  lemma NormalEquationsMinimise(xs: seq<real>, ys: seq<real>, l: Line, other: Line)
    requires |xs| == |ys|
    requires Sum(Residuals(xs, ys, l)) == 0.0 && Dot(Residuals(xs, ys, l), xs) == 0.0
    ensures SquaredError(xs, ys, l) <= SquaredError(xs, ys, other)
    ensures SquaredError(xs, ys, l) == SquaredError(xs, ys, other) ==>
              forall i :: 0 <= i < |xs| ==> l.At(xs[i]) == other.At(xs[i])
  {
    var r := Residuals(xs, ys, l);
    var dm, dc := l.slope - other.slope, l.intercept - other.intercept;
    var e := Affine(xs, dm, dc);
    SquaredErrorOfOtherLine(xs, ys, l, other);
    CrossTermVanishes(r, xs, dm, dc);
    SquareSumNonnegative(e);
    ErrorSplit(SquaredError(xs, ys, other), Dot(r, r), Dot(r, e), Dot(e, e));
    if SquaredError(xs, ys, l) == SquaredError(xs, ys, other) {
      SquareSumZero(e);
      LinesAgreeWhereGapVanishes(xs, l, other, e);
    }
  }

  /**
   * Least squares: no line has a smaller sum of squared residuals than the
   * fitted one, and a line that matches it agrees with the fit at every x.
   */
  lemma LeastSquares(xs: seq<real>, ys: seq<real>, other: Line)
    requires |xs| == |ys| > 0
    ensures SquaredError(xs, ys, FitLine(xs, ys)) <= SquaredError(xs, ys, other)
    ensures SquaredError(xs, ys, FitLine(xs, ys)) == SquaredError(xs, ys, other) ==>
              forall i :: 0 <= i < |xs| ==> FitLine(xs, ys).At(xs[i]) == other.At(xs[i])
  {
    NormalEquations(xs, ys);
    NormalEquationsMinimise(xs, ys, FitLine(xs, ys), other);
  }

  /** The mean of points on a line is the line at the mean. */
  lemma MeanOfExactLine(xs: seq<real>, a: real, b: real)
    requires |xs| > 0
    ensures Mean(Affine(xs, a, b)) == a * Mean(xs) + b
  {
    var total, n := Sum(xs), |xs| as real;
    SumOfAffine(xs, a, b);
    assert Mean(Affine(xs, a, b)) == (a * total + b * n) / n;
    assert Mean(xs) == total / n;
    MeanOfAffine(total, n, a, b);
  }

  /** Centred, points on a line of slope a are a times the centred regressor. */
  lemma CentredExactLine(xs: seq<real>, a: real, b: real)
    requires |xs| > 0
    ensures Deviations(Affine(xs, a, b), Mean(Affine(xs, a, b))) == Scale(Deviations(xs, Mean(xs)), a)
  {
    var ys := Affine(xs, a, b);
    var dx, dy := Deviations(xs, Mean(xs)), Deviations(ys, Mean(ys));
    MeanOfExactLine(xs, a, b);
    forall i | 0 <= i < |xs| ensures dy[i] == Scale(dx, a)[i] {
      CentredAffine(xs[i], a, b, Mean(xs));
    }
  }

  /** For points on a line of slope a, the covariance is a times the variance. */
  lemma CoSpreadOfExactLine(xs: seq<real>, a: real, b: real)
    requires |xs| > 0
    ensures CoSpread(xs, Affine(xs, a, b)) == a * Spread(xs)
  {
    var dx := Deviations(xs, Mean(xs));
    CentredExactLine(xs, a, b);
    DotOfScale(dx, dx, a);
  }

  /** Points that lie exactly on a line are fitted by that line. */
  lemma FitOfExactLine(xs: seq<real>, a: real, b: real)
    requires |xs| > 0 && Spread(xs) != 0.0
    ensures FitLine(xs, Affine(xs, a, b)) == Line(a, b)
  {
    CoSpreadOfExactLine(xs, a, b);
    ScaledByQuotient(a, Spread(xs));
    MeanOfExactLine(xs, a, b);
  }
}
