/**
 * `DataAnalyzer.linear_regression`: ordinary least squares of `ys` on `xs`,
 * with the input checks of the source, computed exactly over the reals.
 */
module Regression {
  import opened Wrappers
  import opened Sums

  /** Why a regression was refused. The source raises `ValueError` for both:
      once for unequal lengths or fewer than two points, once for identical X values. */
  datatype RegressionError = InvalidInput | IdenticalX

  /** The fitted line `y = slope * x + intercept` and its coefficient of determination. */
  datatype Fit = Fit(slope: real, intercept: real, rSquared: real)

  /** The fitted values, `[slope * x + intercept for x in xs]`. */
  function Predict(xs: seq<real>, slope: real, intercept: real): (ps: seq<real>)
    ensures |ps| == |xs|
    ensures forall i :: 0 <= i < |xs| ==> ps[i] == slope * xs[i] + intercept
  {
    if |xs| == 0 then []
    else [slope * xs[0] + intercept] + Predict(xs[1..], slope, intercept)
  }

  /** The fitted values of `xs[1..]` are those of `xs` after the first. */
  lemma PredictTail(xs: seq<real>, slope: real, intercept: real)
    requires |xs| > 0
    ensures Predict(xs, slope, intercept)[0] == slope * xs[0] + intercept
    ensures Predict(xs, slope, intercept)[1..] == Predict(xs[1..], slope, intercept)
  {
  }

  /** `linear_regression(xs, ys)`. */
  function LinearRegression(xs: seq<real>, ys: seq<real>): (r: Result<Fit, RegressionError>)
    ensures r == Failure(InvalidInput) <==> |xs| != |ys| || |xs| < 2
  {
    if |xs| != |ys| || |xs| < 2 then Failure(InvalidInput)
    else
      var xMean := Mean(xs);
      var yMean := Mean(ys);
      var numerator := SumDevProducts(xs, ys, xMean, yMean);
      var denominator := SumSqDev(xs, xMean);
      if denominator == 0.0 then Failure(IdenticalX)
      else
        var slope := numerator / denominator;
        var intercept := yMean - slope * xMean;
        var yPred := Predict(xs, slope, intercept);
        var ssRes := SumSqDiff(ys, yPred);
        var ssTot := SumSqDev(ys, yMean);
        Success(Fit(slope, intercept, RSquared(ssRes, ssTot)))
  }

  /** The coefficient of determination `1 - ssRes / ssTot`, taken as 1 when
      the y values do not vary (`ssTot == 0`). */
  function RSquared(ssRes: real, ssTot: real): real
  {
    if ssTot != 0.0 then 1.0 - ssRes / ssTot else 1.0
  }

  /** The slope of a successful fit: the cross products of the deviations
      over the squared x deviations, the latter non-zero. */
  lemma FitSlope(xs: seq<real>, ys: seq<real>)
    requires LinearRegression(xs, ys).Success?
    ensures |xs| == |ys| && |xs| >= 2
    ensures SumSqDev(xs, Mean(xs)) != 0.0
    ensures LinearRegression(xs, ys).value.slope
         == SumDevProducts(xs, ys, Mean(xs), Mean(ys)) / SumSqDev(xs, Mean(xs))
  {
  }

  /** The intercept of a successful fit puts the line through the means. */
  lemma FitIntercept(xs: seq<real>, ys: seq<real>)
    requires LinearRegression(xs, ys).Success?
    ensures LinearRegression(xs, ys).value.intercept
         == Mean(ys) - LinearRegression(xs, ys).value.slope * Mean(xs)
  {
  }

  /** The R^2 of a successful fit, from the residuals of its own line. */
  lemma FitRSquared(xs: seq<real>, ys: seq<real>)
    requires LinearRegression(xs, ys).Success?
    ensures var f := LinearRegression(xs, ys).value;
      f.rSquared == RSquared(SumSqDiff(ys, Predict(xs, f.slope, f.intercept)), SumSqDev(ys, Mean(ys)))
  {
  }

  /** The regression is refused for unequal lengths or fewer than two points,
      refused for identical X values otherwise, and succeeds in every other case. */
  lemma RegressionOutcome(xs: seq<real>, ys: seq<real>)
    ensures var r := LinearRegression(xs, ys);
      && (r == Failure(InvalidInput) <==> |xs| != |ys| || |xs| < 2)
      && (r == Failure(IdenticalX) <==> |xs| == |ys| && |xs| >= 2 && AllEqual(xs))
      && (r.Success? <==> |xs| == |ys| && |xs| >= 2 && !AllEqual(xs))
  {
    if |xs| == |ys| && |xs| >= 2 {
      SumSqDevMeanZero(xs);
    }
  }

  /** On success the slope solves the normal equation and the line passes
      through the point of means `(mean(xs), mean(ys))`. */
  lemma FitThroughMeans(xs: seq<real>, ys: seq<real>)
    requires LinearRegression(xs, ys).Success?
    ensures var f := LinearRegression(xs, ys).value;
      && f.slope * SumSqDev(xs, Mean(xs)) == SumDevProducts(xs, ys, Mean(xs), Mean(ys))
      && f.slope * Mean(xs) + f.intercept == Mean(ys)
  {
    FitSlope(xs, ys);
    FitIntercept(xs, ys);
    var f := LinearRegression(xs, ys).value;
    QuotientTimesDivisor(SumDevProducts(xs, ys, Mean(xs), Mean(ys)), SumSqDev(xs, Mean(xs)), f.slope);
  }

  /** A quotient times its non-zero divisor gives back the dividend. */
  lemma QuotientTimesDivisor(n: real, d: real, q: real)
    requires d != 0.0 && q == n / d
    ensures q * d == n
  {
  }

  /** The residual sum of squares of the line with slope `b` through the
      means, as a quadratic in `b`: `syy - 2 b sxy + b^2 sxx`, where `syy`, `sxy`
      and `sxx` are the sums of squared and multiplied deviations. */
  function ResidualQuadratic(syy: real, sxy: real, sxx: real, b: real): real
  {
    syy - 2.0 * b * sxy + Sq(b) * sxx
  }

  /** One residual of the line through the means, expanded in the deviations. */
  lemma ResidualTerm(x: real, y: real, p: real, b: real, mx: real, my: real)
    requires p == b * x + (my - b * mx)
    ensures Sq(y - p) == ResidualQuadratic(Sq(y - my), Product(x - mx, y - my), Sq(x - mx), b)
  {
  }

  /** Adding two expansions of the same shape term by term. */
  lemma SplitTerms(t: real, t0: real, t1: real, u: real, u0: real, u1: real,
                   p: real, p0: real, p1: real, v: real, v0: real, v1: real, b: real)
    requires t == t0 + t1 && u == u0 + u1 && p == p0 + p1 && v == v0 + v1
    requires t0 == ResidualQuadratic(u0, p0, v0, b)
    requires t1 == ResidualQuadratic(u1, p1, v1, b)
    ensures t == ResidualQuadratic(u, p, v, b)
  {
  }

  /** The residual sum of squares of any line through the means, expanded. */
  lemma {:induction false} ResidualExpansion(xs: seq<real>, ys: seq<real>, b: real, mx: real, my: real)
    requires |xs| == |ys|
    ensures SumSqDiff(ys, Predict(xs, b, my - b * mx))
         == ResidualQuadratic(SumSqDev(ys, my), SumDevProducts(xs, ys, mx, my), SumSqDev(xs, mx), b)
  {
    if |xs| > 0 {
      var a := my - b * mx;
      var ps := Predict(xs, b, a);
      PredictTail(xs, b, a);
      ResidualExpansion(xs[1..], ys[1..], b, mx, my);
      ResidualTerm(xs[0], ys[0], ps[0], b, mx, my);
      SplitTerms(
        SumSqDiff(ys, ps), Sq(ys[0] - ps[0]), SumSqDiff(ys[1..], ps[1..]),
        SumSqDev(ys, my), Sq(ys[0] - my), SumSqDev(ys[1..], my),
        SumDevProducts(xs, ys, mx, my), Product(xs[0] - mx, ys[0] - my), SumDevProducts(xs[1..], ys[1..], mx, my),
        SumSqDev(xs, mx), Sq(xs[0] - mx), SumSqDev(xs[1..], mx), b);
    }
  }

  /** With the least-squares slope `b = sxy / sxx`, the cross term and the
      quadratic term of the expansion combine into one non-negative part. */
  lemma ExplainedPart(syy: real, b: real, sxy: real, sxx: real)
    requires sxx > 0.0 && b == sxy / sxx
    ensures ResidualQuadratic(syy, sxy, sxx, b) == syy - Sq(b) * sxx
    ensures Sq(b) * sxx >= 0.0
  {
    assert b * sxx == sxy;
    SqSign(b);
    ProductNonNegative(Sq(b), sxx);
  }

  /** The residual sum of squares of a successful fit, as the residual
      quadratic at its slope. */
  lemma FitResidual(xs: seq<real>, ys: seq<real>)
    requires LinearRegression(xs, ys).Success?
    ensures var f := LinearRegression(xs, ys).value;
      var mx, my := Mean(xs), Mean(ys);
      SumSqDiff(ys, Predict(xs, f.slope, f.intercept))
        == ResidualQuadratic(SumSqDev(ys, my), SumDevProducts(xs, ys, mx, my), SumSqDev(xs, mx), f.slope)
  {
    FitSlope(xs, ys);
    FitIntercept(xs, ys);
    var f := LinearRegression(xs, ys).value;
    var mx, my := Mean(xs), Mean(ys);
    var b := f.slope;
    assert f.intercept == my - b * mx;
    ResidualExpansion(xs, ys, b, mx, my);
  }

  /** The least-squares residual sum of squares is the total sum of squares
      minus the part explained by the slope; so it never exceeds the total. */
  lemma ResidualBound(xs: seq<real>, ys: seq<real>)
    requires LinearRegression(xs, ys).Success?
    ensures var f := LinearRegression(xs, ys).value;
      var ssRes := SumSqDiff(ys, Predict(xs, f.slope, f.intercept));
      0.0 <= ssRes <= SumSqDev(ys, Mean(ys))
  {
    FitSlope(xs, ys);
    FitResidual(xs, ys);
    var f := LinearRegression(xs, ys).value;
    var mx, my := Mean(xs), Mean(ys);
    SumSqDevNonNegative(xs, mx);
    ExplainedPart(SumSqDev(ys, my), f.slope, SumDevProducts(xs, ys, mx, my), SumSqDev(xs, mx));
    SumSqDiffNonNegative(ys, Predict(xs, f.slope, f.intercept));
  }

  /** On success the coefficient of determination lies in `[0, 1]`. */
  lemma RSquaredBounds(xs: seq<real>, ys: seq<real>)
    requires LinearRegression(xs, ys).Success?
    ensures 0.0 <= LinearRegression(xs, ys).value.rSquared <= 1.0
  {
    FitRSquared(xs, ys);
    ResidualBound(xs, ys);
    SumSqDevNonNegative(ys, Mean(ys));
  }

  /** When all y values are equal the total sum of squares is zero and R^2 is 1. */
  lemma RSquaredConstantY(xs: seq<real>, ys: seq<real>)
    requires LinearRegression(xs, ys).Success?
    requires AllEqual(ys)
    ensures LinearRegression(xs, ys).value.rSquared == 1.0
  {
    FitRSquared(xs, ys);
    SumSqDevMeanZero(ys);
  }

  /** Deviations of constant y values contribute no cross products. */
  lemma {:induction false} DevProductsConstant(xs: seq<real>, ys: seq<real>, mx: real, my: real)
    requires forall i :: 0 <= i < |ys| ==> ys[i] == my
    ensures SumDevProducts(xs, ys, mx, my) == 0.0
  {
    if |xs| > 0 && |ys| > 0 {
      DevProductsConstant(xs[1..], ys[1..], mx, my);
      assert Product(xs[0] - mx, ys[0] - my) == 0.0;
    }
  }

  /** R^2 is 1 exactly when every point lies on the fitted line. */
  lemma RSquaredOneIffOnLine(xs: seq<real>, ys: seq<real>)
    requires LinearRegression(xs, ys).Success?
    ensures var f := LinearRegression(xs, ys).value;
      f.rSquared == 1.0 <==> forall i :: 0 <= i < |xs| ==> ys[i] == f.slope * xs[i] + f.intercept
  {
    FitSlope(xs, ys);
    FitIntercept(xs, ys);
    FitRSquared(xs, ys);
    var f := LinearRegression(xs, ys).value;
    var mx, my := Mean(xs), Mean(ys);
    var ps := Predict(xs, f.slope, f.intercept);
    var ssRes, ssTot := SumSqDiff(ys, ps), SumSqDev(ys, my);
    SumSqDiffZero(ys, ps);
    SumSqDevZero(ys, my);
    SumSqDevNonNegative(ys, my);
    if ssTot == 0.0 {
      DevProductsConstant(xs, ys, mx, my);
      assert f.slope == 0.0 && f.intercept == my;
    } else {
      assert f.rSquared == 1.0 - ssRes / ssTot;
      assert f.rSquared == 1.0 <==> ssRes == 0.0;
    }
  }

  /** The point `(x, y)` lies on the line `y = a x + c`. */
  predicate OnLine(x: real, y: real, a: real, c: real)
  {
    y == a * x + c
  }

  /** The sum of an affine image of `xs`. */
  lemma {:induction false} SumAffine(xs: seq<real>, ys: seq<real>, a: real, c: real)
    requires |xs| == |ys|
    requires forall i :: 0 <= i < |xs| ==> OnLine(xs[i], ys[i], a, c)
    ensures Sum(ys) == a * Sum(xs) + (|xs| as real) * c
  {
    if |xs| > 0 {
      SumAffine(xs[1..], ys[1..], a, c);
    }
  }

  /** Dividing an affine combination by a positive count. */
  lemma DivAffine(s: real, n: real, a: real, c: real)
    requires n > 0.0
    ensures (a * s + n * c) / n == a * (s / n) + c
  {
  }

  /** The mean of an affine image of `xs`. */
  lemma MeanAffine(xs: seq<real>, ys: seq<real>, a: real, c: real)
    requires |xs| == |ys| > 0
    requires forall i :: 0 <= i < |xs| ==> OnLine(xs[i], ys[i], a, c)
    ensures Mean(ys) == a * Mean(xs) + c
  {
    SumAffine(xs, ys, a, c);
    DivAffine(Sum(xs), |xs| as real, a, c);
  }

  /** The line through data on it predicts that data exactly. */
  lemma ExactResidual(xs: seq<real>, ys: seq<real>, a: real, c: real)
    requires |xs| == |ys|
    requires forall i :: 0 <= i < |xs| ==> OnLine(xs[i], ys[i], a, c)
    ensures SumSqDiff(ys, Predict(xs, a, c)) == 0.0
  {
    var ps := Predict(xs, a, c);
    assert ps == ys by {
      forall i | 0 <= i < |xs|
        ensures ps[i] == ys[i]
      {
        assert OnLine(xs[i], ys[i], a, c);
      }
    }
    SumSqDiffSelf(ys);
  }

  /** The residual quadratic exceeds its value at the least-squares slope
      `b = sxy / sxx` by `sxx (a - b)^2`. */
  lemma QuadraticGap(syy: real, sxy: real, sxx: real, a: real, b: real)
    requires sxx != 0.0 && b == sxy / sxx
    ensures ResidualQuadratic(syy, sxy, sxx, a) - ResidualQuadratic(syy, sxy, sxx, b)
         == Product(sxx, Sq(a - b))
  {
    assert sxy == b * sxx;
    assert (a - b) * (a - b) == a * a - 2.0 * a * b + b * b;
    assert sxx * (a * a - 2.0 * a * b + b * b) == a * a * sxx - 2.0 * a * (b * sxx) + b * b * sxx;
  }

  /** A slope whose residual quadratic vanishes, while the quadratic is
      non-negative at the least-squares slope, is the least-squares slope. */
  lemma QuadraticMinimum(syy: real, sxy: real, sxx: real, a: real, b: real)
    requires sxx > 0.0 && b == sxy / sxx
    requires ResidualQuadratic(syy, sxy, sxx, a) == 0.0
    requires ResidualQuadratic(syy, sxy, sxx, b) >= 0.0
    ensures a == b
  {
    QuadraticGap(syy, sxy, sxx, a, b);
    SqSign(a - b);
    if a != b {
      ProductPositive(sxx, Sq(a - b));
    }
  }

  /** For data on an exact line the least-squares slope is the line's slope:
      that line leaves no residual, and only the least-squares slope can
      leave the least. */
  lemma ExactSlope(xs: seq<real>, ys: seq<real>, a: real, c: real)
    requires LinearRegression(xs, ys).Success?
    requires forall i :: 0 <= i < |xs| ==> OnLine(xs[i], ys[i], a, c)
    ensures LinearRegression(xs, ys).value.slope == a
  {
    FitSlope(xs, ys);
    var b := LinearRegression(xs, ys).value.slope;
    var mx, my := Mean(xs), Mean(ys);
    var sxx, sxy, syy := SumSqDev(xs, mx), SumDevProducts(xs, ys, mx, my), SumSqDev(ys, my);
    assert ResidualQuadratic(syy, sxy, sxx, a) == 0.0 by {
      MeanAffine(xs, ys, a, c);
      assert my - a * mx == c;
      ExactResidual(xs, ys, a, c);
      ResidualExpansion(xs, ys, a, mx, my);
    }
    assert ResidualQuadratic(syy, sxy, sxx, b) >= 0.0 by {
      ResidualExpansion(xs, ys, b, mx, my);
      SumSqDiffNonNegative(ys, Predict(xs, b, my - b * mx));
    }
    SumSqDevNonNegative(xs, mx);
    QuadraticMinimum(syy, sxy, sxx, a, b);
  }

  /** Data on an exact line `y = a x + c` (with X values not all equal) is
      fitted with slope `a`, intercept `c` and R^2 = 1. */
  lemma ExactFit(xs: seq<real>, ys: seq<real>, a: real, c: real)
    requires |xs| == |ys| && |xs| >= 2 && !AllEqual(xs)
    requires forall i :: 0 <= i < |xs| ==> OnLine(xs[i], ys[i], a, c)
    ensures LinearRegression(xs, ys) == Success(Fit(a, c, 1.0))
  {
    RegressionOutcome(xs, ys);
    var f := LinearRegression(xs, ys).value;
    ExactSlope(xs, ys, a, c);
    assert f.intercept == c by {
      FitIntercept(xs, ys);
      MeanAffine(xs, ys, a, c);
    }
    assert f.rSquared == 1.0 by {
      FitRSquared(xs, ys);
      ExactResidual(xs, ys, a, c);
    }
  }

  /** Points on `y = 2x` are fitted exactly. */
  lemma FitOfDoubledLine()
    ensures LinearRegression([1.0, 2.0, 3.0, 4.0, 5.0], [2.0, 4.0, 6.0, 8.0, 10.0])
         == Success(Fit(2.0, 0.0, 1.0))
  {
    assert [1.0, 2.0, 3.0, 4.0, 5.0][1] != [1.0, 2.0, 3.0, 4.0, 5.0][0];
    ExactFit([1.0, 2.0, 3.0, 4.0, 5.0], [2.0, 4.0, 6.0, 8.0, 10.0], 2.0, 0.0);
  }

  /** Points on `y = 2x + 1` are fitted exactly. */
  lemma FitOfShiftedLine()
    ensures LinearRegression([1.0, 2.0, 3.0, 4.0, 5.0], [3.0, 5.0, 7.0, 9.0, 11.0])
         == Success(Fit(2.0, 1.0, 1.0))
  {
    assert [1.0, 2.0, 3.0, 4.0, 5.0][1] != [1.0, 2.0, 3.0, 4.0, 5.0][0];
    ExactFit([1.0, 2.0, 3.0, 4.0, 5.0], [3.0, 5.0, 7.0, 9.0, 11.0], 2.0, 1.0);
  }

  /** Unequal lengths, a single point, and identical X values are refused. */
  lemma RefusedInputs()
    ensures LinearRegression([1.0, 2.0], [1.0]) == Failure(InvalidInput)
    ensures LinearRegression([1.0], [1.0]) == Failure(InvalidInput)
    ensures LinearRegression([1.0, 1.0, 1.0], [1.0, 2.0, 3.0]) == Failure(IdenticalX)
  {
    var xs := [1.0, 1.0, 1.0];
    assert AllEqual(xs);
    RegressionOutcome(xs, [1.0, 2.0, 3.0]);
  }
}
