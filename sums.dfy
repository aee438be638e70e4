/**
 * Sums, means and sums of squared deviations over finite sequences of reals:
 * the arithmetic that `summary_stats` and `linear_regression` share.
 * Python's generator-expression sums over `zip` are modelled by functions that
 * stop at the end of the shorter sequence, as `zip` does.
 */
module Sums {

  /** The product `a * b`. Squares are products of this function, so that the
      sign facts below, proved for two arbitrary factors, apply to them. */
  function Product(a: real, b: real): real
  {
    a * b
  }

  /** The square `x ** 2`. */
  function Sq(x: real): real
  {
    Product(x, x)
  }

  /** Sum of the elements, `sum(s)`. */
  function Sum(s: seq<real>): real
  {
    if |s| == 0 then 0.0 else s[0] + Sum(s[1..])
  }

  /** Arithmetic mean, `statistics.mean(s)`, defined for non-empty data. */
  function Mean(s: seq<real>): real
    requires |s| > 0
  {
    Sum(s) / (|s| as real)
  }

  /** Sum of squared deviations from `c`, `sum((x - c) ** 2 for x in s)`. */
  function SumSqDev(s: seq<real>, c: real): real
  {
    if |s| == 0 then 0.0 else Sq(s[0] - c) + SumSqDev(s[1..], c)
  }

  /** Sum of products of deviations, `sum((x - cx) * (y - cy) for x, y in zip(xs, ys))`. */
  function SumDevProducts(xs: seq<real>, ys: seq<real>, cx: real, cy: real): real
  {
    if |xs| == 0 || |ys| == 0 then 0.0
    else Product(xs[0] - cx, ys[0] - cy) + SumDevProducts(xs[1..], ys[1..], cx, cy)
  }

  /** Sum of squared differences, `sum((y - p) ** 2 for y, p in zip(ys, ps))`. */
  function SumSqDiff(ys: seq<real>, ps: seq<real>): real
  {
    if |ys| == 0 || |ps| == 0 then 0.0
    else Sq(ys[0] - ps[0]) + SumSqDiff(ys[1..], ps[1..])
  }

  /** Every element equals the first one. */
  predicate AllEqual(s: seq<real>)
  {
    forall i :: 0 <= i < |s| ==> s[i] == s[0]
  }

  /** A product of two positive factors is positive. */
  lemma ProductPositive(a: real, b: real)
    requires a > 0.0 && b > 0.0
    ensures Product(a, b) > 0.0
  {
  }

  /** A product of two non-negative factors is non-negative. */
  lemma ProductNonNegative(a: real, b: real)
    requires a >= 0.0 && b >= 0.0
    ensures Product(a, b) >= 0.0
  {
  }

  /** A square is never negative, and is zero only at zero. */
  lemma SqSign(d: real)
    ensures Sq(d) >= 0.0
    ensures Sq(d) == 0.0 <==> d == 0.0
  {
    if d > 0.0 {
      ProductPositive(d, d);
    } else if d < 0.0 {
      ProductPositive(-d, -d);
      assert Product(-d, -d) == Product(d, d);
    }
  }

  /** The sum of a concatenation is the sum of the parts. */
  lemma {:induction false} SumConcat(a: seq<real>, b: seq<real>)
    ensures Sum(a + b) == Sum(a) + Sum(b)
  {
    if |a| == 0 {
      assert a + b == b;
    } else {
      assert (a + b)[1..] == a[1..] + b;
      SumConcat(a[1..], b);
    }
  }

  /** The mean of a concatenation is the pooled mean of the parts. */
  lemma MeanConcat(a: seq<real>, b: seq<real>)
    requires |a| + |b| > 0
    ensures Mean(a + b) == (Sum(a) + Sum(b)) / ((|a| + |b|) as real)
  {
    SumConcat(a, b);
  }

  /** A sum lies between `|s|` times a lower and `|s|` times an upper bound of the elements. */
  lemma {:induction false} SumBounds(s: seq<real>, lo: real, hi: real)
    requires forall i :: 0 <= i < |s| ==> lo <= s[i] <= hi
    ensures (|s| as real) * lo <= Sum(s) <= (|s| as real) * hi
  {
    if |s| > 0 {
      SumBounds(s[1..], lo, hi);
      assert (|s| as real) * lo == lo + (|s[1..]| as real) * lo;
      assert (|s| as real) * hi == hi + (|s[1..]| as real) * hi;
    }
  }

  /** The mean lies between any lower and upper bound of the elements. */
  lemma MeanBounds(s: seq<real>, lo: real, hi: real)
    requires |s| > 0
    requires forall i :: 0 <= i < |s| ==> lo <= s[i] <= hi
    ensures lo <= Mean(s) <= hi
  {
    SumBounds(s, lo, hi);
    assert Mean(s) * (|s| as real) == Sum(s);
  }

  /** The sum of a constant sequence is its length times the constant. */
  lemma {:induction false} SumConstant(s: seq<real>, c: real)
    requires forall i :: 0 <= i < |s| ==> s[i] == c
    ensures Sum(s) == (|s| as real) * c
  {
    if |s| > 0 {
      SumConstant(s[1..], c);
    }
  }

  /** A sum of squared deviations is never negative. */
  lemma {:induction false} SumSqDevNonNegative(s: seq<real>, c: real)
    ensures SumSqDev(s, c) >= 0.0
  {
    if |s| > 0 {
      SqSign(s[0] - c);
      SumSqDevNonNegative(s[1..], c);
    }
  }

  /** A sum of squared deviations vanishes exactly when every element equals `c`. */
  lemma {:induction false} SumSqDevZero(s: seq<real>, c: real)
    ensures SumSqDev(s, c) == 0.0 <==> forall i :: 0 <= i < |s| ==> s[i] == c
  {
    if |s| > 0 {
      SumSqDevZero(s[1..], c);
      SumSqDevNonNegative(s[1..], c);
      SqSign(s[0] - c);
      assert (forall i :: 0 <= i < |s| ==> s[i] == c) <==>
             (s[0] == c && forall i :: 0 <= i < |s[1..]| ==> s[1..][i] == c);
    }
  }

  /** The squared deviations from the mean vanish exactly when all elements are equal. */
  lemma SumSqDevMeanZero(s: seq<real>)
    requires |s| > 0
    ensures SumSqDev(s, Mean(s)) == 0.0 <==> AllEqual(s)
  {
    SumSqDevZero(s, Mean(s));
    if AllEqual(s) {
      SumConstant(s, s[0]);
      assert Mean(s) == s[0];
    }
  }

  /** A sum of squared differences is never negative. */
  lemma {:induction false} SumSqDiffNonNegative(ys: seq<real>, ps: seq<real>)
    ensures SumSqDiff(ys, ps) >= 0.0
  {
    if |ys| > 0 && |ps| > 0 {
      SqSign(ys[0] - ps[0]);
      SumSqDiffNonNegative(ys[1..], ps[1..]);
    }
  }

  /** Differences of a sequence from itself square to nothing. */
  lemma {:induction false} SumSqDiffSelf(ys: seq<real>)
    ensures SumSqDiff(ys, ys) == 0.0
  {
    if |ys| > 0 {
      SumSqDiffSelf(ys[1..]);
    }
  }

  /** A sum of squared differences vanishes exactly when the paired entries agree. */
  lemma {:induction false} SumSqDiffZero(ys: seq<real>, ps: seq<real>)
    requires |ys| == |ps|
    ensures SumSqDiff(ys, ps) == 0.0 <==> forall i :: 0 <= i < |ys| ==> ys[i] == ps[i]
  {
    if |ys| > 0 {
      SumSqDiffZero(ys[1..], ps[1..]);
      SumSqDiffNonNegative(ys[1..], ps[1..]);
      SqSign(ys[0] - ps[0]);
      assert (forall i :: 0 <= i < |ys| ==> ys[i] == ps[i]) <==>
             (ys[0] == ps[0] && forall i :: 0 <= i < |ys[1..]| ==> ys[1..][i] == ps[1..][i]);
    }
  }
}
