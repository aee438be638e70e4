/**
 * `DataAnalyzer.summary_stats`: the descriptive statistics of the samples,
 * computed exactly over the reals.
 */
module Statistics {
  import opened Wrappers
  import opened Sums
  import opened Sorting
  import opened Frequency

  /** The mapping `summary_stats` returns for non-empty data, without the
      standard deviation (a square root, specified by `IsStdDevOf`). */
  datatype Summary = Summary(
    count: nat,
    mean: real,
    median: real,
    mode: Option<real>,
    variance: real,
    min: real,
    max: real,
    range: real)

  /** Smallest element, `min(s)`. */
  function Min(s: seq<real>): (r: real)
    requires |s| > 0
    ensures r in s
    ensures forall i :: 0 <= i < |s| ==> r <= s[i]
  {
    if |s| == 1 then s[0]
    else
      var m := Min(s[1..]);
      assert forall i :: 1 <= i < |s| ==> s[i] == s[1..][i - 1];
      if s[0] <= m then s[0] else m
  }

  /** Largest element, `max(s)`. */
  function Max(s: seq<real>): (r: real)
    requires |s| > 0
    ensures r in s
    ensures forall i :: 0 <= i < |s| ==> s[i] <= r
  {
    if |s| == 1 then s[0]
    else
      var m := Max(s[1..]);
      assert forall i :: 1 <= i < |s| ==> s[i] == s[1..][i - 1];
      if s[0] >= m then s[0] else m
  }

  /** The middle element of `t`, or the average of its two middle elements
      when its length is even. */
  function Middle(t: seq<real>): real
    requires |t| > 0
  {
    var n := |t|;
    if n % 2 == 1 then t[n / 2] else (t[n / 2 - 1] + t[n / 2]) / 2.0
  }

  /** `statistics.median(s)`: the middle of the sorted data. */
  function Median(s: seq<real>): real
    requires |s| > 0
  {
    Middle(Sort(s))
  }

  /** `statistics.variance(s)`: the sample variance, with denominator `n - 1`. */
  function Variance(s: seq<real>): real
    requires |s| > 1
  {
    SumSqDev(s, Mean(s)) / ((|s| - 1) as real)
  }

  /** `sd` is the standard deviation belonging to `variance`: its
      non-negative square root (`statistics.stdev`, exactly). */
  ghost predicate IsStdDevOf(sd: real, variance: real)
  {
    sd >= 0.0 && Sq(sd) == variance
  }

  /** `summary_stats()`: `None` stands for the empty mapping returned for no data.
      The mode is present only when `len(set(s)) < len(s)`; variance is 0 for
      a single point instead of failing. */
  function SummaryStats(s: seq<real>): (r: Option<Summary>)
    ensures r.None? <==> |s| == 0
    ensures r.Some? ==> r.value.count == |s|
  {
    if |s| == 0 then None
    else
      Some(Summary(
        count := |s|,
        mean := Mean(s),
        median := Median(s),
        mode := if |Elements(s)| < |s| then Some(Mode(s)) else None,
        variance := if |s| > 1 then Variance(s) else 0.0,
        min := Min(s),
        max := Max(s),
        range := Max(s) - Min(s)))
  }

  /** The fields of a non-empty summary, one by one. */
  lemma SummaryFields(s: seq<real>)
    requires |s| > 0
    ensures var r := SummaryStats(s).value;
      && r.count == |s| && r.mean == Mean(s) && r.median == Median(s)
      && r.mode == (if |Elements(s)| < |s| then Some(Mode(s)) else None)
      && r.variance == (if |s| > 1 then Variance(s) else 0.0)
      && r.min == Min(s) && r.max == Max(s) && r.range == Max(s) - Min(s)
  {
  }

  /** The median lies between the smallest and the largest element. */
  lemma MedianBounds(s: seq<real>)
    requires |s| > 0
    ensures Min(s) <= Median(s) <= Max(s)
  {
    var t := Sort(s);
    forall k | 0 <= k < |t|
      ensures Min(s) <= t[k] <= Max(s)
    {
      SortElements(s, k);
      WithinExtremes(s, t[k]);
    }
    MiddleBounds(t, Min(s), Max(s));
  }

  /** The middle of values in an interval lies in the interval. */
  lemma MiddleBounds(t: seq<real>, lo: real, hi: real)
    requires |t| > 0
    requires forall k :: 0 <= k < |t| ==> lo <= t[k] <= hi
    ensures lo <= Middle(t) <= hi
  {
    var n := |t|;
    assert lo <= t[n / 2] <= hi;
    if n % 2 == 0 {
      MidpointBetween(t[n / 2 - 1], t[n / 2], lo, hi);
    }
  }

  /** Every sample lies between the smallest and the largest. */
  lemma WithinExtremes(s: seq<real>, v: real)
    requires v in s
    ensures Min(s) <= v <= Max(s)
  {
  }

  /** The average of two values in an interval lies in the interval. */
  lemma MidpointBetween(a: real, b: real, lo: real, hi: real)
    requires lo <= a <= hi && lo <= b <= hi
    ensures lo <= (a + b) / 2.0 <= hi
  {
  }

  /** On non-empty data: min and max are attained and bound every sample,
      `min <= median <= max`, `min <= mean <= max` and `range == max - min >= 0`. */
  lemma SummaryBounds(s: seq<real>)
    requires |s| > 0
    ensures var r := SummaryStats(s).value;
      && r.count == |s|
      && r.min in s && r.max in s
      && (forall i :: 0 <= i < |s| ==> r.min <= s[i] <= r.max)
      && r.min <= r.median <= r.max
      && r.min <= r.mean <= r.max
      && r.range == r.max - r.min >= 0.0
  {
    SummaryFields(s);
    MedianBounds(s);
    MeanBounds(s, Min(s), Max(s));
  }

  /** The mode is absent exactly when all values are distinct; when present it
      is the first most common value, and it occurs at least twice. */
  lemma SummaryMode(s: seq<real>)
    requires |s| > 0
    ensures var r := SummaryStats(s).value;
      && (r.mode.None? <==> Distinct(s))
      && (r.mode.Some? ==> IsFirstMostCommon(s, r.mode.value) && Count(s, r.mode.value) >= 2)
  {
    SummaryFields(s);
    ElementsCardinality(s);
    if !Distinct(s) {
      ModeRepeats(s);
    }
  }

  /** The sample variance is never negative and is zero exactly when all
      values are equal. */
  lemma VarianceSign(s: seq<real>)
    requires |s| >= 2
    ensures Variance(s) * ((|s| - 1) as real) == SumSqDev(s, Mean(s))
    ensures Variance(s) >= 0.0
    ensures Variance(s) == 0.0 <==> AllEqual(s)
  {
    SumSqDevNonNegative(s, Mean(s));
    SumSqDevMeanZero(s);
  }

  /** With two or more points the reported variance is the `n - 1` sample
      variance of the data; it is never negative and is zero exactly when all
      values are equal. */
  lemma SummaryVariance(s: seq<real>)
    requires |s| >= 2
    ensures var r := SummaryStats(s).value;
      && r.variance == Variance(s)
      && r.variance >= 0.0
      && (r.variance == 0.0 <==> AllEqual(s))
  {
    SummaryFields(s);
    VarianceSign(s);
  }

  /** A single point `v`: count 1, mean, median, min and max `v`, no mode,
      variance and range 0, and standard deviation 0. */
  lemma SummarySingle(v: real)
    ensures SummaryStats([v]) == Some(Summary(1, v, v, None, 0.0, v, v, 0.0))
    ensures IsStdDevOf(0.0, SummaryStats([v]).value.variance)
  {
    var s := [v];
    assert s[1..] == [];
    assert Sum(s) == v;
    assert Elements(s) == {v};
    assert Sort(s) == Insert(v, []) == [v];
  }

  /** The standard deviation is determined by the variance. */
  lemma StdDevUnique(sd1: real, sd2: real, variance: real)
    requires IsStdDevOf(sd1, variance) && IsStdDevOf(sd2, variance)
    ensures sd1 == sd2
  {
    if sd1 < sd2 {
      ProductPositive(sd2 - sd1, sd2 + sd1);
    } else if sd2 < sd1 {
      ProductPositive(sd1 - sd2, sd1 + sd2);
    }
  }

  /** The minimum of a concatenation is the smaller of the two minima. */
  lemma MinConcat(a: seq<real>, b: seq<real>)
    requires |a| > 0 && |b| > 0
    ensures Min(a + b) == if Min(a) <= Min(b) then Min(a) else Min(b)
  {
    var s := a + b;
    var m := Min(s);
    var k :| 0 <= k < |s| && s[k] == m;
    if k < |a| {
      assert s[k] == a[k];
    } else {
      assert s[k] == b[k - |a|];
    }
    assert s[IndexOf(a, Min(a))] == Min(a);
    assert s[|a| + IndexOf(b, Min(b))] == Min(b);
  }

  /** The maximum of a concatenation is the larger of the two maxima. */
  lemma MaxConcat(a: seq<real>, b: seq<real>)
    requires |a| > 0 && |b| > 0
    ensures Max(a + b) == if Max(a) >= Max(b) then Max(a) else Max(b)
  {
    var s := a + b;
    var m := Max(s);
    var k :| 0 <= k < |s| && s[k] == m;
    if k < |a| {
      assert s[k] == a[k];
    } else {
      assert s[k] == b[k - |a|];
    }
    assert s[IndexOf(a, Max(a))] == Max(a);
    assert s[|a| + IndexOf(b, Max(b))] == Max(b);
  }

  /** Statistics of data extended by `b`, as after `add_data(b)`: the count
      adds up, the mean is the pooled mean, and min and max are taken over
      both parts. */
  lemma SummaryOfExtension(a: seq<real>, b: seq<real>)
    requires |a| > 0 && |b| > 0
    ensures var r := SummaryStats(a + b).value;
      && r.count == |a| + |b|
      && r.mean == (Sum(a) + Sum(b)) / ((|a| + |b|) as real)
      && r.min == (if Min(a) <= Min(b) then Min(a) else Min(b))
      && r.max == (if Max(a) >= Max(b) then Max(a) else Max(b))
  {
    SummaryFields(a + b);
    MeanConcat(a, b);
    MinConcat(a, b);
    MaxConcat(a, b);
  }

  /** For data already in ascending order the median is its middle element,
      or the average of its two middle elements. */
  lemma MedianOfSorted(s: seq<real>)
    requires |s| > 0 && Sorted(s)
    ensures Median(s) == Middle(s)
  {
    SortedUnique(Sort(s), s);
  }

  /** The extremes of ascending data are its first and last elements. */
  lemma SortedExtremes(s: seq<real>)
    requires |s| > 0 && Sorted(s)
    ensures Min(s) == s[0] && Max(s) == s[|s| - 1]
  {
  }
}
