/**
 * The summaries the unit tests of `DataAnalyzer.summary_stats` expect, as
 * lemmas about `Statistics.SummaryStats`.
 */
module StatisticsExamples {
  import opened Sums
  import opened Sorting
  import opened Statistics

  /** The samples 1, ..., 10 add up to 55. */
  lemma OneToTenSum(s: seq<real>)
    requires s == [1.0, 2.0, 3.0, 4.0, 5.0, 6.0, 7.0, 8.0, 9.0, 10.0]
    ensures Sum(s) == 55.0
  {
    assert Sum([1.0, 2.0, 3.0, 4.0, 5.0, 6.0, 7.0, 8.0, 9.0, 10.0]) == 55.0;
  }

  /** The elements of 1, ..., 10 that the summary needs. */
  lemma OneToTenElements(s: seq<real>)
    requires s == [1.0, 2.0, 3.0, 4.0, 5.0, 6.0, 7.0, 8.0, 9.0, 10.0]
    ensures |s| == 10 && s[0] == 1.0 && s[4] == 5.0 && s[5] == 6.0 && s[9] == 10.0
  {
  }

  /** The samples 1, ..., 10 are in ascending order. */
  lemma OneToTenSorted(s: seq<real>)
    requires s == [1.0, 2.0, 3.0, 4.0, 5.0, 6.0, 7.0, 8.0, 9.0, 10.0]
    ensures Sorted(s)
  {
    NeighboursSorted(s);
  }

  /** Ten samples adding up to 55 have mean 5.5. */
  lemma TenMean(s: seq<real>)
    requires |s| == 10 && Sum(s) == 55.0
    ensures Mean(s) == 5.5
  {
  }

  /** Ten ascending samples with 5 and 6 in the middle have median 5.5. */
  lemma TenMedian(s: seq<real>)
    requires |s| == 10 && Sorted(s) && s[4] == 5.0 && s[5] == 6.0
    ensures Median(s) == 5.5
  {
    MedianOfSorted(s);
    assert Middle(s) == (s[4] + s[5]) / 2.0;
  }

  /** The summary of the samples 1, 2, ..., 10. */
  lemma SummaryOfOneToTen(s: seq<real>)
    requires s == [1.0, 2.0, 3.0, 4.0, 5.0, 6.0, 7.0, 8.0, 9.0, 10.0]
    ensures var r := SummaryStats(s).value;
      && r.count == 10 && r.mean == 5.5 && r.median == 5.5
      && r.min == 1.0 && r.max == 10.0 && r.range == 9.0
  {
    SummaryFields(s);
    OneToTenElements(s);
    OneToTenSum(s);
    OneToTenSorted(s);
    TenMean(s);
    TenMedian(s);
    SortedExtremes(s);
  }

  /** Three samples adding up to 6 pooled with three adding up to 15 have mean 3.5. */
  lemma PooledSixMean(a: seq<real>, b: seq<real>)
    requires |a| == 3 && |b| == 3 && Sum(a) == 6.0 && Sum(b) == 15.0
    ensures (Sum(a) + Sum(b)) / ((|a| + |b|) as real) == 3.5
  {
  }

  /** Samples 1, 2, 3 extended by 4, 5, 6: count 6 and mean 3.5. */
  lemma SummaryAfterAdding(a: seq<real>, b: seq<real>)
    requires a == [1.0, 2.0, 3.0] && b == [4.0, 5.0, 6.0]
    ensures var r := SummaryStats(a + b).value;
      r.count == 6 && r.mean == 3.5
  {
    assert Sum([1.0, 2.0, 3.0]) == 6.0 && Sum([4.0, 5.0, 6.0]) == 15.0;
    PooledSixMean(a, b);
    SummaryOfExtension(a, b);
  }
}
