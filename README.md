# DataAnalyzer, modelled in Dafny

This project models the `DataAnalyzer` class of `data_analysis.py`: an
analyzer holding a growing list of numeric samples and offering two
computations.

- `summary_stats` computes count, mean, median, mode, sample variance and
  standard deviation, min, max and range. For no data it returns an empty
  mapping.
- `linear_regression` computes an ordinary least-squares line, with its
  slope, intercept and R², over two lists passed to it.

All quantities are computed exactly over Dafny's `real`.

Modules:

- `Wrappers`: `Option` and `Result`.
- `Sums`: sums, means and sums of squared deviations, i.e. the generator
  expressions of the source.
- `Sorting`: the ascending permutation that the median is read from.
- `Frequency`: occurrence counts and the mode.
- `Statistics`: the summary mapping and its laws.
- `StatisticsExamples`: the summaries that the unit tests expect.
- `Regression`: `linear_regression` and its laws.
- `DataAnalysis`: the `Analyzer` class, with a `data: seq<real>` field that
  `AddData` reassigns. It also holds the unit-test scenarios, written as
  methods that drive the class.

The mapping that `summary_stats` returns is `Option<Summary>`:

- `None` is the empty mapping.
- Within a `Summary`, the mode is an `Option` (`None` is Python's `None`).

The library functions of Python's `statistics` module are re-specified by
their definitions:

- `mean` is the sum over the count.
- `median` is the middle of the sorted data, or the average of its two middle
  elements.
- `mode` is the first most common value in data order, as in Python 3.8 and
  later.
- `variance` divides the sum of squared deviations by `n - 1`.
- `stdev` is its non-negative square root. It is specified by the predicate
  `IsStdDevOf` rather than computed.

`linear_regression` returns `Result<Fit, RegressionError>`. `InvalidInput`
stands for the `ValueError` raised for unequal lengths or fewer than two
points. `IdenticalX` stands for the one raised when all X values are equal.

## Model

| member | source | states |
|---|---|---|
| DataAnalysis.Analyzer.constructor | data_analysis.py:15-17 | the samples held are the list given, or none when no list is given |
| DataAnalysis.Analyzer.AddData | data_analysis.py:19-21 | the new samples are the old ones followed by the added values, in order |
| DataAnalysis.Analyzer.SummaryStats | data_analysis.py:23-38 | returns the summary of the samples held and changes nothing (no `modifies`), so asking twice gives the same answer |
| DataAnalysis.Analyzer.LinearRegression | data_analysis.py:40-66 | returns the regression of the two lists given; it does not read or change the samples held |
| DataAnalysis.SummaryScenario | test_data_analysis.py:12-26 | an analyzer on 1..10 reports count 10, mean and median 5.5, min 1, max 10 and range 9 |
| DataAnalysis.AddDataScenario | test_data_analysis.py:68-75 | `[1,2,3]` extended by `[4,5,6]` summarises to count 6 and mean 3.5; a second `summary_stats` gives the same summary |
| DataAnalysis.EmptyAndSingleScenario | test_data_analysis.py:50-66 | an empty analyzer, and one built from no list, give the empty mapping; `[5.0]` gives count 1, mean 5, median 5 and variance 0 |
| DataAnalysis.RegressionScenario | test_data_analysis.py:28-89 | `y = 2x` fits as (2, 0, 1) and `y = 2x + 1` as (2, 1, 1); unequal lengths, one point and identical X values are refused |
| Sums.Sum | data_analysis.py:30 | the sum of the elements, Python's `sum`, with 0 for no elements |
| Sums.Mean | data_analysis.py:46-47 | `statistics.mean`: the sum of the samples over their count, for non-empty data |
| Sums.SumDevProducts | data_analysis.py:50 | the numerator: the sum over paired points of `(x - x_mean) * (y - y_mean)`, stopping at the shorter list as `zip` does |
| Sums.SumSqDev | data_analysis.py:51 | the sum of `(x - c) ** 2` over the samples: the slope's denominator, `ss_tot` at line 62 and the numerator of the variance |
| Sums.SumSqDiff | data_analysis.py:61 | `ss_res`: the sum over paired values of `(y - y_p) ** 2`, stopping at the shorter list as `zip` does |
| Sums.SumConcat | data_analysis.py:21 | the sum of extended data is the sum of its two parts |
| Sums.MeanConcat | data_analysis.py:30 | the mean of extended data is the pooled mean of its two parts |
| Sums.SumBounds | data_analysis.py:30 | a sum of `n` values within `[lo, hi]` lies within `[n lo, n hi]` |
| Sums.MeanBounds | data_analysis.py:30 | the mean of values within `[lo, hi]` lies within `[lo, hi]` |
| Sums.SumConstant | data_analysis.py:30 | the sum of `n` copies of `c` is `n c` |
| Sums.SumSqDevNonNegative | data_analysis.py:51 | a sum of squared deviations is never negative |
| Sums.SumSqDevZero | data_analysis.py:51 | the squared deviations from `c` sum to zero exactly when every value is `c` |
| Sums.SumSqDevMeanZero | data_analysis.py:51-54 | the squared deviations from the mean sum to zero exactly when all values are equal, which is the condition the identical-X guard tests |
| Sums.SumSqDiffNonNegative | data_analysis.py:61 | the residual sum of squares is never negative |
| Sums.SumSqDiffSelf | data_analysis.py:61 | values compared with themselves leave no residual |
| Sums.SumSqDiffZero | data_analysis.py:61 | for equal lengths the residual sum of squares is zero exactly when the two lists agree pointwise |
| Sums.SqSign | data_analysis.py:51 | a square is non-negative, and zero exactly when its base is |
| Sorting.NeighboursSorted | data_analysis.py:31 | a list whose neighbours are in order is ascending |
| Sorting.Insert | data_analysis.py:31 | inserting into an ascending list keeps it ascending and adds exactly that element |
| Sorting.Sort | data_analysis.py:31 | the result is ascending and a permutation of the data |
| Sorting.SortedUnique | data_analysis.py:31 | two ascending permutations of the same data are equal, so the median does not depend on how it is sorted |
| Sorting.SortElements | data_analysis.py:31 | every element of the sorted list comes from the data |
| Frequency.Count | data_analysis.py:32 | the number of occurrences of a value, the count a `Counter` keeps |
| Frequency.Elements | data_analysis.py:32 | the distinct values, `set(data)` |
| Frequency.IndexOf | data_analysis.py:32 | the position of the first occurrence of a value |
| Frequency.ModeFrom | data_analysis.py:32 | the scan that counts values returns the first position whose value occurs most often |
| Frequency.Mode | data_analysis.py:32 | the mode occurs at least as often as every value, and every value seen before it occurs strictly less often |
| Frequency.FirstMostCommonUnique | data_analysis.py:32 | only one value is the first most common, so the tie-break determines the mode |
| Frequency.RepeatCount | data_analysis.py:32 | a value found at two positions occurs at least twice |
| Frequency.ElementsCardinality | data_analysis.py:32 | `len(set(s)) <= len(s)`, with equality exactly when no value repeats |
| Frequency.ModeRepeats | data_analysis.py:32 | when some value repeats, the mode occurs at least twice |
| Statistics.Middle | data_analysis.py:31 | the middle element of a list of odd length, or the average of its two middle elements |
| Statistics.Median | data_analysis.py:31 | `statistics.median`: the middle element of `Sort(s)`, or the average of its two middle elements |
| Statistics.Variance | data_analysis.py:34 | `statistics.variance`: the sum of squared deviations from the mean over `n - 1`, for two or more samples |
| Statistics.IsStdDevOf | data_analysis.py:33 | `statistics.stdev`: a standard deviation is a non-negative number whose square is the variance |
| Statistics.Min | data_analysis.py:35 | the minimum is a sample and bounds every sample from below |
| Statistics.Max | data_analysis.py:36 | the maximum is a sample and bounds every sample from above |
| Statistics.SummaryStats | data_analysis.py:25-37 | the empty mapping exactly for empty data; otherwise the count is the number of samples |
| Statistics.MedianBounds | data_analysis.py:31-36 | `min <= median <= max` |
| Statistics.MiddleBounds | data_analysis.py:31 | the middle of values within an interval lies within it |
| Statistics.WithinExtremes | data_analysis.py:35-36 | every sample lies between min and max |
| Statistics.SummaryBounds | data_analysis.py:25-37 | on non-empty data: the count, min and max are attained and bound every sample, `min <= median <= max`, `min <= mean <= max` and `range == max - min >= 0` |
| Statistics.SummaryMode | data_analysis.py:32 | the mode is absent exactly when all values are distinct; when present it is the first most common value and occurs at least twice |
| Statistics.VarianceSign | data_analysis.py:34 | the sample variance times `n - 1` is the sum of squared deviations; it is non-negative, and zero exactly when all values are equal |
| Statistics.SummaryVariance | data_analysis.py:34 | from two points on, the reported variance is the `n - 1` sample variance and is non-negative, and zero exactly when all values are equal |
| Statistics.SummarySingle | data_analysis.py:33-34 | one sample `v` gives count 1; mean, median, min and max `v`; no mode; variance, range and standard deviation 0 |
| Statistics.StdDevUnique | data_analysis.py:33 | the standard deviation is determined by the variance |
| Statistics.MinConcat | data_analysis.py:35 | the minimum of extended data is the smaller of the two minima |
| Statistics.MaxConcat | data_analysis.py:36 | the maximum of extended data is the larger of the two maxima |
| Statistics.SummaryOfExtension | data_analysis.py:19-37 | after extending data by more samples: counts add, the mean is the pooled mean, and min and max are taken over both parts |
| Statistics.MedianOfSorted | data_analysis.py:31 | for data already ascending, the median is its middle element or the average of its two middle elements |
| Statistics.SortedExtremes | data_analysis.py:35-36 | for ascending data, min and max are the first and last elements |
| StatisticsExamples.OneToTenSum | test_data_analysis.py:14 | 1..10 sums to 55 |
| StatisticsExamples.TenMedian | test_data_analysis.py:23 | ten ascending samples with 5 and 6 in the middle have median 5.5 |
| StatisticsExamples.SummaryOfOneToTen | test_data_analysis.py:17-26 | 1..10 summarises to count 10, mean and median 5.5, min 1, max 10 and range 9 |
| StatisticsExamples.SummaryAfterAdding | test_data_analysis.py:68-75 | `[1,2,3] + [4,5,6]` summarises to count 6 and mean 3.5 |
| Regression.Predict | data_analysis.py:60 | one fitted value per x, each `slope * x + intercept` |
| Regression.RSquared | data_analysis.py:64 | `1 - ss_res / ss_tot`, or 1 when `ss_tot` is zero |
| Regression.LinearRegression | data_analysis.py:42-43 | `InvalidInput` exactly when the lengths differ or there are fewer than two points |
| Regression.RegressionOutcome | data_analysis.py:42-54 | refused with `InvalidInput` exactly for unequal lengths or fewer than two points, refused with `IdenticalX` exactly when otherwise all X values are equal, and successful in every other case |
| Regression.FitThroughMeans | data_analysis.py:56-57 | on success the slope solves the normal equation and the line passes through `(mean(x), mean(y))` |
| Regression.ResidualTerm | data_analysis.py:60-61 | one residual of a line through the means, expanded in the deviations |
| Regression.ResidualExpansion | data_analysis.py:60-61 | for any line through the means with slope `b`, `ssRes = syy - 2 b sxy + b² sxx` |
| Regression.ExplainedPart | data_analysis.py:56-61 | at `b = sxy / sxx` that expansion is `syy - b² sxx`, with a non-negative explained part |
| Regression.FitResidual | data_analysis.py:56-61 | the residual sum of squares of a successful fit is the expansion at its slope |
| Regression.ResidualBound | data_analysis.py:60-62 | on success `0 <= ssRes <= ssTot` |
| Regression.RSquaredBounds | data_analysis.py:64 | on success `0 <= R² <= 1` |
| Regression.RSquaredConstantY | data_analysis.py:62-64 | when all y values are equal, R² is 1 |
| Regression.DevProductsConstant | data_analysis.py:50 | constant y values give a zero numerator |
| Regression.RSquaredOneIffOnLine | data_analysis.py:60-64 | R² is 1 exactly when every point lies on the fitted line |
| Regression.SumAffine | data_analysis.py:46-47 | the sum of `a x + c` over the points is `a sum(x) + n c` |
| Regression.MeanAffine | data_analysis.py:46-47 | for points on `y = a x + c`, `mean(y) = a mean(x) + c` |
| Regression.ExactResidual | data_analysis.py:60-61 | the line that the points lie on leaves no residual |
| Regression.QuadraticGap | data_analysis.py:56 | the residual quadratic at slope `a` exceeds its value at `sxy / sxx` by `sxx (a - b)²` |
| Regression.QuadraticMinimum | data_analysis.py:56 | a slope with zero residual is the least-squares slope |
| Regression.ExactSlope | data_analysis.py:50-56 | for points on `y = a x + c`, the fitted slope is `a` |
| Regression.ExactFit | data_analysis.py:50-66 | points on `y = a x + c` with X values not all equal fit as exactly `(a, c, 1)` |
| Regression.FitOfDoubledLine | test_data_analysis.py:28-37 | `[1..5]` against `[2,4,6,8,10]` fits as (2, 0, 1) |
| Regression.FitOfShiftedLine | test_data_analysis.py:39-48 | `[1..5]` against `[3,5,7,9,11]` fits as (2, 1, 1) |
| Regression.RefusedInputs | test_data_analysis.py:77-89 | `[1,2]`/`[1]` and `[1]`/`[1]` are refused as invalid input, and `[1,1,1]`/`[1,2,3]` as identical X values |

## Left out

- Floating point: every quantity is exact over `real`. Rounding, overflow
  and underflow are not modelled. In particular, the denominator of the slope
  is zero in the model only when all X values are equal. In floats it can
  also underflow to zero.
- Statistics.SummaryStats: the `std_dev` field is not computed, because it is
  a square root. `IsStdDevOf` specifies it as the non-negative root of the
  variance. `SummarySingle` gives its value, 0, for a single point, and
  `StdDevUnique` shows that the variance determines it.
- The Python `statistics` library itself is not part of this model.
  `mean`, `median`, `mode`, `variance` and `stdev` are re-specified by their
  definitions.
- Regression.RegressionError: the source raises the same `ValueError` for
  both causes, so the model has one kind, `InvalidInput`, for both. The
  exception messages are not modelled.
- DataAnalysis.Analyzer.constructor: `data or []` keeps a reference to the
  caller's list only when that list is non-empty, so mutations through either
  name are then shared; an empty list is falsy and is replaced by a fresh
  `[]`, so a later `add_data` leaves the caller's list empty. The model
  holds the samples as a value and does not capture that aliasing. The
  integer samples of the tests are written as reals.
- `generate_sample_data`, which depends on a seeded random generator, is not
  part of this model.
- `main`, which prints and formats a console report, is not part of this
  model.
- `csv_analysis.py`, which does file reading through `csv.DictReader` and
  console reporting, is not part of this model.
