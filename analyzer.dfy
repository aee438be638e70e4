/**
 * The `DataAnalyzer` class: a growing list of samples with its summary
 * statistics, and a linear regression over two lists passed to it.
 */
module DataAnalysis {
  import opened Wrappers
  import Statistics
  import StatisticsExamples
  import Regression

  class Analyzer {
    /** The samples collected so far, in the order they were given. */
    var data: seq<real>

    /** `DataAnalyzer(data)`: starts from the given samples, or from none
        when no list is given (`None`) or the given list is empty. */
    constructor (initial: Option<seq<real>>)
      ensures data == initial.GetOr([])
    {
      data := initial.GetOr([]);
    }

    /** `add_data(values)`: appends `values` after the samples already held. */
    method AddData(values: seq<real>)
      modifies this
      ensures data == old(data) + values
    {
      data := data + values;
    }

    /** `summary_stats()`: the summary of the samples held, `None` for the
        empty mapping; the samples are left as they are. */
    method SummaryStats() returns (r: Option<Statistics.Summary>)
      ensures r == Statistics.SummaryStats(data)
    {
      r := Statistics.SummaryStats(data);
    }

    /** `linear_regression(x_data, y_data)`: the least-squares line through
        the points, or the error the source raises as `ValueError`. It does
        not read or change the samples held. */
    method LinearRegression(xs: seq<real>, ys: seq<real>) returns (r: Result<Regression.Fit, Regression.RegressionError>)
      ensures r == Regression.LinearRegression(xs, ys)
    {
      r := Regression.LinearRegression(xs, ys);
    }
  }

  /** The analyzer of the unit tests, built from 1, 2, ..., 10: count 10, mean
      and median 5.5, min 1, max 10 and range 9. */
  method SummaryScenario() returns (stats: Option<Statistics.Summary>)
    ensures stats.Some? && stats.value.count == 10
    ensures stats.value.mean == 5.5 && stats.value.median == 5.5
    ensures stats.value.min == 1.0 && stats.value.max == 10.0 && stats.value.range == 9.0
  {
    var samples := [1.0, 2.0, 3.0, 4.0, 5.0, 6.0, 7.0, 8.0, 9.0, 10.0];
    var analyzer := new Analyzer(Some(samples));
    stats := analyzer.SummaryStats();
    StatisticsExamples.SummaryOfOneToTen(samples);
  }

  /** Samples 1, 2, 3 extended by 4, 5, 6 summarise to count 6 and mean 3.5,
      and asking twice gives the same summary. */
  method AddDataScenario() returns (first: Option<Statistics.Summary>, second: Option<Statistics.Summary>)
    ensures first.Some? && first.value.count == 6 && first.value.mean == 3.5
    ensures second == first
  {
    var initial, added := [1.0, 2.0, 3.0], [4.0, 5.0, 6.0];
    var analyzer := new Analyzer(Some(initial));
    analyzer.AddData(added);
    first := analyzer.SummaryStats();
    second := analyzer.SummaryStats();
    StatisticsExamples.SummaryAfterAdding(initial, added);
  }

  /** An analyzer built from an empty list, or from no list, has the empty
      summary; one built from a single sample 5 has count 1, mean and median
      5 and variance 0. */
  method EmptyAndSingleScenario() returns (empty: Option<Statistics.Summary>, none: Option<Statistics.Summary>, single: Option<Statistics.Summary>)
    ensures empty == None && none == None
    ensures single.Some? && single.value.count == 1
    ensures single.value.mean == 5.0 && single.value.median == 5.0 && single.value.variance == 0.0
  {
    var a := new Analyzer(Some([]));
    empty := a.SummaryStats();
    var b := new Analyzer(None);
    none := b.SummaryStats();
    var c := new Analyzer(Some([5.0]));
    single := c.SummaryStats();
    Statistics.SummarySingle(5.0);
  }

  /** The regression cases of the unit tests: exact fits of `y = 2x` and
      `y = 2x + 1`, and the three refused inputs. */
  method RegressionScenario() returns (doubled: Result<Regression.Fit, Regression.RegressionError>,
                                       shifted: Result<Regression.Fit, Regression.RegressionError>,
                                       unequal: Result<Regression.Fit, Regression.RegressionError>,
                                       onePoint: Result<Regression.Fit, Regression.RegressionError>,
                                       identical: Result<Regression.Fit, Regression.RegressionError>)
    ensures doubled == Success(Regression.Fit(2.0, 0.0, 1.0))
    ensures shifted == Success(Regression.Fit(2.0, 1.0, 1.0))
    ensures unequal.Failure? && onePoint.Failure? && identical.Failure?
  {
    var analyzer := new Analyzer(Some([1.0, 2.0, 3.0, 4.0, 5.0, 6.0, 7.0, 8.0, 9.0, 10.0]));
    doubled := analyzer.LinearRegression([1.0, 2.0, 3.0, 4.0, 5.0], [2.0, 4.0, 6.0, 8.0, 10.0]);
    shifted := analyzer.LinearRegression([1.0, 2.0, 3.0, 4.0, 5.0], [3.0, 5.0, 7.0, 9.0, 11.0]);
    unequal := analyzer.LinearRegression([1.0, 2.0], [1.0]);
    onePoint := analyzer.LinearRegression([1.0], [1.0]);
    identical := analyzer.LinearRegression([1.0, 1.0, 1.0], [1.0, 2.0, 3.0]);
    Regression.FitOfDoubledLine();
    Regression.FitOfShiftedLine();
    Regression.RefusedInputs();
  }
}
