/** The sliding windows of TimeSeriesForecaster (scripts/forecast/ts_forecast.py):
    training pairs of h history rows followed by f target rows, and the
    history the forecast is made from. The fitted model is not modelled. */
module TimeSeriesWindows {
  const DefaultHistoryLength: nat := 7 * 24
  const DefaultForecastLength: nat := 24

  /** preprocess_data: one (history, target) pair per start position i, the
      history df[i..i+h) and the target df[i+h..i+h+f). */
  function PreprocessData<T>(df: seq<T>, historyLength: nat, forecastLength: nat): (r: (seq<seq<T>>, seq<seq<T>>))
    requires |df| >= historyLength + forecastLength
    ensures |r.0| == |df| - historyLength - forecastLength + 1 && |r.1| == |r.0|
    ensures forall i :: 0 <= i < |r.0| ==> |r.0[i]| == historyLength && |r.1[i]| == forecastLength
  {
    var n := |df| - historyLength - forecastLength + 1;
    (seq(n, i requires 0 <= i < n => df[i..i + historyLength]),
     seq(n, i requires 0 <= i < n => df[i + historyLength..i + historyLength + forecastLength]))
  }

  /** Each history followed by its target is the contiguous run of the data
      it was cut from. */
  lemma PairIsContiguous<T>(df: seq<T>, historyLength: nat, forecastLength: nat, i: nat)
    requires |df| >= historyLength + forecastLength
    requires i < |df| - historyLength - forecastLength + 1
    ensures var (x, y) := PreprocessData(df, historyLength, forecastLength);
            x[i] + y[i] == df[i..i + historyLength + forecastLength]
  {
    var (x, y) := PreprocessData(df, historyLength, forecastLength);
    var run := df[i..i + historyLength + forecastLength];
    assert x[i] == run[..historyLength];
    assert y[i] == run[historyLength..];
    assert run == run[..historyLength] + run[historyLength..];
  }

  /** Consecutive histories overlap: the next one drops the oldest row and
      appends the row that followed. */
  lemma HistoriesSlide<T>(df: seq<T>, historyLength: nat, forecastLength: nat, i: nat)
    requires |df| >= historyLength + forecastLength && historyLength >= 1
    requires i + 1 < |df| - historyLength - forecastLength + 1
    ensures var x := PreprocessData(df, historyLength, forecastLength).0;
            x[i + 1] == x[i][1..] + [df[i + historyLength]]
  {
    var x := PreprocessData(df, historyLength, forecastLength).0;
    assert x[i][1..] == df[i + 1..i + historyLength];
    assert x[i + 1] == df[i + 1..i + historyLength] + [df[i + historyLength]];
  }

  /** The last target ends with the last row, and the first history starts
      with the first row: every row is used. */
  lemma WindowsCoverTheData<T>(df: seq<T>, historyLength: nat, forecastLength: nat)
    requires |df| >= historyLength + forecastLength
    ensures var (x, y) := PreprocessData(df, historyLength, forecastLength);
            x[0] == df[..historyLength] && y[|y| - 1] == df[|df| - forecastLength..]
  {
  }

  /** The history forecast feeds the model, as written: df[-h:], which for
      h = 0 is df[0:], the whole frame. */
  function ForecastInputAsWritten<T>(df: seq<T>, historyLength: nat): (x: seq<T>)
    requires |df| >= historyLength
    ensures historyLength >= 1 ==> |x| == historyLength
    ensures historyLength == 0 ==> x == df
  {
    if historyLength == 0 then df else df[|df| - historyLength..]
  }

  /** The last h rows, for every h. */
  function LastRows<T>(df: seq<T>, historyLength: nat): (x: seq<T>)
    requires |df| >= historyLength
    ensures |x| == historyLength && df == df[..|df| - historyLength] + x
  {
    df[|df| - historyLength..]
  }

  /** With no history the written slice hands the model every row instead
      of none: one row already differs. */
  lemma ZeroHistoryCounterexample()
    ensures ForecastInputAsWritten([1.0], 0) == [1.0] && LastRows([1.0], 0) == []
  {
  }

  /** Apart from h = 0 the written slice is the last h rows. */
  lemma ForecastInputIsLastRows<T>(df: seq<T>, historyLength: nat)
    requires |df| >= historyLength && historyLength >= 1
    ensures ForecastInputAsWritten(df, historyLength) == LastRows(df, historyLength)
  {
  }

  /** The forecast history has the shape of a training history: it is the
      history of the pair whose target is the next f values after the data. */
  lemma ForecastInputIsNextHistory<T>(df: seq<T>, future: seq<T>, historyLength: nat)
    requires |df| >= historyLength
    ensures var (x, y) := PreprocessData(df + future, historyLength, |future|);
            x[|x| - 1] == LastRows(df, historyLength) && y[|y| - 1] == future
  {
    var all := df + future;
    var (x, y) := PreprocessData(all, historyLength, |future|);
    var i := |df| - historyLength;
    assert |x| - 1 == i;
    assert all[i..i + historyLength] == df[i..];
    assert all[i + historyLength..i + historyLength + |future|] == future;
  }
}
