/**
 * The portfolio performance chart's own logic: how many x-axis labels to
 * skip for a range, how a y-axis tick is written, and the selected range
 * and metric.
 */
module PortfolioChart {
  import opened Common
  import opened SeriesTime
  import PortfolioDataService

  /** The label spacing for a series of `dataPoints` points: a sixth above 50 points, a quarter above 20, else every label. */
  function XAxisInterval(dataPoints: nat): (r: nat)
    ensures dataPoints > 50 ==> r * 6 <= dataPoints < (r + 1) * 6
    ensures 20 < dataPoints <= 50 ==> r * 4 <= dataPoints < (r + 1) * 4
    ensures dataPoints <= 20 ==> r == 0
  {
    if dataPoints > 50 then dataPoints / 6
    else if dataPoints > 20 then dataPoints / 4
    else 0
  }

  /** `getXAxisInterval`: the spacing of the selected range; an unknown range shows every label. */
  function XAxisIntervalFor(selectedRange: string): (r: nat)
    ensures r == XAxisInterval(PortfolioDataService.PointCount(selectedRange))
  {
    var config := PortfolioDataService.FindConfig(PortfolioDataService.TimeRangeConfigs(), selectedRange);
    if config.None? then 0 else XAxisInterval(config.value.dataPoints)
  }

  /** The shipped ranges: 7d skips 28, 1m 7, 6m 6, and 3m, 1y and unknown ranges none. */
  lemma ShippedXAxisIntervals(other: string)
    requires other !in {"7d", "1m", "3m", "6m", "1y"}
    ensures XAxisIntervalFor("7d") == 28 && XAxisIntervalFor("1m") == 7 && XAxisIntervalFor("6m") == 6
    ensures XAxisIntervalFor("3m") == 0 && XAxisIntervalFor("1y") == 0 && XAxisIntervalFor(other) == 0
  {
  }

  /** `toFixed(0)`: to the nearest integer, halves away from zero. */
  function ToFixed0(x: real): (n: int)
    ensures x - 0.5 <= n as real <= x + 0.5
    ensures x >= 0.0 ==> n >= 0
  {
    if x >= 0.0 then Round(x) else -Round(-x)
  }

  /** A y-axis tick: a whole number of dollars or of thousands of dollars. */
  datatype AxisLabel = AxisLabel(amount: int, thousands: bool)

  /** `formatYAxisValue`: thousands with a `k` from 1000 up, whole dollars below. */
  function YAxisLabel(value: real): (l: AxisLabel)
    ensures l.thousands <==> value >= 1000.0
    ensures l.thousands ==> l.amount >= 1 && value / 1000.0 - 0.5 <= l.amount as real <= value / 1000.0 + 0.5
    ensures !l.thousands ==> value - 0.5 <= l.amount as real <= value + 0.5 && l.amount <= 1000
  {
    if value >= 1000.0 then AxisLabel(ToFixed0(value / 1000.0), true) else AxisLabel(ToFixed0(value), false)
  }

  function LabelText(l: AxisLabel): (s: string)
    ensures |s| >= 2 && s[0] == '$'
    ensures s[|s| - 1] == 'k' <==> l.thousands
  {
    var digits := IntToString(l.amount);
    assert digits[|digits| - 1] != 'k';
    "$" + digits + (if l.thousands then "k" else "")
  }

  /** The text of a tick. */
  function FormatYAxisValue(value: real): (s: string)
    ensures |s| >= 2 && s[0] == '$'
    ensures s[|s| - 1] == 'k' <==> value >= 1000.0
  {
    LabelText(YAxisLabel(value))
  }

  /** A larger value never gets a smaller tick within the same unit. */
  lemma YAxisMonotoneWithinUnit(a: real, b: real)
    requires a <= b && (a >= 1000.0 <==> b >= 1000.0)
    ensures YAxisLabel(a).amount <= YAxisLabel(b).amount
  {
    if a >= 1000.0 {
      RoundMonotone(a / 1000.0, b / 1000.0);
    } else if a >= 0.0 {
      RoundMonotone(a, b);
    } else if b >= 0.0 {
    } else {
      RoundMonotone(-b, -a);
    }
  }

  function Toggled(m: Metric): (r: Metric)
    ensures r != m
  {
    if m == ValueMetric then YieldMetric else ValueMetric
  }

  /** The metric button alternates: two presses restore the metric. */
  lemma ToggleTwice(m: Metric)
    ensures Toggled(Toggled(m)) == m
  {
  }

  /** Every range the selector offers has data, so the chart never shows an empty series. */
  lemma SelectableRangesHaveData(config: PortfolioDataService.TimeRangeConfig)
    requires config in PortfolioDataService.TimeRangeConfigs()
    ensures PortfolioDataService.PointCount(config.value) == config.dataPoints > 0
  {
  }

  /** The chart's selected range and metric. */
  class PortfolioChartState {
    var selectedRange: string
    var selectedMetric: Metric

    constructor ()
      ensures selectedRange == "6m" && selectedMetric == ValueMetric
    {
      selectedRange := "6m";
      selectedMetric := ValueMetric;
    }

    /** A range button selects its range. */
    method SelectRange(config: PortfolioDataService.TimeRangeConfig)
      requires config in PortfolioDataService.TimeRangeConfigs()
      modifies this
      ensures selectedRange == config.value && selectedMetric == old(selectedMetric)
    {
      selectedRange := config.value;
    }

    /** The metric button. */
    method ToggleMetric()
      modifies this
      ensures selectedMetric == Toggled(old(selectedMetric)) && selectedRange == old(selectedRange)
    {
      selectedMetric := if selectedMetric == ValueMetric then YieldMetric else ValueMetric;
    }
  }
}
