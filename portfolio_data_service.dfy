/**
 * The portfolio chart's data source: five time ranges, a generator that
 * builds one synthetic point per step oldest first, a per-range memo cache,
 * and the growth figures comparing the last point with the one before it.
 * Every `Math.random()` draw is an input (`draws`, two per point, in [0, 1)),
 * as are the clock (`now`, in milliseconds) and `Math.sin`.
 */
module PortfolioDataService {
  import opened Common
  import opened SeriesTime

  datatype TimeRangeConfig = TimeRangeConfig(name: string, value: string, days: nat, dataPoints: nat, interval: Interval)

  function TimeRangeConfigs(): seq<TimeRangeConfig> {
    [TimeRangeConfig("7D", "7d", 7, 168, Hourly),
     TimeRangeConfig("1M", "1m", 30, 30, Daily),
     TimeRangeConfig("3M", "3m", 90, 12, Weekly),
     TimeRangeConfig("6M", "6m", 180, 24, Weekly),
     TimeRangeConfig("1Y", "1y", 365, 12, Monthly)]
  }

  /** `timeRangeConfigs.find(c => c.value === timeRange)`. */
  function FindConfig(configs: seq<TimeRangeConfig>, timeRange: string): (r: Option<TimeRangeConfig>)
    ensures r.None? <==> forall c :: c in configs ==> c.value != timeRange
    ensures r.Some? ==> r.value in configs && r.value.value == timeRange
  {
    FindBy(configs, ConfigValue, timeRange)
  }

  function ConfigValue(c: TimeRangeConfig): string {
    c.value
  }

  /** The number of points of a range; an unknown range has none. */
  function PointCount(timeRange: string): (n: nat)
    ensures timeRange == "7d" ==> n == 168
    ensures timeRange == "1m" ==> n == 30
    ensures timeRange == "3m" ==> n == 12
    ensures timeRange == "6m" ==> n == 24
    ensures timeRange == "1y" ==> n == 12
    ensures timeRange !in {"7d", "1m", "3m", "6m", "1y"} ==> n == 0
  {
    var c := FindConfig(TimeRangeConfigs(), timeRange);
    assert c.Some? <==> timeRange in {"7d", "1m", "3m", "6m", "1y"};
    if c.Some? then c.value.dataPoints else 0
  }

  datatype DataPoint = DataPoint(value: real, yieldValue: real, volume: real, time: PointTime)

  const BaseValue: real := 12500.0
  const BaseYield: real := 890.0

  /** The point `i` steps back, from its two draws. */
  function Point(config: TimeRangeConfig, now: int, sin: real -> real, i: nat, r1: real, r2: real): DataPoint
    requires i < config.dataPoints
  {
    var variation := (sin(i as real * 0.2) + r1 * 0.4 - 0.2) * 0.05;
    var trendGrowth := (config.dataPoints - i) as real / config.dataPoints as real * 0.15;
    DataPoint(
      RoundCents(BaseValue * (1.0 + variation + trendGrowth)),
      RoundCents(BaseYield * (1.0 + variation * 1.2 + trendGrowth * 0.8)),
      RoundCents(2000.0 + r2 * 2000.0),
      TimeOf(config.interval, now, i))
  }

  /** The whole series: position `k` is the point `dataPoints - 1 - k` steps back, using draws `2k` and `2k + 1`. */
  function Series(config: TimeRangeConfig, now: int, sin: real -> real, draws: seq<real>): (s: seq<DataPoint>)
    requires |draws| == 2 * config.dataPoints
    ensures |s| == config.dataPoints
  {
    var n := config.dataPoints;
    seq(n, k requires 0 <= k < n => Point(config, now, sin, n - 1 - k, draws[2 * k], draws[2 * k + 1]))
  }

  /** `generateDataPoints`: the loop counting `i` down and pushing a point each time. */
  method GenerateDataPoints(config: TimeRangeConfig, now: int, sin: real -> real, draws: seq<real>)
    returns (data: seq<DataPoint>)
    requires |draws| == 2 * config.dataPoints
    ensures data == Series(config, now, sin, draws)
  {
    var n := config.dataPoints;
    data := [];
    var i: int := n - 1;
    while i >= 0
      invariant -1 <= i <= n - 1
      invariant |data| == n - 1 - i
      invariant forall k :: 0 <= k < |data| ==> data[k] == Series(config, now, sin, draws)[k]
      decreases i
    {
      var k := n - 1 - i;
      data := data + [Point(config, now, sin, i, draws[2 * k], draws[2 * k + 1])];
      i := i - 1;
    }
  }

  predicate IsDraw(r: real) {
    0.0 <= r < 1.0
  }

  /** Every volume lies in [2000, 4000]. */
  lemma VolumeBounds(config: TimeRangeConfig, now: int, sin: real -> real, draws: seq<real>, k: nat)
    requires |draws| == 2 * config.dataPoints && k < config.dataPoints
    requires forall j :: 0 <= j < |draws| ==> IsDraw(draws[j])
    ensures 2000.0 <= Series(config, now, sin, draws)[k].volume <= 4000.0
  {
    var r := draws[2 * k + 1];
    assert IsDraw(r);
    RoundCentsMonotone(2000.0, 2000.0 + r * 2000.0);
    RoundCentsMonotone(2000.0 + r * 2000.0, 4000.0);
    RoundCentsOfInteger(2000);
    RoundCentsOfInteger(4000);
  }

  /** Points come oldest first. */
  lemma SeriesOldestFirst(config: TimeRangeConfig, now: int, sin: real -> real, draws: seq<real>, a: nat, b: nat)
    requires |draws| == 2 * config.dataPoints && a < b < config.dataPoints
    ensures Before(Series(config, now, sin, draws)[a].time, Series(config, now, sin, draws)[b].time)
  {
    var n := config.dataPoints;
    FurtherBackIsBefore(config.interval, now, n - 1 - a, n - 1 - b);
  }

  /** With `Math.sin` in [-1, 1], every value and yield is positive. */
  lemma ValuesPositive(config: TimeRangeConfig, now: int, sin: real -> real, draws: seq<real>, k: nat)
    requires |draws| == 2 * config.dataPoints && k < config.dataPoints
    requires forall j :: 0 <= j < |draws| ==> IsDraw(draws[j])
    requires forall x :: -1.0 <= sin(x) <= 1.0
    ensures Series(config, now, sin, draws)[k].value > 0.0
    ensures Series(config, now, sin, draws)[k].yieldValue > 0.0
  {
    var n := config.dataPoints;
    var i := n - 1 - k;
    var r1 := draws[2 * k];
    assert IsDraw(r1);
    var variation := (sin(i as real * 0.2) + r1 * 0.4 - 0.2) * 0.05;
    var trendGrowth := (n - i) as real / n as real * 0.15;
    assert -0.06 <= variation;
    assert trendGrowth >= 0.0;
  }

  /** The series a range would generate; an unknown range generates none. */
  function Generated(timeRange: string, now: int, sin: real -> real, draws: seq<real>): (s: seq<DataPoint>)
    requires |draws| == 2 * PointCount(timeRange)
    ensures |s| == PointCount(timeRange)
  {
    var config := FindConfig(TimeRangeConfigs(), timeRange);
    if config.Some? then Series(config.value, now, sin, draws) else []
  }

  /**
   * One call of `getPortfolioData` on the cache: a cached range returns its
   * stored series; a known range stores and returns the generated series; an
   * unknown range returns `[]` and stores nothing.
   */
  function CacheStep(cache: map<string, seq<DataPoint>>, timeRange: string, generated: seq<DataPoint>)
    : (r: (map<string, seq<DataPoint>>, seq<DataPoint>))
    ensures timeRange in cache ==> r == (cache, cache[timeRange])
    ensures timeRange !in cache && PointCount(timeRange) > 0 ==> r == (cache[timeRange := generated], generated)
    ensures timeRange !in cache && PointCount(timeRange) == 0 ==> r == (cache, [])
  {
    if timeRange in cache then (cache, cache[timeRange])
    else if FindConfig(TimeRangeConfigs(), timeRange).None? then (cache, [])
    else (cache[timeRange := generated], generated)
  }

  /** A repeated call returns the identical series, whatever the new draws. */
  lemma RepeatedCallIsCached(cache: map<string, seq<DataPoint>>, timeRange: string, generated1: seq<DataPoint>, generated2: seq<DataPoint>)
    ensures var (c1, d1) := CacheStep(cache, timeRange, generated1);
            CacheStep(c1, timeRange, generated2) == (c1, d1)
  {
  }

  /** An unknown range is never stored, so the cache does not grow. */
  lemma UnknownRangeNotCached(cache: map<string, seq<DataPoint>>, timeRange: string, generated: seq<DataPoint>)
    requires timeRange !in {"7d", "1m", "3m", "6m", "1y"}
    ensures CacheStep(cache, timeRange, generated).0 == cache
    ensures timeRange !in cache ==> CacheStep(cache, timeRange, generated).1 == []
  {
  }

  /** The module-level cache. */
  class PortfolioCache {
    var cache: map<string, seq<DataPoint>>

    constructor ()
      ensures cache == map[]
    {
      cache := map[];
    }

    method GetPortfolioData(timeRange: string, now: int, sin: real -> real, draws: seq<real>)
      returns (data: seq<DataPoint>)
      requires |draws| == 2 * PointCount(timeRange)
      modifies this
      ensures (cache, data) == CacheStep(old(cache), timeRange, Generated(timeRange, now, sin, draws))
    {
      if timeRange in cache {
        return cache[timeRange];
      }
      var config := FindConfig(TimeRangeConfigs(), timeRange);
      if config.None? {
        return [];
      }
      data := GenerateDataPoints(config.value, now, sin, draws);
      cache := cache[timeRange := data];
    }
  }

  function MetricOf(p: DataPoint, metric: Metric): real {
    match metric
    case ValueMetric => p.value
    case YieldMetric => p.yieldValue
  }

  /** `calculateGrowthMetrics`: the last point against the one before it. */
  function GrowthMetrics(data: seq<DataPoint>, metric: Metric): (g: Growth)
    ensures |data| < 2 ==> g == Growth(0.0, 0.0, 0.0, Some(0.0))
    ensures |data| >= 2 ==>
              g.current == MetricOf(data[|data| - 1], metric) &&
              g.previous == MetricOf(data[|data| - 2], metric) &&
              g.current == g.previous + g.change &&
              (g.changePercent.Some? <==> g.previous != 0.0) &&
              (g.changePercent.Some? ==> g.changePercent.value * g.previous == g.change * 100.0)
  {
    if |data| < 2 then Growth(0.0, 0.0, 0.0, Some(0.0))
    else
      var current := MetricOf(data[|data| - 1], metric);
      var previous := MetricOf(data[|data| - 2], metric);
      var change := current - previous;
      Growth(current, previous, change, if previous == 0.0 then None else Some(change / previous * 100.0))
  }

  /** Values 10 then 12: a change of 2, that is 20 percent. */
  lemma GrowthOfTenToTwelve(t1: PointTime, t2: PointTime)
    ensures GrowthMetrics([DataPoint(10.0, 0.0, 0.0, t1), DataPoint(12.0, 0.0, 0.0, t2)], ValueMetric)
            == Growth(12.0, 10.0, 2.0, Some(20.0))
  {
  }

  /** Only the last two points matter: earlier points can change freely. */
  lemma GrowthIgnoresEarlierPoints(earlier: seq<DataPoint>, other: seq<DataPoint>, a: DataPoint, b: DataPoint, metric: Metric)
    ensures GrowthMetrics(earlier + [a, b], metric) == GrowthMetrics(other + [a, b], metric)
  {
    assert (earlier + [a, b])[|earlier| + 1] == b && (earlier + [a, b])[|earlier|] == a;
    assert (other + [a, b])[|other| + 1] == b && (other + [a, b])[|other|] == a;
  }
}
