/**
 * The analytics chart's data source: five ranges, a generator whose base
 * level and spread depend on the metric, a cache keyed by range and metric,
 * and a growth figure comparing the last point with the first. Each point
 * takes three `Math.random()` draws, in this order: the random variation,
 * the benchmark factor and the volume; they are the input `draws`.
 */
module AnalyticsDataService {
  import opened Common
  import opened SeriesTime

  datatype AnalyticsRange = AnalyticsRange(name: string, value: string, days: nat, dataPoints: nat, interval: Interval)

  function AnalyticsTimeRanges(): seq<AnalyticsRange> {
    [AnalyticsRange("7D", "7D", 7, 168, Hourly),
     AnalyticsRange("30D", "30D", 30, 30, Daily),
     AnalyticsRange("90D", "90D", 90, 90, Daily),
     AnalyticsRange("1Y", "1Y", 365, 52, Weekly),
     AnalyticsRange("ALL", "ALL", 730, 24, Monthly)]
  }

  function FindRange(ranges: seq<AnalyticsRange>, timeRange: string): (r: Option<AnalyticsRange>)
    ensures r.None? <==> forall c :: c in ranges ==> c.value != timeRange
    ensures r.Some? ==> r.value in ranges && r.value.value == timeRange
  {
    FindBy(ranges, RangeValue, timeRange)
  }

  function RangeValue(c: AnalyticsRange): string {
    c.value
  }

  /** The number of points of a range; an unknown range has none. */
  function PointCount(timeRange: string): (n: nat)
    ensures timeRange == "7D" ==> n == 168
    ensures timeRange == "30D" ==> n == 30
    ensures timeRange == "90D" ==> n == 90
    ensures timeRange == "1Y" ==> n == 52
    ensures timeRange == "ALL" ==> n == 24
    ensures timeRange !in {"7D", "30D", "90D", "1Y", "ALL"} ==> n == 0
  {
    var c := FindRange(AnalyticsTimeRanges(), timeRange);
    assert c.Some? <==> timeRange in {"7D", "30D", "90D", "1Y", "ALL"};
    if c.Some? then c.value.dataPoints else 0
  }

  function BaseValue(metric: Metric): real {
    if metric == ValueMetric then 12500.0 else 890.0
  }

  function BaseVariation(metric: Metric): real {
    if metric == ValueMetric then 0.05 else 0.08
  }

  datatype AnalyticsPoint = AnalyticsPoint(value: real, yieldValue: real, benchmark: real, volume: real, time: PointTime)

  /** The time-based, random and trend variations added together. */
  function TotalVariation(config: AnalyticsRange, metric: Metric, sin: real -> real, i: nat, r1: real): real
    requires i < config.dataPoints
  {
    var spread := BaseVariation(metric);
    var timeBasedVariation := sin(i as real * 0.1) * spread * 0.3;
    var randomVariation := (r1 - 0.5) * spread * 0.5;
    var trendGrowth := (config.dataPoints - i) as real / config.dataPoints as real * spread * 2.0;
    timeBasedVariation + randomVariation + trendGrowth
  }

  /** The rounded value before it is floored at zero. */
  function RawValue(metric: Metric, totalVariation: real): real {
    RoundCents(BaseValue(metric) * (1.0 + totalVariation))
  }

  /** The rounded yield before it is floored at zero: the value itself for the yield metric. */
  function RawYield(metric: Metric, totalVariation: real): real {
    RoundCents(if metric == YieldMetric then RawValue(metric, totalVariation)
               else BaseValue(metric) * 0.8 * (1.0 + totalVariation * 0.6))
  }

  /** The point `i` steps back, from its three draws. */
  function Point(config: AnalyticsRange, metric: Metric, now: int, sin: real -> real, i: nat, r1: real, r2: real, r3: real)
    : (p: AnalyticsPoint)
    requires i < config.dataPoints
    ensures p.value >= 0.0 && p.yieldValue >= 0.0 && p.benchmark >= 0.0
  {
    var totalVariation := TotalVariation(config, metric, sin, i, r1);
    var value := RawValue(metric, totalVariation);
    AnalyticsPoint(
      MaxReal(0.0, value),
      MaxReal(0.0, RawYield(metric, totalVariation)),
      MaxReal(0.0, value * (0.95 + r2 * 0.1)),
      RoundCents(1500.0 + r3 * 1000.0),
      TimeOf(config.interval, now, i))
  }

  /** The point at position `k` of a series, using draws `3k` to `3k + 2`. */
  function PointAt(config: AnalyticsRange, metric: Metric, now: int, sin: real -> real, draws: seq<real>, k: nat): AnalyticsPoint
    requires |draws| == 3 * config.dataPoints && k < config.dataPoints
  {
    Point(config, metric, now, sin, config.dataPoints - 1 - k, draws[3 * k], draws[3 * k + 1], draws[3 * k + 2])
  }

  /** `generateAnalyticsData` for a known range: position `k` is the point `dataPoints - 1 - k` steps back. */
  function Series(config: AnalyticsRange, metric: Metric, now: int, sin: real -> real, draws: seq<real>): (s: seq<AnalyticsPoint>)
    requires |draws| == 3 * config.dataPoints
    ensures |s| == config.dataPoints
  {
    seq(config.dataPoints, k requires 0 <= k < config.dataPoints => PointAt(config, metric, now, sin, draws, k))
  }

  /** What `generateAnalyticsData` returns: the series of a known range, `[]` for any other. */
  function Generated(timeRange: string, metric: Metric, now: int, sin: real -> real, draws: seq<real>): (s: seq<AnalyticsPoint>)
    requires |draws| == 3 * PointCount(timeRange)
    ensures |s| == PointCount(timeRange)
  {
    var config := FindRange(AnalyticsTimeRanges(), timeRange);
    if config.Some? then Series(config.value, metric, now, sin, draws) else []
  }

  /** The generator: look the range up; an unknown range gives `[]`. */
  method GenerateAnalyticsData(timeRange: string, metric: Metric, now: int, sin: real -> real, draws: seq<real>)
    returns (data: seq<AnalyticsPoint>)
    requires |draws| == 3 * PointCount(timeRange)
    ensures data == Generated(timeRange, metric, now, sin, draws)
  {
    var config := FindRange(AnalyticsTimeRanges(), timeRange);
    if config.None? {
      return [];
    }
    data := GenerateSeries(config.value, metric, now, sin, draws);
  }

  /** The generator's loop, counting `i` down and pushing a point each time. */
  method GenerateSeries(c: AnalyticsRange, metric: Metric, now: int, sin: real -> real, draws: seq<real>)
    returns (data: seq<AnalyticsPoint>)
    requires |draws| == 3 * c.dataPoints
    ensures data == Series(c, metric, now, sin, draws)
  {
    var n := c.dataPoints;
    data := [];
    var i: int := n - 1;
    while i >= 0
      invariant -1 <= i <= n - 1
      invariant |data| == n - 1 - i
      invariant forall k :: 0 <= k < |data| ==> data[k] == Series(c, metric, now, sin, draws)[k]
      decreases i
    {
      data := data + [PointAt(c, metric, now, sin, draws, n - 1 - i)];
      i := i - 1;
    }
  }

  predicate IsDraw(r: real) {
    0.0 <= r < 1.0
  }

  /** Every volume lies in [1500, 2500]. */
  lemma VolumeBounds(config: AnalyticsRange, metric: Metric, now: int, sin: real -> real, draws: seq<real>, k: nat)
    requires |draws| == 3 * config.dataPoints && k < config.dataPoints
    requires forall j :: 0 <= j < |draws| ==> IsDraw(draws[j])
    ensures 1500.0 <= Series(config, metric, now, sin, draws)[k].volume <= 2500.0
  {
    var r := draws[3 * k + 2];
    assert IsDraw(r);
    RoundCentsMonotone(1500.0, 1500.0 + r * 1000.0);
    RoundCentsMonotone(1500.0 + r * 1000.0, 2500.0);
    RoundCentsOfInteger(1500);
    RoundCentsOfInteger(2500);
  }

  /** For the yield metric the yield column repeats the value column. */
  lemma YieldMetricRepeatsValue(config: AnalyticsRange, now: int, sin: real -> real, draws: seq<real>, k: nat)
    requires |draws| == 3 * config.dataPoints && k < config.dataPoints
    ensures Series(config, YieldMetric, now, sin, draws)[k].yieldValue == Series(config, YieldMetric, now, sin, draws)[k].value
  {
    var tv := TotalVariation(config, YieldMetric, sin, config.dataPoints - 1 - k, draws[3 * k]);
    RoundCentsIdempotent(BaseValue(YieldMetric) * (1.0 + tv));
  }

  /** Rounding an amount that is already in whole cents changes nothing. */
  lemma RoundCentsIdempotent(x: real)
    ensures RoundCents(RoundCents(x)) == RoundCents(x)
  {
    var n := Round(x * 100.0);
    assert RoundCents(x) * 100.0 == n as real;
    assert (n as real + 0.5).Floor == n;
  }

  /** A benchmark factor in [0.95, 1.05) keeps the floored benchmark within five percent of the floored value. */
  lemma BenchmarkFactorBounds(value: real, r: real)
    requires IsDraw(r)
    ensures MaxReal(0.0, value) * 0.95 <= MaxReal(0.0, value * (0.95 + r * 0.1)) <= MaxReal(0.0, value) * 1.05
  {
    var f := 0.95 + r * 0.1;
    assert 0.95 <= f < 1.05;
    if value >= 0.0 {
      assert value * f - value * 0.95 == value * (f - 0.95) >= 0.0;
      assert value * 1.05 - value * f == value * (1.05 - f) >= 0.0;
    } else {
      assert value * f == -((-value) * f) < 0.0;
    }
  }

  /** The benchmark lies within five percent of the value. */
  lemma BenchmarkNearValue(config: AnalyticsRange, metric: Metric, now: int, sin: real -> real, draws: seq<real>, k: nat)
    requires |draws| == 3 * config.dataPoints && k < config.dataPoints
    requires forall j :: 0 <= j < |draws| ==> IsDraw(draws[j])
    ensures var p := Series(config, metric, now, sin, draws)[k];
            p.value * 0.95 <= p.benchmark <= p.value * 1.05
  {
    var r2 := draws[3 * k + 1];
    assert IsDraw(r2);
    var p := PointAt(config, metric, now, sin, draws, k);
    assert Series(config, metric, now, sin, draws)[k] == p;
    var value := RawValue(metric, TotalVariation(config, metric, sin, config.dataPoints - 1 - k, draws[3 * k]));
    assert p.value == MaxReal(0.0, value) && p.benchmark == MaxReal(0.0, value * (0.95 + r2 * 0.1));
    BenchmarkFactorBounds(value, r2);
  }

  /** Points come oldest first. */
  lemma SeriesOldestFirst(config: AnalyticsRange, metric: Metric, now: int, sin: real -> real, draws: seq<real>, a: nat, b: nat)
    requires |draws| == 3 * config.dataPoints && a < b < config.dataPoints
    ensures Before(Series(config, metric, now, sin, draws)[a].time, Series(config, metric, now, sin, draws)[b].time)
  {
    var n := config.dataPoints;
    FurtherBackIsBefore(config.interval, now, n - 1 - a, n - 1 - b);
  }

  function MetricName(metric: Metric): string {
    if metric == ValueMetric then "value" else "yield"
  }

  /** `${timeRange}-${metric}`. */
  function CacheKey(timeRange: string, metric: Metric): (key: string)
    ensures |key| == |timeRange| + |MetricName(metric)| + 1
    ensures key[..|timeRange|] == timeRange
  {
    timeRange + "-" + MetricName(metric)
  }

  /** Different range and metric pairs never share a cache slot. */
  lemma {:induction false} CacheKeyInjective(r1: string, m1: Metric, r2: string, m2: Metric)
    requires CacheKey(r1, m1) == CacheKey(r2, m2)
    ensures r1 == r2 && m1 == m2
  {
    var k := CacheKey(r1, m1);
    assert |MetricName(m1)| == |MetricName(m2)| == 5;
    assert |r1| == |r2|;
    assert r1 == k[..|r1|] == r2;
    assert k[|r1| + 1..] == MetricName(m1) == MetricName(m2);
    assert "value"[0] != "yield"[0];
  }

  /**
   * One call of `getAnalyticsData` on the cache: a cached key returns its
   * stored series; otherwise the generated series, `[]` for an unknown
   * range, is stored and returned.
   */
  function CacheStep(cache: map<string, seq<AnalyticsPoint>>, key: string, generated: seq<AnalyticsPoint>)
    : (r: (map<string, seq<AnalyticsPoint>>, seq<AnalyticsPoint>))
    ensures key in cache ==> r == (cache, cache[key])
    ensures key !in cache ==> r.0 == cache[key := generated] && r.1 == generated
  {
    if key in cache then (cache, cache[key]) else (cache[key := generated], generated)
  }

  /** Once a key is stored, later calls return the same series whatever they would generate. */
  lemma RepeatedCallIsCached(cache: map<string, seq<AnalyticsPoint>>, key: string, generated1: seq<AnalyticsPoint>, generated2: seq<AnalyticsPoint>)
    ensures var (c1, d1) := CacheStep(cache, key, generated1);
            CacheStep(c1, key, generated2) == (c1, d1)
  {
  }

  /** Unlike the portfolio cache, the empty series of an unknown range is stored too. */
  lemma UnknownRangeIsCached(cache: map<string, seq<AnalyticsPoint>>, timeRange: string, metric: Metric, now: int, sin: real -> real)
    requires PointCount(timeRange) == 0
    requires CacheKey(timeRange, metric) !in cache
    ensures var (c, d) := CacheStep(cache, CacheKey(timeRange, metric), Generated(timeRange, metric, now, sin, []));
            d == [] && c == cache[CacheKey(timeRange, metric) := []]
  {
  }

  /** After a clear nothing is cached, so the next call stores and returns what it generates. */
  lemma ClearedCacheRegenerates(key: string, generated: seq<AnalyticsPoint>)
    ensures CacheStep(map[], key, generated) == (map[key := generated], generated)
  {
  }

  /** The module-level cache. */
  class AnalyticsCache {
    var cache: map<string, seq<AnalyticsPoint>>

    constructor ()
      ensures cache == map[]
    {
      cache := map[];
    }

    method GetAnalyticsData(timeRange: string, metric: Metric, now: int, sin: real -> real, draws: seq<real>)
      returns (data: seq<AnalyticsPoint>)
      requires |draws| == 3 * PointCount(timeRange)
      modifies this
      ensures (cache, data) == CacheStep(old(cache), CacheKey(timeRange, metric), Generated(timeRange, metric, now, sin, draws))
    {
      var key := timeRange + "-" + MetricName(metric);
      if key in cache {
        return cache[key];
      }
      data := GenerateAnalyticsData(timeRange, metric, now, sin, draws);
      cache := cache[key := data];
    }

    /** `clearAnalyticsCache`. */
    method ClearAnalyticsCache()
      modifies this
      ensures cache == map[]
    {
      cache := map[];
    }
  }

  function MetricOf(p: AnalyticsPoint, metric: Metric): real {
    match metric
    case ValueMetric => p.value
    case YieldMetric => p.yieldValue
  }

  /** `calculateAnalyticsGrowth`: the last point against the first. */
  function AnalyticsGrowth(data: seq<AnalyticsPoint>, metric: Metric): (g: Growth)
    ensures |data| < 2 ==> g == Growth(0.0, 0.0, 0.0, Some(0.0))
    ensures |data| >= 2 ==>
              g.current == MetricOf(data[|data| - 1], metric) &&
              g.previous == MetricOf(data[0], metric) &&
              g.current == g.previous + g.change &&
              (g.changePercent.Some? <==> g.previous != 0.0) &&
              (g.changePercent.Some? ==> g.changePercent.value * g.previous == g.change * 100.0)
  {
    if |data| < 2 then Growth(0.0, 0.0, 0.0, Some(0.0))
    else
      var current := MetricOf(data[|data| - 1], metric);
      var first := MetricOf(data[0], metric);
      var change := current - first;
      Growth(current, first, change, if first == 0.0 then None else Some(change / first * 100.0))
  }

  /** The sum of the step-by-step changes from each point to the next. */
  function StepChanges(data: seq<AnalyticsPoint>, metric: Metric): real
    decreases |data|
  {
    if |data| < 2 then 0.0
    else StepChanges(data[..|data| - 1], metric) + (MetricOf(data[|data| - 1], metric) - MetricOf(data[|data| - 2], metric))
  }

  /** The growth over the whole range is the sum of the changes between neighbouring points. */
  lemma {:induction false} GrowthTelescopes(data: seq<AnalyticsPoint>, metric: Metric)
    requires |data| >= 2
    ensures AnalyticsGrowth(data, metric).change == StepChanges(data, metric)
    decreases |data|
  {
    var init := data[..|data| - 1];
    if |data| > 2 {
      GrowthTelescopes(init, metric);
      assert init[0] == data[0] && init[|init| - 1] == data[|data| - 2];
    }
  }
}
