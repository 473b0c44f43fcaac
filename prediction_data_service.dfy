/**
 * The predictive-modelling data: a forecast series with a confidence band
 * for three horizons, and five market scenarios with a probability and an
 * expected return, listed most probable first. Random draws, `Math.sin` and
 * the clock are inputs.
 */
module PredictionDataService {
  import opened Common
  import opened Sorting

  datatype TimeHorizon = H7D | H30D | H90D

  /** Days covered, number of points, volatility and trend per step. */
  datatype HorizonParams = HorizonParams(days: nat, dataPoints: nat, volatility: real, trend: real)

  function Params(h: TimeHorizon): (p: HorizonParams)
    ensures p.days > 0 && p.dataPoints > 0 && p.volatility > 0.0
  {
    match h
    case H7D => HorizonParams(7, 14, 0.02, 0.001)
    case H30D => HorizonParams(30, 30, 0.05, 0.003)
    case H90D => HorizonParams(90, 18, 0.08, 0.005)
  }

  /** The current portfolio yield the forecast starts from. */
  const BaseYield: real := 8.2

  const DayMs: real := 86400000.0

  /** A forecast point; `actual` is present for the past third of the series. */
  datatype PredictionPoint = PredictionPoint(time: real, actual: Option<real>, predicted: real, upper: real, lower: real)

  /** Points with `i < dataPoints / 3` carry an actual value: the first `ceil(dataPoints / 3)`. */
  function ActualCount(n: nat): (a: nat)
    ensures forall i: nat :: i < a <==> 3 * i < n
  {
    (n + 2) / 3
  }

  /** `now` plus `i / dataPoints` of the horizon's days, in milliseconds. */
  function StepTime(h: TimeHorizon, now: int, i: nat): real {
    var p := Params(h);
    now as real + i as real / p.dataPoints as real * p.days as real * DayMs
  }

  /** A later step lies later in time. */
  lemma StepTimeAscending(h: TimeHorizon, now: int, i: nat, j: nat)
    requires i < j
    ensures StepTime(h, now, i) < StepTime(h, now, j)
  {
    var p := Params(h);
    var n := p.dataPoints as real;
    var span := p.days as real * DayMs;
    assert span > 0.0;
    assert i as real / n < j as real / n;
    var x, y := i as real / n, j as real / n;
    assert y * span - x * span == (y - x) * span > 0.0;
  }

  /** The half-width of the band at step `i`: wider the further out. */
  function ConfidenceWidth(h: TimeHorizon, i: nat): (w: real)
    ensures w > 0.0
  {
    Params(h).volatility * (1.0 + i as real * 0.1) * BaseYield
  }

  /** The forecast before it is floored at zero. */
  function RawPrediction(h: TimeHorizon, sin: real -> real, i: nat, r1: real): real {
    var p := Params(h);
    var trendEffect := p.trend * i as real;
    var randomVariation := (r1 - 0.5) * p.volatility;
    var cyclicalEffect := sin(i as real * 0.3) * p.volatility * 0.3;
    BaseYield + BaseYield * (trendEffect + randomVariation + cyclicalEffect)
  }

  /**
   * The point at step `i`: `r1` is the forecast's draw and `r2` the actual
   * value's draw, taken only for the past third.
   */
  function Point(h: TimeHorizon, now: int, sin: real -> real, i: nat, r1: real, r2: real): (q: PredictionPoint)
    requires i < Params(h).dataPoints
    ensures 0.0 <= q.lower <= q.predicted <= q.upper
    ensures q.predicted > 0.0 ==> q.upper - q.predicted == ConfidenceWidth(h, i)
    ensures q.lower > 0.0 ==> q.predicted - q.lower == ConfidenceWidth(h, i)
    ensures q.actual.Some? <==> 3 * i < Params(h).dataPoints
  {
    var p := Params(h);
    var predicted := RawPrediction(h, sin, i, r1);
    var width := ConfidenceWidth(h, i);
    var actual := if 3 * i < p.dataPoints then Some(predicted + (r2 - 0.5) * p.volatility * BaseYield) else None;
    PredictionPoint(
      StepTime(h, now, i),
      actual,
      MaxReal(0.0, predicted),
      MaxReal(0.0, predicted + width),
      MaxReal(0.0, predicted - width))
  }

  /** The number of draws a series consumes: one per point and one more per actual value. */
  function DrawCount(h: TimeHorizon): nat {
    Params(h).dataPoints + ActualCount(Params(h).dataPoints)
  }

  /** Where the draws of step `i` start: two per step while actual values are drawn, one per step after. */
  function DrawIndex(n: nat, i: nat): nat {
    if 3 * i < n then 2 * i else ActualCount(n) + i
  }

  lemma DrawIndexStep(n: nat, i: nat)
    requires i < n
    ensures DrawIndex(n, i + 1) == DrawIndex(n, i) + (if 3 * i < n then 2 else 1)
    ensures DrawIndex(n, i) + (if 3 * i < n then 1 else 0) < n + ActualCount(n)
  {
    var a := ActualCount(n);
    assert i < a <==> 3 * i < n;
    assert i + 1 < a <==> 3 * (i + 1) < n;
    if 3 * i < n && 3 * (i + 1) >= n {
      assert !(i + 1 < a) && i < a;
    }
  }

  /** `generatePredictionData`: step `i` uses the draws from `DrawIndex(n, i)` on. */
  function Prediction(h: TimeHorizon, now: int, sin: real -> real, draws: seq<real>): (s: seq<PredictionPoint>)
    requires |draws| == DrawCount(h)
    ensures |s| == Params(h).dataPoints
  {
    var n := Params(h).dataPoints;
    seq(n, i requires 0 <= i < n =>
      DrawIndexStep(n, i);
      Point(h, now, sin, i, draws[DrawIndex(n, i)], if 3 * i < n then draws[DrawIndex(n, i) + 1] else 0.0))
  }

  /** The generator's loop, drawing as it goes. */
  method GeneratePredictionData(h: TimeHorizon, now: int, sin: real -> real, draws: seq<real>)
    returns (data: seq<PredictionPoint>)
    requires |draws| == DrawCount(h)
    ensures data == Prediction(h, now, sin, draws)
  {
    var n := Params(h).dataPoints;
    data := [];
    var next := 0;
    ghost var expected := Prediction(h, now, sin, draws);
    for i := 0 to n
      invariant next == DrawIndex(n, i)
      invariant |data| == i && forall j :: 0 <= j < i ==> data[j] == expected[j]
    {
      DrawIndexStep(n, i);
      var r1 := draws[next];
      next := next + 1;
      var r2 := 0.0;
      PredictionAt(h, now, sin, draws, i);
      if 3 * i < n {
        r2 := draws[next];
        next := next + 1;
      }
      assert r2 == if 3 * i < n then draws[DrawIndex(n, i) + 1] else 0.0;
      var q := Point(h, now, sin, i, r1, r2);
      assert q == expected[i];
      data := data + [q];
    }
  }

  /** Step `i` of the series, with the draws it takes. */
  lemma PredictionAt(h: TimeHorizon, now: int, sin: real -> real, draws: seq<real>, i: nat)
    requires |draws| == DrawCount(h) && i < Params(h).dataPoints
    ensures var n := Params(h).dataPoints;
            DrawIndex(n, i) + (if 3 * i < n then 1 else 0) < |draws| &&
            Prediction(h, now, sin, draws)[i] ==
              Point(h, now, sin, i, draws[DrawIndex(n, i)], if 3 * i < n then draws[DrawIndex(n, i) + 1] else 0.0)
  {
    DrawIndexStep(Params(h).dataPoints, i);
  }

  /** The band widens strictly from each step to the next. */
  lemma WidthIncreasing(h: TimeHorizon, i: nat, j: nat)
    requires i < j
    ensures ConfidenceWidth(h, i) < ConfidenceWidth(h, j)
  {
    var v := Params(h).volatility * BaseYield;
    assert ConfidenceWidth(h, i) == v * (1.0 + i as real * 0.1);
    assert ConfidenceWidth(h, j) == v * (1.0 + j as real * 0.1);
    assert v * (1.0 + j as real * 0.1) - v * (1.0 + i as real * 0.1) == v * ((j - i) as real * 0.1);
  }

  /** 14, 30 and 18 points, of which 5, 10 and 6 carry an actual value. */
  lemma HorizonSizes()
    ensures Params(H7D).dataPoints == 14 && ActualCount(14) == 5
    ensures Params(H30D).dataPoints == 30 && ActualCount(30) == 10
    ensures Params(H90D).dataPoints == 18 && ActualCount(18) == 6
  {
  }

  /** Points move forward in time. */
  lemma TimesAscending(h: TimeHorizon, now: int, sin: real -> real, draws: seq<real>, a: nat, b: nat)
    requires |draws| == DrawCount(h) && a < b < Params(h).dataPoints
    ensures Prediction(h, now, sin, draws)[a].time < Prediction(h, now, sin, draws)[b].time
  {
    assert Prediction(h, now, sin, draws)[a].time == StepTime(h, now, a);
    assert Prediction(h, now, sin, draws)[b].time == StepTime(h, now, b);
    StepTimeAscending(h, now, a, b);
  }

  datatype Risk = Low | Medium | High

  datatype BaseScenario = BaseScenario(scenario: string, risk: Risk)

  function BaseScenarios(): seq<BaseScenario> {
    [BaseScenario("Bull Market", Medium),
     BaseScenario("Bear Market", High),
     BaseScenario("Stable Market", Low),
     BaseScenario("High Volatility", High),
     BaseScenario("DeFi Growth", Medium)]
  }

  datatype ScenarioData = ScenarioData(scenario: string, risk: Risk, probability: int, expectedReturn: real)

  /** The probability before the scenario's factor, from one draw. */
  function ProbabilityBase(h: TimeHorizon, r: real): real {
    match h
    case H7D => 15.0 + r * 25.0
    case H30D => 10.0 + r * 30.0
    case H90D => 5.0 + r * 35.0
  }

  function ReturnMultiplier(h: TimeHorizon): real {
    match h
    case H7D => 0.3
    case H30D => 1.0
    case H90D => 2.0
  }

  /** The factor a scenario applies to the probability; an unlisted name keeps it. */
  function ProbabilityFactor(h: TimeHorizon, name: string): (f: real)
    ensures 0.6 <= f <= 1.5
  {
    if name == "Bull Market" then (if h == H90D then 1.2 else 0.8)
    else if name == "Bear Market" then (if h == H7D then 0.6 else 1.1)
    else if name == "Stable Market" then (if h == H7D then 1.5 else 0.8)
    else if name == "High Volatility" then (if h == H90D then 1.3 else 0.9)
    else if name == "DeFi Growth" then (if h == H90D then 1.4 else 0.7)
    else 1.0
  }

  /** The lowest expected return and the spread of the draw, per scenario name. */
  function ReturnRange(name: string): (real, real) {
    if name == "Bull Market" then (8.0, 15.0)
    else if name == "Bear Market" then (-15.0, 10.0)
    else if name == "Stable Market" then (-2.0, 6.0)
    else if name == "High Volatility" then (-10.0, 25.0)
    else if name == "DeFi Growth" then (5.0, 20.0)
    else (-5.0, 15.0)
  }

  /** One scenario from its two draws: `r1` for the probability, `r2` for the return. */
  function Scenario(h: TimeHorizon, b: BaseScenario, r1: real, r2: real): (s: ScenarioData)
    ensures s.scenario == b.scenario && s.risk == b.risk
    ensures s.probability <= 100
    ensures IsDraw(r1) ==> 0 < s.probability
  {
    var probability := ProbabilityBase(h, r1) * ProbabilityFactor(h, b.scenario);
    var (low, spread) := ReturnRange(b.scenario);
    var expectedReturn := (low + r2 * spread) * ReturnMultiplier(h);
    assert IsDraw(r1) ==> probability >= 3.0 by {
      if IsDraw(r1) {
        assert ProbabilityBase(h, r1) >= 5.0;
      }
    }
    var rounded := Round(probability);
    ScenarioData(b.scenario, b.risk, if rounded < 100 then rounded else 100, RoundCents(expectedReturn))
  }

  predicate IsDraw(r: real) {
    0.0 <= r < 1.0
  }

  /** The cap at 100 never binds: the largest possible probability rounds to at most 60. */
  lemma ProbabilityCapNeverBinds(h: TimeHorizon, name: string, r: real)
    requires IsDraw(r)
    ensures Round(ProbabilityBase(h, r) * ProbabilityFactor(h, name)) <= 60
  {
    var f := ProbabilityFactor(h, name);
    assert ProbabilityBase(h, r) <= 40.0;
    assert ProbabilityBase(h, r) * f <= 40.0 * f <= 60.0;
  }

  /** The scenarios in the order `map` produces them, before sorting. */
  function Unsorted(h: TimeHorizon, draws: seq<real>): (s: seq<ScenarioData>)
    requires |draws| == 2 * |BaseScenarios()|
    ensures |s| == |BaseScenarios()|
  {
    var bs := BaseScenarios();
    seq(|bs|, k requires 0 <= k < |bs| => Scenario(h, bs[k], draws[2 * k], draws[2 * k + 1]))
  }

  /** The comparator `b.probability - a.probability`: higher probabilities first. */
  function MoreProbable(a: ScenarioData, b: ScenarioData): bool {
    a.probability >= b.probability
  }

  function Identity(s: ScenarioData): (string, Risk) {
    (s.scenario, s.risk)
  }

  function BaseIdentity(b: BaseScenario): (string, Risk) {
    (b.scenario, b.risk)
  }

  lemma MapConcat<T, U>(a: seq<T>, b: seq<T>, f: T -> U)
    ensures Map(a + b, f) == Map(a, f) + Map(b, f)
  {
  }

  /** Removing position `j` removes one copy of `s[j]`. */
  lemma MultisetRemove<T>(s: seq<T>, j: nat)
    requires j < |s|
    ensures s == s[..j] + [s[j]] + s[j + 1..]
    ensures multiset(s[..j] + s[j + 1..]) == multiset(s) - multiset{s[j]}
  {
    assert s == s[..j] + [s[j]] + s[j + 1..];
  }

  /** The mapped elements are those of the sequence without position `j`, plus the image of `s[j]`. */
  lemma MapAroundOne<T, U>(s: seq<T>, j: nat, f: T -> U)
    requires j < |s|
    ensures multiset(Map(s, f)) == multiset(Map(s[..j] + s[j + 1..], f)) + multiset{f(s[j])}
  {
    var left, right := s[..j], s[j + 1..];
    var ml, mr := Map(left, f), Map(right, f);
    MapConcat(left + [s[j]], right, f);
    MapConcat(left, [s[j]], f);
    MapConcat(left, right, f);
    assert Map([s[j]], f) == [f(s[j])];
    assert Map(left + [s[j]] + right, f) == ml + [f(s[j])] + mr;
    assert s == left + [s[j]] + right;
    assert Map(left + right, f) == ml + mr;
  }

  /** Mapping two sequences with the same elements gives two sequences with the same elements. */
  lemma {:induction false} MapPermutation<T, U>(a: seq<T>, b: seq<T>, f: T -> U)
    requires multiset(a) == multiset(b)
    ensures multiset(Map(a, f)) == multiset(Map(b, f))
    decreases |a|
  {
    if |a| > 0 {
      var i := |a| - 1;
      var x := a[i];
      assert x in multiset(b);
      var j :| 0 <= j < |b| && b[j] == x;
      MultisetRemove(a, i);
      MultisetRemove(b, j);
      MapPermutation(a[..i] + a[i + 1..], b[..j] + b[j + 1..], f);
      MapAroundOne(a, i, f);
      MapAroundOne(b, j, f);
    }
  }

  /** Before sorting, scenario `k` is base scenario `k` with its name and risk. */
  lemma UnsortedIdentities(h: TimeHorizon, draws: seq<real>)
    requires |draws| == 2 * |BaseScenarios()|
    ensures Map(Unsorted(h, draws), Identity) == Map(BaseScenarios(), BaseIdentity)
  {
  }

  /** With draws in [0, 1) every probability lies in (0, 100]. */
  lemma UnsortedProbabilities(h: TimeHorizon, draws: seq<real>)
    requires |draws| == 2 * |BaseScenarios()|
    requires forall k :: 0 <= k < |draws| ==> IsDraw(draws[k])
    ensures forall s :: s in Unsorted(h, draws) ==> 0 < s.probability <= 100
  {
    var u := Unsorted(h, draws);
    forall s | s in u
      ensures 0 < s.probability <= 100
    {
      var k :| 0 <= k < |u| && u[k] == s;
      assert IsDraw(draws[2 * k]);
    }
  }

  /**
   * `generateScenarioData`: the five base scenarios, each once with its risk
   * label, each probability in (0, 100], listed most probable first.
   */
  method GenerateScenarioData(h: TimeHorizon, draws: seq<real>) returns (r: seq<ScenarioData>)
    requires |draws| == 2 * |BaseScenarios()|
    ensures multiset(r) == multiset(Unsorted(h, draws))
    ensures forall i, j :: 0 <= i < j < |r| ==> r[i].probability >= r[j].probability
    ensures multiset(Map(r, Identity)) == multiset(Map(BaseScenarios(), BaseIdentity))
    ensures (forall k :: 0 <= k < |draws| ==> IsDraw(draws[k])) ==>
              forall s :: s in r ==> 0 < s.probability <= 100
  {
    var scenarios := Unsorted(h, draws);
    r := SortBy(scenarios, MoreProbable);
    assert SortedBy(r, MoreProbable);
    MapPermutation(r, scenarios, Identity);
    UnsortedIdentities(h, draws);
    if forall k :: 0 <= k < |draws| ==> IsDraw(draws[k]) {
      UnsortedProbabilities(h, draws);
      forall s | s in r
        ensures 0 < s.probability <= 100
      {
        assert s in multiset(scenarios);
      }
    }
  }
}
