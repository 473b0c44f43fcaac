/**
 * The gas badge beside a market row: the chain's entry, exit and daily gas
 * costs, the APY left after the daily cost, the days until the one-off costs
 * are earned back, and a three-step efficiency label.
 */
module GasCostAnalyzer {
  import opened Common

  datatype GasCosts = GasCosts(entry: real, exit: real, daily: real)

  /** The cost table; a chain outside it gets the default row. */
  function GetGasCosts(chain: string): (c: GasCosts)
    ensures chain == "Ethereum" ==> c == GasCosts(45.0, 35.0, 0.12)
    ensures chain == "Polygon" ==> c == GasCosts(2.0, 1.5, 0.008)
    ensures chain == "Arbitrum" ==> c == GasCosts(8.0, 6.0, 0.02)
    ensures chain !in {"Ethereum", "Polygon", "Arbitrum"} ==> c == GasCosts(20.0, 15.0, 0.05)
    ensures c.entry > 0.0 && c.exit > 0.0 && c.daily > 0.0
  {
    if chain == "Ethereum" then GasCosts(45.0, 35.0, 0.12)
    else if chain == "Polygon" then GasCosts(2.0, 1.5, 0.008)
    else if chain == "Arbitrum" then GasCosts(8.0, 6.0, 0.02)
    else GasCosts(20.0, 15.0, 0.05)
  }

  /** The yearly drag in APY points: `daily * 365 / 100`. */
  function AnnualDrag(chain: string): (d: real)
    ensures d > 0.0
  {
    GetGasCosts(chain).daily * 365.0 / 100.0
  }

  /** The APY after the daily cost; always strictly below the APY. */
  function NetApy(chain: string, apy: real): (net: real)
    ensures net < apy
    ensures apy - net == AnnualDrag(chain)
  {
    apy - GetGasCosts(chain).daily * 365.0 / 100.0
  }

  /**
   * `Math.ceil((entry + exit) / (apy / 365 * 100))`. An APY of zero divides
   * by zero and has no break-even day; that is `None`.
   */
  function BreakEvenDays(chain: string, apy: real): (r: Option<int>)
    ensures r.None? <==> apy == 0.0
    ensures r.Some? && apy > 0.0 ==>
              var perDay := apy / 365.0 * 100.0;
              var oneOff := GetGasCosts(chain).entry + GetGasCosts(chain).exit;
              r.value >= 1 && (r.value - 1) as real * perDay < oneOff <= r.value as real * perDay
  {
    if apy == 0.0 then None
    else
      var perDay := apy / 365.0 * 100.0;
      var oneOff := GetGasCosts(chain).entry + GetGasCosts(chain).exit;
      var days := Ceil(oneOff / perDay);
      if apy > 0.0 then
        CeilOfQuotient(oneOff, perDay);
        Some(days)
      else Some(days)
  }

  /** `Math.ceil(a / b)` is the fewest whole multiples of `b` that reach `a`. */
  lemma CeilOfQuotient(a: real, b: real)
    requires b > 0.0
    ensures (Ceil(a / b) - 1) as real * b < a <= Ceil(a / b) as real * b
  {
    var q, n := a / b, Ceil(a / b);
    assert q * b == a;
    assert (n - 1) as real < q <= n as real;
    assert (n - 1) as real * b < q * b;
    assert q * b <= n as real * b;
  }

  /** A higher APY never needs more days to break even. */
  lemma BreakEvenAntitone(chain: string, apy1: real, apy2: real)
    requires 0.0 < apy1 <= apy2
    ensures BreakEvenDays(chain, apy2).value <= BreakEvenDays(chain, apy1).value
  {
    var oneOff := GetGasCosts(chain).entry + GetGasCosts(chain).exit;
    var p1, p2 := apy1 / 365.0 * 100.0, apy2 / 365.0 * 100.0;
    assert p1 <= p2;
    assert oneOff / p2 <= oneOff / p1 by {
      assert oneOff / p2 * p2 == oneOff == oneOff / p1 * p1;
      assert oneOff / p2 * p1 <= oneOff / p2 * p2;
    }
  }

  datatype Efficiency = Poor | Good | Excellent

  function Rank(e: Efficiency): int {
    match e
    case Poor => 0
    case Good => 1
    case Excellent => 2
  }

  /** Excellent above 90 percent of the APY kept, Good above 80 percent, Poor otherwise. */
  function GetGasEfficiency(chain: string, apy: real): (e: Efficiency)
    ensures e == Excellent <==> NetApy(chain, apy) > apy * 0.9
    ensures e == Good <==> apy * 0.8 < NetApy(chain, apy) <= apy * 0.9
    ensures e == Poor <==> NetApy(chain, apy) <= apy * 0.8
  {
    var net := NetApy(chain, apy);
    if net > apy * 0.9 then Excellent else if net > apy * 0.8 then Good else Poor
  }

  /** The labels as APY thresholds: ten and five times the yearly drag. */
  lemma EfficiencyThresholds(chain: string, apy: real)
    ensures GetGasEfficiency(chain, apy) == Excellent <==> apy > 10.0 * AnnualDrag(chain)
    ensures GetGasEfficiency(chain, apy) == Good <==> 5.0 * AnnualDrag(chain) < apy <= 10.0 * AnnualDrag(chain)
    ensures GetGasEfficiency(chain, apy) == Poor <==> apy <= 5.0 * AnnualDrag(chain)
  {
  }

  /** For a fixed chain a higher APY never gets a worse label. */
  lemma EfficiencyMonotone(chain: string, apy1: real, apy2: real)
    requires apy1 <= apy2
    ensures Rank(GetGasEfficiency(chain, apy1)) <= Rank(GetGasEfficiency(chain, apy2))
  {
    EfficiencyThresholds(chain, apy1);
    EfficiencyThresholds(chain, apy2);
  }

  /** On Ethereum the drag is 0.438 points, so an APY above 4.38 is Excellent. */
  lemma EthereumExcellentAbove(apy: real)
    ensures GetGasEfficiency("Ethereum", apy) == Excellent <==> apy > 4.38
  {
    EfficiencyThresholds("Ethereum", apy);
  }
}
