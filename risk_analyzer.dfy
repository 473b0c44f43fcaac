/**
 * The protocol risk badge: a score of one to five shields built from TVL,
 * APY and volatility thresholds, and the list of risk factors shown beside it.
 */
module RiskAnalyzer {
  import opened Common
  import opened YieldTypes
  import opened MockYieldData

  /** Volatility when the caller gives none. */
  const DefaultVolatility: real := 0.5

  function VolatilityOrDefault(volatility: Option<real>): real {
    volatility.GetOr(DefaultVolatility)
  }

  /** Deeper liquidity lowers the risk. */
  function TvlTerm(tvl: real): int {
    if tvl > 1000000000.0 then 3 else if tvl > 100000000.0 then 2 else 1
  }

  /** An extreme APY raises the risk. */
  function ApyTerm(apy: real): int {
    if apy > 20.0 then -1 else if apy > 10.0 then 0 else 1
  }

  function VolatilityTerm(volatility: real): int {
    if volatility < 0.3 then 2 else if volatility < 0.6 then 1 else -1
  }

  /** The score before clamping. */
  function RawScore(tvl: real, apy: real, volatility: real): (s: int)
    ensures -1 <= s <= 6
  {
    TvlTerm(tvl) + ApyTerm(apy) + VolatilityTerm(volatility)
  }

  /** `Math.max(1, Math.min(5, x))`. */
  function Clamp(x: int): (r: int)
    ensures 1 <= r <= 5
    ensures 1 <= x <= 5 ==> r == x
    ensures x < 1 ==> r == 1
    ensures x > 5 ==> r == 5
  {
    if x < 1 then 1 else if x > 5 then 5 else x
  }

  function RiskScore(tvl: real, apy: real, volatility: real): (s: int)
    ensures 1 <= s <= 5
  {
    Clamp(RawScore(tvl, apy, volatility))
  }

  /** The score kept in a local variable and adjusted term by term. */
  method CalculateRiskScore(tvl: real, apy: real, volatility: Option<real>) returns (score: int)
    ensures score == RiskScore(tvl, apy, VolatilityOrDefault(volatility))
    ensures 1 <= score <= 5
  {
    var v := VolatilityOrDefault(volatility);
    score := 0;
    if tvl > 1000000000.0 {
      score := score + 3;
    } else if tvl > 100000000.0 {
      score := score + 2;
    } else {
      score := score + 1;
    }
    if apy > 20.0 {
      score := score - 1;
    } else if apy > 10.0 {
      score := score + 0;
    } else {
      score := score + 1;
    }
    if v < 0.3 {
      score := score + 2;
    } else if v < 0.6 {
      score := score + 1;
    } else {
      score := score - 1;
    }
    score := if 5 < score then 5 else score;
    score := if 1 > score then 1 else score;
  }

  lemma ClampMonotone(x: int, y: int)
    requires x <= y
    ensures Clamp(x) <= Clamp(y)
  {
  }

  /** More TVL never lowers the score. */
  lemma ScoreMonotoneInTvl(tvl1: real, tvl2: real, apy: real, volatility: real)
    requires tvl1 <= tvl2
    ensures RiskScore(tvl1, apy, volatility) <= RiskScore(tvl2, apy, volatility)
  {
    ClampMonotone(RawScore(tvl1, apy, volatility), RawScore(tvl2, apy, volatility));
  }

  /** A higher APY never raises the score. */
  lemma ScoreAntitoneInApy(tvl: real, apy1: real, apy2: real, volatility: real)
    requires apy1 <= apy2
    ensures RiskScore(tvl, apy2, volatility) <= RiskScore(tvl, apy1, volatility)
  {
    ClampMonotone(RawScore(tvl, apy2, volatility), RawScore(tvl, apy1, volatility));
  }

  /** A higher volatility never raises the score. */
  lemma ScoreAntitoneInVolatility(tvl: real, apy: real, v1: real, v2: real)
    requires v1 <= v2
    ensures RiskScore(tvl, apy, v2) <= RiskScore(tvl, apy, v1)
  {
    ClampMonotone(RawScore(tvl, apy, v2), RawScore(tvl, apy, v1));
  }

  /** Lido stETH scores the full five shields. */
  lemma LidoScoresFive()
    ensures RawScore(LidoSteth.tvlNumeric, LidoSteth.apy, LidoSteth.volatility) == 6
    ensures RiskScore(LidoSteth.tvlNumeric, LidoSteth.apy, LidoSteth.volatility) == 5
  {
  }

  /** Beefy Finance has a raw score of 0 and is lifted to one shield. */
  lemma BeefyClampedToOne()
    ensures RawScore(BeefyFinance.tvlNumeric, BeefyFinance.apy, BeefyFinance.volatility) == 0
    ensures RiskScore(BeefyFinance.tvlNumeric, BeefyFinance.apy, BeefyFinance.volatility) == 1
  {
  }

  /** A risk factor shown beside the score. */
  datatype RiskFactor = HighTvl | LowTvl | VeryHighApy | HighVolatility | Experimental | Audited | Unaudited

  function FactorLabel(f: RiskFactor): string {
    match f
    case HighTvl => "High TVL ($1B+)"
    case LowTvl => "Low TVL (<$50M)"
    case VeryHighApy => "Very high APY"
    case HighVolatility => "High volatility"
    case Experimental => "Experimental protocol"
    case Audited => "Audited"
    case Unaudited => "Unaudited"
  }

  predicate IsAuditLabel(f: RiskFactor) {
    f == Audited || f == Unaudited
  }

  /** The TVL factor: high above one billion, low under fifty million, none between. */
  function TvlFactors(tvl: real): seq<RiskFactor> {
    if tvl > 1000000000.0 then [HighTvl] else if tvl < 50000000.0 then [LowTvl] else []
  }

  /** Whether the protocol's name mentions "experimental", in any case. */
  predicate IsExperimental(protocol: string) {
    Contains(ToLower(protocol), "experimental")
  }

  function FactorIf(b: bool, f: RiskFactor): seq<RiskFactor> {
    if b then [f] else []
  }

  /** The audit label, decided by a random number in [0, 1). */
  function AuditLabel(auditDraw: real): RiskFactor {
    if auditDraw > 0.3 then Audited else Unaudited
  }

  /** The factors pushed before the audit label, each decided by its own threshold. */
  function RiskFlags(protocol: string, tvl: real, apy: real, volatility: Option<real>): (flags: seq<RiskFactor>)
    ensures HighTvl in flags <==> tvl > 1000000000.0
    ensures LowTvl in flags <==> tvl < 50000000.0
    ensures VeryHighApy in flags <==> apy > 15.0
    ensures HighVolatility in flags <==> VolatilityOrDefault(volatility) > 0.7
    ensures Experimental in flags <==> IsExperimental(protocol)
    ensures forall f :: f in flags ==> !IsAuditLabel(f)
  {
    TvlFactors(tvl) + FactorIf(apy > 15.0, VeryHighApy)
    + FactorIf(VolatilityOrDefault(volatility) > 0.7, HighVolatility)
    + FactorIf(IsExperimental(protocol), Experimental)
  }

  /** The factors in the order they are pushed: the flags, then exactly one audit label. */
  function RiskFactors(protocol: string, tvl: real, apy: real, volatility: Option<real>, auditDraw: real)
    : (factors: seq<RiskFactor>)
    ensures |factors| >= 1 && factors[|factors| - 1] == AuditLabel(auditDraw)
    ensures forall i :: 0 <= i < |factors| - 1 ==> !IsAuditLabel(factors[i])
    ensures forall f :: !IsAuditLabel(f) ==> (f in factors <==> f in RiskFlags(protocol, tvl, apy, volatility))
  {
    var flags := RiskFlags(protocol, tvl, apy, volatility);
    assert forall i :: 0 <= i < |flags| ==> flags[i] in flags;
    flags + [AuditLabel(auditDraw)]
  }

  /**
   * The risk factors, pushed one by one. `auditDraw` is the random number in
   * [0, 1) that decides the audit label.
   */
  method GetRiskDetails(protocol: string, tvl: real, apy: real, volatility: Option<real>, auditDraw: real)
    returns (factors: seq<RiskFactor>)
    ensures factors == RiskFactors(protocol, tvl, apy, volatility, auditDraw)
  {
    var v := VolatilityOrDefault(volatility);
    var experimental := Contains(ToLower(protocol), "experimental");
    factors := [];
    if tvl > 1000000000.0 {
      factors := factors + [HighTvl];
    } else if tvl < 50000000.0 {
      factors := factors + [LowTvl];
    }
    assert factors == TvlFactors(tvl);
    if apy > 15.0 {
      factors := factors + [VeryHighApy];
    }
    assert factors == TvlFactors(tvl) + FactorIf(apy > 15.0, VeryHighApy);
    if v > 0.7 {
      factors := factors + [HighVolatility];
    }
    assert factors == TvlFactors(tvl) + FactorIf(apy > 15.0, VeryHighApy) + FactorIf(v > 0.7, HighVolatility);
    if experimental {
      factors := factors + [Experimental];
    }
    assert factors == RiskFlags(protocol, tvl, apy, volatility);
    var auditStatus := if auditDraw > 0.3 then Audited else Unaudited;
    factors := factors + [auditStatus];
  }
}
