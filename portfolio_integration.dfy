/**
 * The portfolio service: the user's (mock) positions, the rule that suggests
 * migrating a position to a better pool on the same chain, and the portfolio
 * totals.
 */
module PortfolioIntegration {
  import opened Common
  import opened YieldTypes
  import opened MockYieldData

  const DayMs: int := 24 * 60 * 60 * 1000

  /**
   * The positions shown for a connected wallet. The address is not consulted;
   * `now` is the clock reading the entry dates are computed from.
   */
  function UserPositions(userAddress: string, now: int): (r: seq<UserPosition>)
    ensures |r| == 3
    ensures forall p :: p in r ==>
              p.currentValue == p.invested + p.yieldEarned && p.amount == p.currentValue && p.entryDate < now
  {
    [ UserPosition("Aave USDC", "Ethereum", 8500.0, 7.2, 8000.0, 8500.0, 500.0, now - 45 * DayMs, Low),
      UserPosition("Compound USDT", "Polygon", 4200.0, 6.8, 4000.0, 4200.0, 200.0, now - 30 * DayMs, Low),
      UserPosition("Yearn DAI", "Arbitrum", 2720.5, 9.1, 2500.0, 2720.5, 220.5, now - 25 * DayMs, Medium) ]
  }

  /** The positions do not depend on the wallet address. */
  lemma {:induction false} UserPositionsIgnoreAddress(a: string, b: string, now: int)
    ensures UserPositions(a, now) == UserPositions(b, now)
  {
    assert UserPositions(a, now)[0] == UserPositions(b, now)[0];
  }

  // ---------------------------------------------------------------------------
  // Optimisation recommendations
  // ---------------------------------------------------------------------------

  datatype RecommendationType = Rebalance | Migrate | Compound

  datatype RiskChange = Increase | Decrease | Same

  datatype Confidence = HighConfidence | MediumConfidence | LowConfidence

  datatype Recommendation = Recommendation(
    kind: RecommendationType,
    fromProtocol: Option<string>,
    toProtocol: string,
    amount: real,
    currentApy: real,
    newApy: real,
    potentialGain: real,
    riskChange: RiskChange,
    gasCost: real,
    confidence: Confidence)

  /** The flat mock gas cost of moving funds on a chain. */
  function GasCost(chain: string): (c: real)
    ensures c == 50.0 || c == 5.0
    ensures c == 50.0 <==> chain == "Ethereum"
  {
    if chain == "Ethereum" then 50.0 else 5.0
  }

  /** An opportunity at least one point better, on the same chain and at the same risk. */
  predicate IsBetter(p: UserPosition, o: YieldRow) {
    o.apy > p.currentApy + 1.0 && o.chain == p.chain && o.riskLevel == p.riskLevel
  }

  function BetterThan(p: UserPosition): YieldRow -> bool {
    o => IsBetter(p, o)
  }

  /** The yearly gain of moving the whole position. */
  function Gain(p: UserPosition, o: YieldRow): real {
    p.amount * (o.apy - p.currentApy) / 100.0
  }

  /** Moving is suggested only when the gain is more than twice the gas cost. */
  predicate Worthwhile(p: UserPosition, o: YieldRow) {
    Gain(p, o) > GasCost(p.chain) * 2.0
  }

  function MakeRecommendation(p: UserPosition, o: YieldRow): Recommendation {
    var apyDiff := o.apy - p.currentApy;
    var gasCost := GasCost(p.chain);
    Recommendation(Migrate, Some(p.protocol), o.protocol, p.amount, p.currentApy, o.apy,
                   Gain(p, o) - gasCost, Same, gasCost,
                   if apyDiff > 2.0 then HighConfidence else MediumConfidence)
  }

  /** The recommendations pushed for one position while walking its better opportunities. */
  function PushWorthwhile(p: UserPosition, better: seq<YieldRow>): seq<Recommendation> {
    if |better| == 0 then []
    else
      var o := better[|better| - 1];
      PushWorthwhile(p, better[..|better| - 1]) + if Worthwhile(p, o) then [MakeRecommendation(p, o)] else []
  }

  /** Every recommendation produced, positions in order and, within one, opportunities in order. */
  function AllRecommendations(positions: seq<UserPosition>, opportunities: seq<YieldRow>): seq<Recommendation> {
    if |positions| == 0 then []
    else
      var p := positions[|positions| - 1];
      AllRecommendations(positions[..|positions| - 1], opportunities) +
      PushWorthwhile(p, Filter(opportunities, BetterThan(p)))
  }

  /** The nested `forEach` loops that collect recommendations, cut to the first three. */
  method CalculateOptimizationRecommendations(positions: seq<UserPosition>, opportunities: seq<YieldRow>)
    returns (r: seq<Recommendation>)
    ensures r == Take(AllRecommendations(positions, opportunities), 3)
  {
    var recommendations := [];
    for i := 0 to |positions|
      invariant recommendations == AllRecommendations(positions[..i], opportunities)
    {
      var position := positions[i];
      var better := Filter(opportunities, BetterThan(position));
      ghost var before := recommendations;
      for j := 0 to |better|
        invariant recommendations == before + PushWorthwhile(position, better[..j])
      {
        var opportunity := better[j];
        assert better[..j + 1][..j] == better[..j];
        if Gain(position, opportunity) > GasCost(position.chain) * 2.0 {
          recommendations := recommendations + [MakeRecommendation(position, opportunity)];
        }
      }
      assert better[..|better|] == better;
      assert positions[..i + 1][..i] == positions[..i];
    }
    assert positions[..|positions|] == positions;
    r := Take(recommendations, 3);
  }

  /**
   * On the shipped positions and market table no pool is both better and on
   * the same chain at the same risk, so nothing is recommended.
   */
  lemma MockPositionsGetNoRecommendations(userAddress: string, now: int)
    ensures AllRecommendations(UserPositions(userAddress, now), YieldTable()) == []
  {
    var ps := UserPositions(userAddress, now);
    var table := YieldTable();
    forall i | 0 <= i < 3 ensures Filter(table, BetterThan(ps[i])) == [] {
      assert forall o :: o in table ==> !BetterThan(ps[i])(o);
      FilterNone(table, BetterThan(ps[i]));
    }
    assert ps[..1][..0] == [] && ps[..1][0] == ps[0];
    assert AllRecommendations(ps[..1], table) == [];
    assert ps[..2][..1] == ps[..1] && ps[..2][1] == ps[1];
    assert AllRecommendations(ps[..2], table) == [];
    assert ps[..3] == ps && ps[..2] == ps[..3][..2];
  }

  /** What every emitted recommendation satisfies, read off a single record. */
  predicate WellFormed(r: Recommendation) {
    r.kind == Migrate && r.riskChange == Same && r.fromProtocol.Some? &&
    r.newApy > r.currentApy + 1.0 &&
    (r.gasCost == 50.0 || r.gasCost == 5.0) &&
    r.potentialGain > r.gasCost &&
    (r.confidence == HighConfidence <==> r.newApy - r.currentApy > 2.0) &&
    (r.confidence == HighConfidence || r.confidence == MediumConfidence)
  }

  lemma {:induction false} PushWorthwhileSound(p: UserPosition, better: seq<YieldRow>)
    ensures forall r :: r in PushWorthwhile(p, better) ==>
              exists o :: o in better && Worthwhile(p, o) && r == MakeRecommendation(p, o)
  {
    if |better| > 0 {
      var pre, o := better[..|better| - 1], better[|better| - 1];
      PushWorthwhileSound(p, pre);
      assert forall x :: x in pre ==> x in better;
    }
  }

  /** Every worthwhile opportunity among the better ones is pushed. */
  lemma {:induction false} PushWorthwhileComplete(p: UserPosition, better: seq<YieldRow>, o: YieldRow)
    requires o in better && Worthwhile(p, o)
    ensures MakeRecommendation(p, o) in PushWorthwhile(p, better)
  {
    var pre, last := better[..|better| - 1], better[|better| - 1];
    assert better == pre + [last];
    if o != last {
      PushWorthwhileComplete(p, pre, o);
    }
  }

  /**
   * Conversely, every pairing of a position with a better opportunity on its
   * chain and risk level whose gain exceeds twice the gas cost is recommended
   * before the cut to three.
   */
  lemma {:induction false} RecommendationsComplete(positions: seq<UserPosition>, opportunities: seq<YieldRow>,
                                                   p: UserPosition, o: YieldRow)
    requires p in positions && o in opportunities && IsBetter(p, o) && Worthwhile(p, o)
    ensures MakeRecommendation(p, o) in AllRecommendations(positions, opportunities)
  {
    var pre, last := positions[..|positions| - 1], positions[|positions| - 1];
    assert positions == pre + [last];
    if p == last {
      FilterMembers(opportunities, BetterThan(p), o);
      PushWorthwhileComplete(p, Filter(opportunities, BetterThan(p)), o);
    } else {
      RecommendationsComplete(pre, opportunities, p, o);
    }
  }

  /**
   * Each recommendation moves some position to some opportunity on the same
   * chain at the same risk, more than one point better, whose gain exceeds
   * twice the gas cost; it reports the position's amount and the gain net of gas.
   */
  lemma {:induction false} RecommendationsSound(positions: seq<UserPosition>, opportunities: seq<YieldRow>)
    ensures forall r :: r in AllRecommendations(positions, opportunities) ==>
              exists p, o :: p in positions && o in opportunities &&
                o.chain == p.chain && o.riskLevel == p.riskLevel && o.apy > p.currentApy + 1.0 &&
                Gain(p, o) > 2.0 * GasCost(p.chain) &&
                r == MakeRecommendation(p, o)
  {
    if |positions| > 0 {
      var pre, p := positions[..|positions| - 1], positions[|positions| - 1];
      RecommendationsSound(pre, opportunities);
      var better := Filter(opportunities, BetterThan(p));
      PushWorthwhileSound(p, better);
      forall r | r in AllRecommendations(positions, opportunities)
        ensures exists p, o :: p in positions && o in opportunities &&
                  o.chain == p.chain && o.riskLevel == p.riskLevel && o.apy > p.currentApy + 1.0 &&
                  Gain(p, o) > 2.0 * GasCost(p.chain) &&
                  r == MakeRecommendation(p, o)
      {
        if r in AllRecommendations(pre, opportunities) {
          var q, o :| q in pre && o in opportunities &&
            o.chain == q.chain && o.riskLevel == q.riskLevel && o.apy > q.currentApy + 1.0 &&
            Gain(q, o) > 2.0 * GasCost(q.chain) && r == MakeRecommendation(q, o);
          assert q in positions;
        } else {
          var o :| o in better && Worthwhile(p, o) && r == MakeRecommendation(p, o);
          FilterMembers(opportunities, BetterThan(p), o);
          assert p in positions;
        }
      }
    }
  }

  /** A recommendation built from a qualifying pair has the promised shape. */
  lemma MakeRecommendationWellFormed(p: UserPosition, o: YieldRow)
    requires IsBetter(p, o) && Worthwhile(p, o)
    ensures WellFormed(MakeRecommendation(p, o))
    ensures MakeRecommendation(p, o).amount == p.amount
    ensures MakeRecommendation(p, o).fromProtocol == Some(p.protocol)
    ensures MakeRecommendation(p, o).toProtocol == o.protocol
  {
  }

  /** The result of the service is at most three well-formed recommendations. */
  lemma RecommendationsWellFormed(positions: seq<UserPosition>, opportunities: seq<YieldRow>)
    ensures |Take(AllRecommendations(positions, opportunities), 3)| <= 3
    ensures forall r :: r in Take(AllRecommendations(positions, opportunities), 3) ==> WellFormed(r)
  {
    RecommendationsSound(positions, opportunities);
    var all := AllRecommendations(positions, opportunities);
    forall r | r in Take(all, 3) ensures WellFormed(r) {
      assert r in all;
      var p, o :| p in positions && o in opportunities &&
        o.chain == p.chain && o.riskLevel == p.riskLevel && o.apy > p.currentApy + 1.0 &&
        Gain(p, o) > 2.0 * GasCost(p.chain) && r == MakeRecommendation(p, o);
      MakeRecommendationWellFormed(p, o);
    }
  }

  // ---------------------------------------------------------------------------
  // Portfolio totals
  // ---------------------------------------------------------------------------

  /**
   * `weightedApy` and `returnPercentage` are `None` where the source divides by
   * a zero total (a `NaN` or infinite number in JavaScript).
   */
  datatype PortfolioMetrics = PortfolioMetrics(
    totalInvested: real,
    totalValue: real,
    totalYield: real,
    weightedApy: Option<real>,
    totalReturn: real,
    returnPercentage: Option<real>)

  function Invested(p: UserPosition): real { p.invested }
  function Value(p: UserPosition): real { p.currentValue }
  function YieldEarned(p: UserPosition): real { p.yieldEarned }
  function ApyTimesValue(p: UserPosition): real { p.currentApy * p.currentValue }

  function WeightedTerm(totalValue: real): UserPosition -> real
    requires totalValue != 0.0
  {
    (p: UserPosition) => p.currentApy * p.currentValue / totalValue
  }

  /**
   * The three totals, the return as value less investment, and the two ratios,
   * each undefined exactly where the source divides zero by zero or by zero.
   */
  function CalculatePortfolioMetrics(positions: seq<UserPosition>): (r: PortfolioMetrics)
    ensures r.totalInvested == SumBy(positions, Invested)
    ensures r.totalValue == SumBy(positions, Value)
    ensures r.totalYield == SumBy(positions, YieldEarned)
    ensures r.totalReturn == r.totalValue - r.totalInvested
    ensures r.weightedApy.None? <==> |positions| > 0 && r.totalValue == 0.0
    ensures |positions| == 0 ==> r.weightedApy == Some(0.0)
    ensures r.returnPercentage.None? <==> r.totalInvested == 0.0
    ensures r.returnPercentage.Some? ==> r.returnPercentage.value * r.totalInvested == r.totalReturn * 100.0
  {
    var totalInvested := SumBy(positions, Invested);
    var totalValue := SumBy(positions, Value);
    var totalYield := SumBy(positions, YieldEarned);
    var weightedApy :=
      if |positions| == 0 then Some(0.0)
      else if totalValue == 0.0 then None
      else Some(SumBy(positions, WeightedTerm(totalValue)));
    PortfolioMetrics(
      totalInvested, totalValue, totalYield, weightedApy,
      totalValue - totalInvested,
      if totalInvested == 0.0 then None else Some((totalValue - totalInvested) / totalInvested * 100.0))
  }

  lemma {:induction false} SumOfScaledTerms(positions: seq<UserPosition>, totalValue: real)
    requires totalValue != 0.0
    ensures SumBy(positions, WeightedTerm(totalValue)) == SumBy(positions, ApyTimesValue) / totalValue
  {
    if |positions| > 0 {
      SumOfScaledTerms(positions[..|positions| - 1], totalValue);
    }
  }

  /** The summed shares are the value-weighted average APY: Σ apy·value / Σ value. */
  lemma WeightedApyIsWeightedAverage(positions: seq<UserPosition>)
    requires SumBy(positions, Value) != 0.0
    ensures CalculatePortfolioMetrics(positions).weightedApy
            == Some(SumBy(positions, ApyTimesValue) / SumBy(positions, Value))
  {
    SumOfScaledTerms(positions, SumBy(positions, Value));
  }

  lemma {:induction false} WeightedSumBounds(positions: seq<UserPosition>, lo: real, hi: real)
    requires forall i :: 0 <= i < |positions| ==>
               positions[i].currentValue >= 0.0 && lo <= positions[i].currentApy <= hi
    ensures lo * SumBy(positions, Value) <= SumBy(positions, ApyTimesValue) <= hi * SumBy(positions, Value)
  {
    if |positions| > 0 {
      var n := |positions| - 1;
      var pre, p := positions[..n], positions[n];
      WeightedSumBounds(pre, lo, hi);
      var v, w := SumBy(pre, Value), SumBy(pre, ApyTimesValue);
      assert SumBy(positions, Value) == v + p.currentValue;
      assert SumBy(positions, ApyTimesValue) == w + p.currentApy * p.currentValue;
      LowerStep(lo, v, w, p.currentValue, p.currentApy);
      UpperStep(hi, v, w, p.currentValue, p.currentApy);
    }
  }

  lemma LowerStep(lo: real, v: real, w: real, x: real, a: real)
    requires lo * v <= w && x >= 0.0 && lo <= a
    ensures lo * (v + x) <= w + a * x
  {
    assert (a - lo) * x >= 0.0;
  }

  lemma UpperStep(hi: real, v: real, w: real, x: real, a: real)
    requires w <= hi * v && x >= 0.0 && a <= hi
    ensures w + a * x <= hi * (v + x)
  {
    assert (hi - a) * x >= 0.0;
  }

  /** With non-negative values, the weighted APY lies between the lowest and highest APY held. */
  lemma WeightedApyBounds(positions: seq<UserPosition>, lo: real, hi: real)
    requires forall p :: p in positions ==> p.currentValue >= 0.0 && lo <= p.currentApy <= hi
    requires SumBy(positions, Value) > 0.0
    ensures CalculatePortfolioMetrics(positions).weightedApy.Some?
    ensures lo <= CalculatePortfolioMetrics(positions).weightedApy.value <= hi
  {
    var total := SumBy(positions, Value);
    WeightedApyIsWeightedAverage(positions);
    assert forall i :: 0 <= i < |positions| ==> positions[i] in positions;
    WeightedSumBounds(positions, lo, hi);
    var s := SumBy(positions, ApyTimesValue);
    QuotientBounds(s, total, lo, hi);
  }

  lemma QuotientBounds(s: real, total: real, lo: real, hi: real)
    requires total > 0.0 && lo * total <= s <= hi * total
    ensures lo <= s / total <= hi
  {
    var q := s / total;
    assert q * total == s;
    assert (q - lo) * total >= 0.0;
    assert (hi - q) * total >= 0.0;
  }

  /** When every value is cost plus earned yield, the total return is the total yield. */
  lemma {:induction false} TotalReturnIsTotalYield(positions: seq<UserPosition>)
    requires forall p :: p in positions ==> p.currentValue == p.invested + p.yieldEarned
    ensures CalculatePortfolioMetrics(positions).totalReturn == CalculatePortfolioMetrics(positions).totalYield
  {
    if |positions| > 0 {
      var pre := positions[..|positions| - 1];
      assert forall q :: q in pre ==> q in positions;
      TotalReturnIsTotalYield(pre);
    }
  }

  /** The totals of the mock positions. */
  lemma MockPortfolioMetrics(userAddress: string, now: int)
    ensures var m := CalculatePortfolioMetrics(UserPositions(userAddress, now));
            m.totalInvested == 14500.0 && m.totalValue == 15420.5 && m.totalYield == 920.5 &&
            m.totalReturn == 920.5 && m.returnPercentage == Some(920.5 / 14500.0 * 100.0)
  {
    var ps := UserPositions(userAddress, now);
    SumByThree(ps[0], ps[1], ps[2], Invested);
    SumByThree(ps[0], ps[1], ps[2], Value);
    SumByThree(ps[0], ps[1], ps[2], YieldEarned);
  }
}
