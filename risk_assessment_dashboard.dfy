/**
 * The portfolio risk panel: value per risk label, the share of each of the
 * three labels, a weighted risk score, its verbal level and the advice lines.
 */
module RiskAssessmentDashboard {
  import opened Common
  import opened Grouping

  /** The two fields the panel reads from a position; a missing label is `None`. */
  datatype HeldPosition = HeldPosition(protocol: string, currentValue: real, riskLevel: Option<string>)

  /** `pos.riskLevel || 'Medium'`: a missing or empty label counts as Medium. */
  function RiskLabel(p: HeldPosition): (tag: string)
    ensures tag != ""
  {
    if p.riskLevel.None? || p.riskLevel.value == "" then "Medium" else p.riskLevel.value
  }

  function CurrentValue(p: HeldPosition): real {
    p.currentValue
  }

  function TotalValue(ps: seq<HeldPosition>): real {
    SumBy(ps, CurrentValue)
  }

  /** The value held under one label. */
  function LabelSum(ps: seq<HeldPosition>, tag: string): real {
    SumBy(Filter(ps, KeyIs(RiskLabel, tag)), CurrentValue)
  }

  /** The distribution as the panel's `reduce` builds it, one position at a time. */
  method RiskDistribution(ps: seq<HeldPosition>) returns (dist: seq<(string, real)>)
    ensures dist == Totals(ps, RiskLabel, CurrentValue)
    ensures SumBy(dist, Snd) == TotalValue(ps)
    ensures forall tag :: Lookup(dist, tag).GetOr(0.0) == LabelSum(ps, tag)
  {
    dist := Accumulate(ps, RiskLabel, CurrentValue);
    TotalsSum(ps, RiskLabel, CurrentValue);
    forall tag ensures Lookup(dist, tag).GetOr(0.0) == LabelSum(ps, tag) {
      TotalOf(ps, RiskLabel, CurrentValue, tag);
    }
  }

  predicate IsKnownLabel(tag: string) {
    tag == "Low" || tag == "Medium" || tag == "High"
  }

  /** Appending a position adds its value to its own label's sum only. */
  lemma LabelSumAppend(pre: seq<HeldPosition>, x: HeldPosition, tag: string)
    ensures LabelSum(pre + [x], tag) == LabelSum(pre, tag) + (if RiskLabel(x) == tag then x.currentValue else 0.0)
  {
    var keep := KeyIs(RiskLabel, tag);
    FilterAppend(pre, x, keep);
    assert keep(x) == (RiskLabel(x) == tag);
    if keep(x) {
      assert Filter(pre + [x], keep) == Filter(pre, keep) + [x];
      SumByAppend(Filter(pre, keep), x, CurrentValue);
    } else {
      assert Filter(pre + [x], keep) == Filter(pre, keep);
    }
  }

  /** When every label is one of the three, their sums make up the total. */
  lemma {:induction false} KnownLabelsCoverTotal(ps: seq<HeldPosition>)
    requires forall p :: p in ps ==> IsKnownLabel(RiskLabel(p))
    ensures LabelSum(ps, "Low") + LabelSum(ps, "Medium") + LabelSum(ps, "High") == TotalValue(ps)
  {
    if |ps| > 0 {
      var pre, x := ps[..|ps| - 1], ps[|ps| - 1];
      assert ps == pre + [x];
      KnownLabelsCoverTotal(pre);
      LabelSumAppend(pre, x, "Low");
      LabelSumAppend(pre, x, "Medium");
      LabelSumAppend(pre, x, "High");
      SumByAppend(pre, x, CurrentValue);
      assert IsKnownLabel(RiskLabel(x));
    }
  }

  /** A label's sum is not negative when no position value is. */
  lemma LabelSumNonNegative(ps: seq<HeldPosition>, tag: string)
    requires forall p :: p in ps ==> p.currentValue >= 0.0
    ensures LabelSum(ps, tag) >= 0.0
  {
    var kept := Filter(ps, KeyIs(RiskLabel, tag));
    forall p | p in kept ensures CurrentValue(p) >= 0.0 {
      FilterMembers(ps, KeyIs(RiskLabel, tag), p);
    }
    SumByNonNegative(kept, CurrentValue);
  }

  datatype RiskSummary = RiskSummary(lowPercent: real, mediumPercent: real, highPercent: real, score: real)

  /**
   * The three shares in percent and the score weighting them 0.2, 0.5 and
   * 0.8. A total of zero divides by zero; that case is `None`.
   */
  function Summarize(ps: seq<HeldPosition>): (r: Option<RiskSummary>)
    ensures r.None? <==> TotalValue(ps) == 0.0
  {
    var total := TotalValue(ps);
    if total == 0.0 then None
    else
      var dist := Totals(ps, RiskLabel, CurrentValue);
      var low := Lookup(dist, "Low").GetOr(0.0) / total * 100.0;
      var medium := Lookup(dist, "Medium").GetOr(0.0) / total * 100.0;
      var high := Lookup(dist, "High").GetOr(0.0) / total * 100.0;
      Some(RiskSummary(low, medium, high, (low * 0.2 + medium * 0.5 + high * 0.8) / 100.0))
  }

  lemma SharesSumToHundred(a: real, b: real, c: real, t: real)
    requires t != 0.0 && a + b + c == t
    ensures a / t * 100.0 + b / t * 100.0 + c / t * 100.0 == 100.0
  {
    assert a / t + b / t + c / t == (a + b + c) / t;
  }

  /** The score formula over the three sums instead of their percentages. */
  lemma ScoreOfSums(a: real, b: real, c: real, t: real)
    requires t != 0.0
    ensures (a / t * 100.0 * 0.2 + b / t * 100.0 * 0.5 + c / t * 100.0 * 0.8) / 100.0 ==
            (0.2 * a + 0.5 * b + 0.8 * c) / t
  {
  }

  lemma WeightedShareBounds(a: real, b: real, c: real, t: real)
    requires t > 0.0 && a >= 0.0 && b >= 0.0 && c >= 0.0 && a + b + c == t
    ensures 0.2 <= (0.2 * a + 0.5 * b + 0.8 * c) / t <= 0.8
  {
    assert 0.2 * t <= 0.2 * a + 0.5 * b + 0.8 * c <= 0.8 * t;
    assert 0.2 * t / t == 0.2 && 0.8 * t / t == 0.8;
  }

  /** The summary's figures are the label sums over the total. */
  lemma SummaryOfLabelSums(ps: seq<HeldPosition>)
    requires TotalValue(ps) != 0.0
    ensures var t := TotalValue(ps);
      var low, medium, high := LabelSum(ps, "Low"), LabelSum(ps, "Medium"), LabelSum(ps, "High");
      Summarize(ps) == Some(RiskSummary(low / t * 100.0, medium / t * 100.0, high / t * 100.0,
                                        (0.2 * low + 0.5 * medium + 0.8 * high) / t))
  {
    LabelLookups(ps);
    SummarizeWith(ps, LabelSum(ps, "Low"), LabelSum(ps, "Medium"), LabelSum(ps, "High"));
  }

  /** The distribution's entry for each label is that label's sum, 0 when it is absent. */
  lemma LabelLookups(ps: seq<HeldPosition>)
    ensures var dist := Totals(ps, RiskLabel, CurrentValue);
      Lookup(dist, "Low").GetOr(0.0) == LabelSum(ps, "Low") &&
      Lookup(dist, "Medium").GetOr(0.0) == LabelSum(ps, "Medium") &&
      Lookup(dist, "High").GetOr(0.0) == LabelSum(ps, "High")
  {
    TotalOf(ps, RiskLabel, CurrentValue, "Low");
    TotalOf(ps, RiskLabel, CurrentValue, "Medium");
    TotalOf(ps, RiskLabel, CurrentValue, "High");
  }

  /** The summary in terms of any three figures that equal the distribution's entries. */
  lemma SummarizeWith(ps: seq<HeldPosition>, low: real, medium: real, high: real)
    requires TotalValue(ps) != 0.0
    requires var dist := Totals(ps, RiskLabel, CurrentValue);
      Lookup(dist, "Low").GetOr(0.0) == low && Lookup(dist, "Medium").GetOr(0.0) == medium &&
      Lookup(dist, "High").GetOr(0.0) == high
    ensures var t := TotalValue(ps);
      Summarize(ps) == Some(RiskSummary(low / t * 100.0, medium / t * 100.0, high / t * 100.0,
                                        (0.2 * low + 0.5 * medium + 0.8 * high) / t))
  {
    ScoreOfSums(low, medium, high, TotalValue(ps));
  }

  /** With every label known and a non-zero total, the shares add up to 100 percent. */
  lemma PercentagesSumToHundred(ps: seq<HeldPosition>)
    requires forall p :: p in ps ==> IsKnownLabel(RiskLabel(p))
    requires TotalValue(ps) != 0.0
    ensures Summarize(ps).Some?
    ensures Summarize(ps).value.lowPercent + Summarize(ps).value.mediumPercent +
            Summarize(ps).value.highPercent == 100.0
  {
    KnownLabelsCoverTotal(ps);
    SummaryOfLabelSums(ps);
    SharesSumToHundred(LabelSum(ps, "Low"), LabelSum(ps, "Medium"), LabelSum(ps, "High"), TotalValue(ps));
  }

  /**
   * With every label known, no negative value and a positive total, the
   * score lies between the Low weight 0.2 and the High weight 0.8.
   */
  lemma ScoreBetweenWeights(ps: seq<HeldPosition>)
    requires forall p :: p in ps ==> IsKnownLabel(RiskLabel(p)) && p.currentValue >= 0.0
    requires TotalValue(ps) > 0.0
    ensures Summarize(ps).Some?
    ensures 0.2 <= Summarize(ps).value.score <= 0.8
  {
    var low, medium, high, t := LabelSum(ps, "Low"), LabelSum(ps, "Medium"), LabelSum(ps, "High"), TotalValue(ps);
    KnownLabelsCoverTotal(ps);
    LabelSumNonNegative(ps, "Low");
    LabelSumNonNegative(ps, "Medium");
    LabelSumNonNegative(ps, "High");
    WeightedShareBounds(low, medium, high, t);
    SummaryOfLabelSums(ps);
  }

  datatype RiskLevel = Conservative | Moderate | Aggressive

  function GetRiskLevel(score: real): (r: RiskLevel)
    ensures r == Conservative <==> score <= 0.3
    ensures r == Moderate <==> 0.3 < score <= 0.6
    ensures r == Aggressive <==> score > 0.6
  {
    if score <= 0.3 then Conservative else if score <= 0.6 then Moderate else Aggressive
  }

  /** A higher score never gives a milder level. */
  lemma RiskLevelMonotone(s1: real, s2: real)
    requires s1 <= s2
    ensures GetRiskLevel(s1) == Aggressive ==> GetRiskLevel(s2) == Aggressive
    ensures GetRiskLevel(s2) == Conservative ==> GetRiskLevel(s1) == Conservative
  {
  }

  /**
   * The level the panel shows. With a zero total the score is NaN, every
   * comparison with it is false, and the level falls through to Aggressive.
   */
  function ShownLevelAsWritten(ps: seq<HeldPosition>): (r: RiskLevel)
    ensures TotalValue(ps) == 0.0 ==> r == Aggressive
    ensures TotalValue(ps) != 0.0 ==> r == GetRiskLevel(Summarize(ps).value.score)
  {
    match Summarize(ps)
    case Some(s) => GetRiskLevel(s.score)
    case None => Aggressive
  }

  /** An empty portfolio is labelled Aggressive. */
  lemma EmptyPortfolioShownAggressive()
    ensures ShownLevelAsWritten([]) == Aggressive
  {
  }

  /** The level with no rating for a portfolio without value. */
  function ShownLevel(ps: seq<HeldPosition>): (r: Option<RiskLevel>)
    ensures r.None? <==> TotalValue(ps) == 0.0
    ensures r.Some? ==> r.value == GetRiskLevel(Summarize(ps).value.score)
  {
    match Summarize(ps)
    case Some(s) => Some(GetRiskLevel(s.score))
    case None => None
  }

  datatype Advice = ReduceHighRisk | AddStableProtocols | WellBalanced

  /** The advice lines, in the panel's order; none without a rating. */
  function Recommendations(ps: seq<HeldPosition>): (r: seq<Advice>)
    ensures Summarize(ps).None? ==> r == []
    ensures Summarize(ps).Some? ==>
              (ReduceHighRisk in r <==> Summarize(ps).value.highPercent > 40.0) &&
              (AddStableProtocols in r <==> Summarize(ps).value.lowPercent < 20.0) &&
              (WellBalanced in r <==> Summarize(ps).value.lowPercent >= 50.0)
  {
    match Summarize(ps)
    case None => []
    case Some(s) =>
      (if s.highPercent > 40.0 then [ReduceHighRisk] else []) +
      (if s.lowPercent < 20.0 then [AddStableProtocols] else []) +
      (if s.lowPercent >= 50.0 then [WellBalanced] else [])
  }

  /** "Add stable protocols" and "well balanced" are never shown together. */
  lemma StableAndBalancedExclusive(ps: seq<HeldPosition>)
    ensures !(AddStableProtocols in Recommendations(ps) && WellBalanced in Recommendations(ps))
  {
  }

  /** The positions of the portfolio overview screen. */
  function OverviewPositions(): seq<HeldPosition> {
    [HeldPosition("Aave USDC", 8500.0, Some("Low")),
     HeldPosition("Compound USDT", 4200.0, Some("Low")),
     HeldPosition("Yearn DAI", 2720.50, Some("Medium"))]
  }

  lemma OverviewLabels()
    ensures RiskLabel(OverviewPositions()[0]) == "Low"
    ensures RiskLabel(OverviewPositions()[1]) == "Low"
    ensures RiskLabel(OverviewPositions()[2]) == "Medium"
    ensures "Medium" != "Low" && "Low" != "High" && "Medium" != "High"
  {
    assert "Medium"[0] != "Low"[0] && "Low"[0] != "High"[0] && "Medium"[0] != "High"[0];
  }

  /** Filtering the three overview positions by one label. */
  lemma FilterOverview(tag: string, keepA: bool, keepB: bool, keepC: bool)
    requires keepA == (RiskLabel(OverviewPositions()[0]) == tag)
    requires keepB == (RiskLabel(OverviewPositions()[1]) == tag)
    requires keepC == (RiskLabel(OverviewPositions()[2]) == tag)
    ensures var ps := OverviewPositions();
      Filter(ps, KeyIs(RiskLabel, tag)) ==
        (if keepA then [ps[0]] else []) + (if keepB then [ps[1]] else []) + (if keepC then [ps[2]] else [])
  {
    var ps := OverviewPositions();
    var a, b, c := ps[0], ps[1], ps[2];
    var keep := KeyIs(RiskLabel, tag);
    assert ps == [a] + [b, c] && [b, c] == [b] + [c];
    FilterPrepend(a, [b, c], keep);
    FilterPrepend(b, [c], keep);
    FilterPrepend(c, [], keep);
  }

  lemma OverviewLabelSums()
    ensures TotalValue(OverviewPositions()) == 15420.5
    ensures LabelSum(OverviewPositions(), "Low") == 12700.0
    ensures LabelSum(OverviewPositions(), "Medium") == 2720.5
    ensures LabelSum(OverviewPositions(), "High") == 0.0
  {
    var ps := OverviewPositions();
    var a, b, c := ps[0], ps[1], ps[2];
    SumByThree(a, b, c, CurrentValue);
    OverviewLabels();
    FilterOverview("Low", true, true, false);
    assert Filter(ps, KeyIs(RiskLabel, "Low")) == [a] + [b];
    SumByAppend([a], b, CurrentValue);
    SumByAppend([], a, CurrentValue);
    assert [] + [a] == [a];
    FilterOverview("Medium", false, false, true);
    assert Filter(ps, KeyIs(RiskLabel, "Medium")) == [] + [c];
    SumByAppend([], c, CurrentValue);
    FilterOverview("High", false, false, false);
  }

  /** The overview portfolio scores 3900.25 / 15420.5, about 0.25: Conservative. */
  lemma OverviewIsConservative()
    ensures Summarize(OverviewPositions()).Some?
    ensures Summarize(OverviewPositions()).value.score == 3900.25 / 15420.5
    ensures ShownLevel(OverviewPositions()) == Some(Conservative)
  {
    OverviewLabelSums();
    SummaryOfLabelSums(OverviewPositions());
    assert 0.2 * 12700.0 + 0.5 * 2720.5 + 0.8 * 0.0 == 3900.25;
    assert 3900.25 / 15420.5 <= 0.3;
  }
}
