/**
 * The four figures above the market table: the average APY, the total TVL
 * with its display unit, the chain with the highest summed APY, and the
 * number of rows paying more than 10 percent; plus the count of rows per
 * risk level.
 */
module YieldMetrics {
  import opened Common
  import opened Grouping
  import opened YieldTypes
  import opened MockYieldData
  import YieldData

  function Apy(row: YieldRow): real {
    row.apy
  }

  function TvlNumeric(row: YieldRow): real {
    row.tvlNumeric
  }

  /** The average APY; an empty table divides by zero and has none. */
  function AvgApy(data: seq<YieldRow>): (r: Option<real>)
    ensures r.None? <==> data == []
    ensures r.Some? ==> r.value * |data| as real == SumBy(data, Apy)
  {
    if |data| == 0 then None else Some(SumBy(data, Apy) / |data| as real)
  }

  /** The average lies between the lowest and the highest APY of the table. */
  lemma {:induction false} AvgApyBetween(data: seq<YieldRow>, lo: real, hi: real)
    requires data != []
    requires forall row :: row in data ==> lo <= row.apy <= hi
    ensures lo <= AvgApy(data).value <= hi
  {
    SumBetween(data, lo, hi);
    QuotientBetween(SumBy(data, Apy), |data| as real, lo, hi);
  }

  /** Dividing bounds `lo * n <= s <= hi * n` by a positive `n`. */
  lemma QuotientBetween(s: real, n: real, lo: real, hi: real)
    requires n > 0.0 && lo * n <= s <= hi * n
    ensures lo <= s / n <= hi
  {
    assert s / n - lo == (s - lo * n) / n;
    assert hi - s / n == (hi * n - s) / n;
  }

  lemma {:induction false} SumBetween(data: seq<YieldRow>, lo: real, hi: real)
    requires forall row :: row in data ==> lo <= row.apy <= hi
    ensures lo * |data| as real <= SumBy(data, Apy) <= hi * |data| as real
  {
    if |data| > 0 {
      SumBetween(data[..|data| - 1], lo, hi);
      assert data[|data| - 1] in data;
    }
  }

  /** The TVL of every row added up; never negative when no row's TVL is. */
  function TotalTvl(data: seq<YieldRow>): (r: real)
    ensures (forall row :: row in data ==> row.tvlNumeric >= 0.0) ==> r >= 0.0
  {
    SumByNonNegativeWhen(data, TvlNumeric);
    SumBy(data, TvlNumeric)
  }

  /** The total TVL is never below any single row's TVL when no TVL is negative. */
  lemma {:induction false} TotalTvlCoversEachRow(data: seq<YieldRow>, i: nat)
    requires i < |data|
    requires forall row :: row in data ==> row.tvlNumeric >= 0.0
    ensures TotalTvl(data) >= data[i].tvlNumeric
  {
    var pre := data[..|data| - 1];
    assert forall row :: row in pre ==> row in data;
    SumByNonNegative(pre, TvlNumeric);
    if i < |data| - 1 {
      TotalTvlCoversEachRow(pre, i);
    }
  }

  function RiskOf(row: YieldRow): Risk {
    row.riskLevel
  }

  /** The number of rows per risk level, as the `reduce` counts them. */
  method RiskDistribution(data: seq<YieldRow>) returns (counts: seq<(Risk, real)>)
    ensures counts == Totals(data, RiskOf, One)
    ensures SumBy(counts, Snd) == |data| as real
    ensures forall level :: Lookup(counts, level).GetOr(0.0) == |Filter(data, KeyIs(RiskOf, level))| as real
  {
    counts := Accumulate(data, RiskOf, One);
    TotalsSum(data, RiskOf, One);
    SumOfOnes(data);
    forall level ensures Lookup(counts, level).GetOr(0.0) == |Filter(data, KeyIs(RiskOf, level))| as real {
      TotalOf(data, RiskOf, One, level);
      SumOfOnes(Filter(data, KeyIs(RiskOf, level)));
    }
  }

  /** The summed APY per chain, in order of each chain's first row. */
  method TopChain(data: seq<YieldRow>) returns (sums: seq<(string, real)>)
    ensures sums == Totals(data, YieldData.Chain, Apy)
    ensures Keys(sums) == Distinct(Map(data, YieldData.Chain))
    ensures forall chain :: Lookup(sums, chain).GetOr(0.0) == SumBy(Filter(data, KeyIs(YieldData.Chain, chain)), Apy)
  {
    sums := Accumulate(data, YieldData.Chain, Apy);
    TotalsAreGroupSums(data, YieldData.Chain, Apy);
    GroupByKeys(data, YieldData.Chain);
    assert Keys(sums) == Keys(GroupBy(data, YieldData.Chain));
    forall chain ensures Lookup(sums, chain).GetOr(0.0) == SumBy(Filter(data, KeyIs(YieldData.Chain, chain)), Apy) {
      TotalOf(data, YieldData.Chain, Apy, chain);
    }
  }

  /**
   * `entries.reduce((a, b) => a[1] > b[1] ? a : b)` as an index: the
   * accumulated entry is kept only while it is strictly larger.
   */
  function BestIndex<K>(entries: seq<(K, real)>): (j: nat)
    requires |entries| > 0
    ensures j < |entries|
    ensures forall i :: 0 <= i < |entries| ==> entries[i].1 <= entries[j].1
    ensures forall i :: j < i < |entries| ==> entries[i].1 < entries[j].1
  {
    if |entries| == 1 then 0
    else
      var j := BestIndex(entries[..|entries| - 1]);
      if entries[j].1 > entries[|entries| - 1].1 then j else |entries| - 1
  }

  /** The best entry is the last one holding the maximum. */
  lemma BestIndexIsLastMaximum<K>(entries: seq<(K, real)>, j: nat)
    requires j < |entries|
    requires forall i :: 0 <= i < |entries| ==> entries[i].1 <= entries[j].1
    requires forall i :: j < i < |entries| ==> entries[i].1 < entries[j].1
    ensures BestIndex(entries) == j
  {
  }

  /**
   * The chain with the largest summed APY, the later one on a tie. The
   * reduce without a start value throws on an empty table; that is `None`.
   */
  function BestChain(sums: seq<(string, real)>): (r: Option<string>)
    ensures r.None? <==> sums == []
    ensures r.Some? ==> exists j :: 0 <= j < |sums| && sums[j].0 == r.value &&
                          (forall i :: 0 <= i < |sums| ==> sums[i].1 <= sums[j].1) &&
                          (forall i :: j < i < |sums| ==> sums[i].1 < sums[j].1)
  {
    if |sums| == 0 then None else Some(sums[BestIndex(sums)].0)
  }

  /** The rows paying strictly more than 10 percent. */
  function HighYield(row: YieldRow): bool {
    row.apy > 10.0
  }

  function HighYieldCount(data: seq<YieldRow>): (n: nat)
    ensures n <= |data|
    ensures n == |Filter(data, HighYield)|
  {
    |Filter(data, HighYield)|
  }

  /** Every row counted is above 10 percent, and every row above 10 percent is counted. */
  lemma HighYieldCountsExactly(data: seq<YieldRow>, row: YieldRow)
    requires row in data
    ensures row in Filter(data, HighYield) <==> row.apy > 10.0
  {
    FilterMembers(data, HighYield, row);
  }

  datatype TvlUnit = Billions | Millions | Thousands

  /** `formatTvl`: the unit and the value in that unit, before `toFixed(1)`. */
  function FormatTvl(value: real): (r: (TvlUnit, real))
    ensures r.0 == Billions <==> value >= 1000000000.0
    ensures r.0 == Millions <==> 1000000.0 <= value < 1000000000.0
    ensures r.0 == Thousands <==> value < 1000000.0
    ensures r.1 * (match r.0 case Billions => 1000000000.0 case Millions => 1000000.0 case Thousands => 1000.0) == value
  {
    if value >= 1000000000.0 then (Billions, value / 1000000000.0)
    else if value >= 1000000.0 then (Millions, value / 1000000.0)
    else (Thousands, value / 1000.0)
  }

  lemma ChainNamesDiffer()
    ensures "Polygon" != "Ethereum" && "Arbitrum" != "Ethereum" && "Arbitrum" != "Polygon"
  {
    assert "Polygon"[0] != "Ethereum"[0] && "Arbitrum"[0] != "Ethereum"[0] && "Arbitrum"[0] != "Polygon"[0];
  }

  /** The per-chain sums after the first two shipped rows. */
  lemma ShippedChainSumsFirstTwo()
    ensures Totals([AaveUsdc, CompoundUsdt], YieldData.Chain, Apy) == [("Ethereum", 7.2), ("Polygon", 6.8)]
  {
    ChainNamesDiffer();
    TotalsNewKey([], AaveUsdc, YieldData.Chain, Apy);
    assert [] + [AaveUsdc] == [AaveUsdc];
    TotalsNewKey([AaveUsdc], CompoundUsdt, YieldData.Chain, Apy);
    assert [AaveUsdc] + [CompoundUsdt] == [AaveUsdc, CompoundUsdt];
  }

  /** The per-chain sums after the first four shipped rows. */
  lemma ShippedChainSumsFirstHalf()
    ensures Totals([AaveUsdc, CompoundUsdt, YearnDai, Curve3Pool], YieldData.Chain, Apy) ==
            [("Ethereum", 12.6), ("Polygon", 6.8), ("Arbitrum", 9.1)]
  {
    var key, val := YieldData.Chain, Apy;
    ChainNamesDiffer();
    var s2 := [AaveUsdc, CompoundUsdt];
    ShippedChainSumsFirstTwo();
    TotalsNewKey(s2, YearnDai, key, val);
    var s3 := s2 + [YearnDai];
    assert Totals(s3, key, val) == [("Ethereum", 7.2), ("Polygon", 6.8), ("Arbitrum", 9.1)];
    TotalsAddToKey(s3, Curve3Pool, key, val, 0);
    assert s3 + [Curve3Pool] == [AaveUsdc, CompoundUsdt, YearnDai, Curve3Pool];
  }

  /** The per-chain APY sums of the shipped table, built row by row. */
  lemma ShippedChainSums()
    ensures Totals(YieldTable(), YieldData.Chain, Apy) == [("Ethereum", 25.4), ("Polygon", 19.1), ("Arbitrum", 24.8)]
  {
    var key, val := YieldData.Chain, Apy;
    ChainNamesDiffer();
    ShippedChainSumsFirstHalf();
    var s4 := [AaveUsdc, CompoundUsdt, YearnDai, Curve3Pool];
    var s5 := s4 + [ConvexFrax];
    var s6 := s5 + [BeefyFinance];
    var s7 := s6 + [LidoSteth];
    var s8 := s7 + [UniswapV3];
    TotalsAddToKey(s4, ConvexFrax, key, val, 0);
    assert Totals(s5, key, val) == [("Ethereum", 21.3), ("Polygon", 6.8), ("Arbitrum", 9.1)];
    TotalsAddToKey(s5, BeefyFinance, key, val, 1);
    assert Totals(s6, key, val) == [("Ethereum", 21.3), ("Polygon", 19.1), ("Arbitrum", 9.1)];
    TotalsAddToKey(s6, LidoSteth, key, val, 0);
    assert Totals(s7, key, val) == [("Ethereum", 25.4), ("Polygon", 19.1), ("Arbitrum", 9.1)];
    TotalsAddToKey(s7, UniswapV3, key, val, 2);
    assert s8 == YieldTable();
  }

  /** On the shipped table Ethereum (25.4) beats Arbitrum (24.8) and Polygon (19.1). */
  lemma ShippedBestChainIsEthereum()
    ensures BestChain(Totals(YieldTable(), YieldData.Chain, Apy)) == Some("Ethereum")
  {
    ShippedChainSums();
    BestIndexIsLastMaximum([("Ethereum", 25.4), ("Polygon", 19.1), ("Arbitrum", 24.8)], 0);
  }

  /** Two shipped rows pay more than 10 percent: Beefy Finance and Uniswap V3. */
  lemma ShippedHighYieldCount()
    ensures Filter(YieldTable(), HighYield) == [BeefyFinance, UniswapV3]
    ensures HighYieldCount(YieldTable()) == 2
  {
    var s0: seq<YieldRow> := [];
    var s1 := s0 + [AaveUsdc];
    var s2 := s1 + [CompoundUsdt];
    var s3 := s2 + [YearnDai];
    var s4 := s3 + [Curve3Pool];
    var s5 := s4 + [ConvexFrax];
    var s6 := s5 + [BeefyFinance];
    var s7 := s6 + [LidoSteth];
    var s8 := s7 + [UniswapV3];
    FilterAppend(s0, AaveUsdc, HighYield);
    FilterAppend(s1, CompoundUsdt, HighYield);
    FilterAppend(s2, YearnDai, HighYield);
    FilterAppend(s3, Curve3Pool, HighYield);
    FilterAppend(s4, ConvexFrax, HighYield);
    assert Filter(s5, HighYield) == [];
    FilterAppend(s5, BeefyFinance, HighYield);
    FilterAppend(s6, LidoSteth, HighYield);
    FilterAppend(s7, UniswapV3, HighYield);
    assert s8 == YieldTable();
  }
}
