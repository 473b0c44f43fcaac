/**
 * The yield-table hook: the user's positions and recommendations (only with a
 * wallet address), the market rows annotated with the position held in each
 * protocol, the three best pools, the chain selector's options, and the
 * filter-then-sort pipeline behind the table.
 */
module YieldData {
  import opened Common
  import opened Sorting
  import opened YieldTypes
  import opened MockYieldData
  import opened PortfolioIntegration

  /** `userAddress ? ... : ...`: a missing address and the empty string are both falsy. */
  predicate HasAddress(userAddress: Option<string>) {
    userAddress.Some? && userAddress.value != ""
  }

  function PositionsFor(userAddress: Option<string>, now: int): seq<UserPosition> {
    if HasAddress(userAddress) then UserPositions(userAddress.value, now) else []
  }

  /** The memoised recommendations: the service's answer on the market table, or none without an address. */
  method RecommendationsFor(userAddress: Option<string>, now: int) returns (r: seq<Recommendation>)
    ensures !HasAddress(userAddress) ==> r == []
    ensures HasAddress(userAddress) ==>
              r == Take(AllRecommendations(UserPositions(userAddress.value, now), YieldTable()), 3)
  {
    if HasAddress(userAddress) {
      r := CalculateOptimizationRecommendations(PositionsFor(userAddress, now), YieldTable());
    } else {
      r := [];
    }
  }

  /** `positions.find(pos => pos.protocol === protocol)`. */
  function FindPosition(positions: seq<UserPosition>, protocol: string): (r: Option<UserPosition>)
    ensures r.None? <==> forall p :: p in positions ==> p.protocol != protocol
    ensures r.Some? ==> exists i :: 0 <= i < |positions| && positions[i] == r.value &&
                          r.value.protocol == protocol &&
                          forall j :: 0 <= j < i ==> positions[j].protocol != protocol
  {
    if |positions| == 0 then None
    else if positions[0].protocol == protocol then Some(positions[0])
    else
      var r := FindPosition(positions[1..], protocol);
      assert forall p :: p in positions ==> p == positions[0] || p in positions[1..];
      if r.Some? then
        ghost var i :| 0 <= i < |positions[1..]| && positions[1..][i] == r.value &&
                       forall j :: 0 <= j < i ==> positions[1..][j].protocol != protocol;
        assert positions[i + 1] == r.value;
        r
      else r
  }

  function WithPosition(positions: seq<UserPosition>): YieldRow -> YieldRow {
    (row: YieldRow) => row.(userPosition := FindPosition(positions, row.protocol))
  }

  /**
   * Every market row, in order and otherwise unchanged, with the first position
   * held in a protocol of the same name attached (none when there is none).
   */
  function EnhancedYieldData(table: seq<YieldRow>, positions: seq<UserPosition>): (r: seq<YieldRow>)
    ensures |r| == |table|
    ensures forall i :: 0 <= i < |r| ==> r[i].(userPosition := None) == table[i].(userPosition := None)
    ensures forall i :: 0 <= i < |r| ==>
              (r[i].userPosition.None? <==> forall p :: p in positions ==> p.protocol != table[i].protocol)
    ensures forall i :: 0 <= i < |r| && r[i].userPosition.Some? ==>
              r[i].userPosition.value in positions && r[i].userPosition.value.protocol == table[i].protocol
    ensures forall i :: 0 <= i < |r| ==> r[i].userPosition == FindPosition(positions, table[i].protocol)
    ensures forall i, k ::
              (0 <= i < |r| && r[i].userPosition.Some? && 0 <= k < |positions| &&
               positions[k].protocol == table[i].protocol) ==>
              exists j :: 0 <= j <= k && positions[j] == r[i].userPosition.value
  {
    Map(table, WithPosition(positions))
  }

  /** Without a wallet address there are no positions, no recommendations and nothing attached to the rows. */
  lemma NoAddressNoPortfolio(userAddress: Option<string>, now: int, table: seq<YieldRow>)
    requires !HasAddress(userAddress)
    ensures PositionsFor(userAddress, now) == []
    ensures forall i :: 0 <= i < |table| ==>
              EnhancedYieldData(table, PositionsFor(userAddress, now))[i].userPosition == None
  {
  }

  // ---------------------------------------------------------------------------
  // The three best pools and the chain selector
  // ---------------------------------------------------------------------------

  /** `(a, b) => b.apy - a.apy` read as "a may go before b". */
  predicate ApyDescending(a: YieldRow, b: YieldRow) {
    b.apy - a.apy <= 0.0
  }

  /** `[...yieldData].sort((a, b) => b.apy - a.apy).slice(0, 3)`. */
  method TopOpportunities(table: seq<YieldRow>) returns (r: seq<YieldRow>)
    ensures |r| == Min(3, |table|)
    ensures SortedBy(r, ApyDescending)
    ensures multiset(r) <= multiset(table)
    ensures forall x, i :: x in multiset(table) - multiset(r) && 0 <= i < |r| ==> x.apy <= r[i].apy
  {
    var sorted := SortBy(table, ApyDescending);
    r := Take(sorted, 3);
    assert |sorted| == |multiset(sorted)| == |multiset(table)| == |table|;
    PrefixOfSorted(sorted, |r|);
  }

  /** A prefix of the rows sorted by descending APY: ordered, and no row left out pays more. */
  lemma PrefixOfSorted(sorted: seq<YieldRow>, n: nat)
    requires SortedBy(sorted, ApyDescending) && n <= |sorted|
    ensures SortedBy(sorted[..n], ApyDescending)
    ensures multiset(sorted[..n]) <= multiset(sorted)
    ensures forall x, i :: x in multiset(sorted) - multiset(sorted[..n]) && 0 <= i < n ==> x.apy <= sorted[..n][i].apy
  {
    var r, rest := sorted[..n], sorted[n..];
    assert sorted == r + rest;
    assert multiset(sorted) == multiset(r) + multiset(rest);
    forall x, i | x in multiset(sorted) - multiset(r) && 0 <= i < n
      ensures x.apy <= r[i].apy
    {
      assert x in multiset(rest);
      var j :| 0 <= j < |rest| && rest[j] == x;
      assert sorted[n + j] == x && r[i] == sorted[i];
      assert ApyDescending(sorted[i], sorted[n + j]);
    }
    forall i, j | 0 <= i < j < n ensures ApyDescending(r[i], r[j]) {
      assert r[i] == sorted[i] && r[j] == sorted[j];
    }
  }

  function Chain(row: YieldRow): string {
    row.chain
  }

  /** The chain selector's options: 'all', then each chain of the table once. */
  function Chains(table: seq<YieldRow>): (r: seq<string>)
    ensures |r| > 0 && r[0] == "all"
    ensures forall c :: c in r[1..] <==> exists row :: row in table && row.chain == c
    ensures NoDuplicates(r[1..])
    ensures forall i, j :: 1 <= i < j < |r| ==>
              r[i] in Map(table, Chain) && r[j] in Map(table, Chain) &&
              IndexOf(Map(table, Chain), r[i]) < IndexOf(Map(table, Chain), r[j])
  {
    var d := Distinct(Map(table, Chain));
    DistinctFirstAppearance(Map(table, Chain));
    DistinctMembers(Map(table, Chain));
    DistinctNoDuplicates(Map(table, Chain));
    assert (["all"] + d)[1..] == d;
    assert forall c :: c in Map(table, Chain) <==> exists row :: row in table && row.chain == c by {
      forall c | c in Map(table, Chain) ensures exists row :: row in table && row.chain == c {
        var i :| 0 <= i < |table| && Map(table, Chain)[i] == c;
        assert table[i] in table;
      }
      forall row | row in table ensures row.chain in Map(table, Chain) {
        var i :| 0 <= i < |table| && table[i] == row;
        assert Map(table, Chain)[i] == row.chain;
      }
    }
    ["all"] + d
  }

  lemma ShippedChainColumn()
    ensures Map(YieldTable(), Chain)
            == ["Ethereum", "Polygon", "Arbitrum", "Ethereum", "Ethereum", "Polygon", "Ethereum", "Arbitrum"]
  {
  }

  /** Repeating an element already present leaves the de-duplicated sequence unchanged. */
  lemma DistinctRepeat(s: seq<string>, x: string)
    requires x in s
    ensures Distinct(s + [x]) == Distinct(s)
  {
    DistinctMembers(s);
    DistinctAppend(s, x);
  }

  /** Three different chains in a row are kept as they are. */
  lemma DistinctOfThree(e: string, p: string, a: string)
    requires e != p && e != a && p != a
    ensures Distinct([e, p, a]) == [e, p, a]
  {
    var s0: seq<string> := [];
    DistinctAppend(s0, e);
    assert s0 + [e] == [e];
    DistinctAppend([e], p);
    assert [e] + [p] == [e, p];
    DistinctAppend([e, p], a);
    assert [e, p] + [a] == [e, p, a];
  }

  /** The shape of the shipped chain column, for any three different chains. */
  lemma DistinctOfChainPattern(s: seq<string>, e: string, p: string, a: string)
    requires e != p && e != a && p != a
    requires s == [e, p, a, e, e, p, e, a]
    ensures Distinct(s) == [e, p, a]
  {
    DistinctOfThree(e, p, a);
    assert s[..3] == [e, p, a];
    forall k | 3 <= k < 8 ensures Distinct(s[..k + 1]) == Distinct(s[..k]) {
      assert s[..k + 1] == s[..k] + [s[k]];
      assert s[k] in s[..k] by {
        if s[k] == e { assert s[..k][0] == e; }
        else if s[k] == p { assert s[..k][1] == p; }
        else { assert s[..k][2] == a; }
      }
      DistinctRepeat(s[..k], s[k]);
    }
    assert Distinct(s[..8]) == Distinct(s[..7]) == Distinct(s[..6]) == Distinct(s[..5]) == Distinct(s[..4]) == Distinct(s[..3]);
    assert s[..8] == s;
  }

  lemma DistinctShippedChainColumn()
    ensures Distinct(["Ethereum", "Polygon", "Arbitrum", "Ethereum", "Ethereum", "Polygon", "Ethereum", "Arbitrum"])
            == ["Ethereum", "Polygon", "Arbitrum"]
  {
    var e, p, a := "Ethereum", "Polygon", "Arbitrum";
    assert e[0] != p[0] && e[0] != a[0] && p[0] != a[0];
    DistinctOfChainPattern([e, p, a, e, e, p, e, a], e, p, a);
  }

  /** On the shipped table the options are all, Ethereum, Polygon and Arbitrum, in first-appearance order. */
  lemma ShippedChains()
    ensures Chains(YieldTable()) == ["all", "Ethereum", "Polygon", "Arbitrum"]
  {
    ShippedChainColumn();
    DistinctShippedChainColumn();
  }

  // ---------------------------------------------------------------------------
  // The filtered and sorted table
  // ---------------------------------------------------------------------------

  /** The table's filter inputs; an empty APY box is `None`. */
  datatype YieldFilter = YieldFilter(searchTerm: string, selectedChain: string, minApy: Option<real>, maxApy: Option<real>)

  predicate MatchesSearch(row: YieldRow, searchTerm: string) {
    Contains(ToLower(row.protocol), ToLower(searchTerm)) || Contains(ToLower(row.chain), ToLower(searchTerm))
  }

  predicate Keep(f: YieldFilter, row: YieldRow) {
    MatchesSearch(row, f.searchTerm) &&
    (f.selectedChain == "all" || row.chain == f.selectedChain) &&
    (f.minApy.None? || row.apy >= f.minApy.value) &&
    (f.maxApy.None? || row.apy <= f.maxApy.value)
  }

  function KeepRow(f: YieldFilter): YieldRow -> bool {
    row => Keep(f, row)
  }

  /** The comparator for the chosen column and direction, read as "a may go before b". */
  predicate Before(field: SortField, dir: SortDirection, a: YieldRow, b: YieldRow) {
    match field
    case ByProtocol => if dir == Asc then StrLeq(a.protocol, b.protocol) else StrLeq(b.protocol, a.protocol)
    case ByChain => if dir == Asc then StrLeq(a.chain, b.chain) else StrLeq(b.chain, a.chain)
    case ByApy => if dir == Asc then a.apy - b.apy <= 0.0 else b.apy - a.apy <= 0.0
    case ByChange => if dir == Asc then a.change - b.change <= 0.0 else b.change - a.change <= 0.0
    case ByTvl => if dir == Asc then a.tvlNumeric - b.tvlNumeric <= 0.0 else b.tvlNumeric - a.tvlNumeric <= 0.0
  }

  function RowOrder(field: SortField, dir: SortDirection): (YieldRow, YieldRow) -> bool {
    (a, b) => Before(field, dir, a, b)
  }

  /** Every column comparator orders all rows consistently. */
  lemma RowOrderIsTotalPreorder(field: SortField, dir: SortDirection)
    ensures TotalPreorder(RowOrder(field, dir))
  {
    forall a, b ensures Before(field, dir, a, b) || Before(field, dir, b, a) {
      if field == ByProtocol { StrLeqTotal(a.protocol, b.protocol); }
      if field == ByChain { StrLeqTotal(a.chain, b.chain); }
    }
    forall a, b, c | Before(field, dir, a, b) && Before(field, dir, b, c)
      ensures Before(field, dir, a, c)
    {
      if field == ByProtocol {
        if dir == Asc { StrLeqTransitive(a.protocol, b.protocol, c.protocol); }
        else { StrLeqTransitive(c.protocol, b.protocol, a.protocol); }
      }
      if field == ByChain {
        if dir == Asc { StrLeqTransitive(a.chain, b.chain, c.chain); }
        else { StrLeqTransitive(c.chain, b.chain, a.chain); }
      }
    }
  }

  /**
   * The table's rows: exactly the rows that pass every filter, each as often as
   * in the input, ordered by the chosen column in the chosen direction.
   */
  method FilteredYieldData(rows: seq<YieldRow>, f: YieldFilter, field: SortField, dir: SortDirection)
    returns (r: seq<YieldRow>)
    ensures forall x :: x in r <==> x in rows && Keep(f, x)
    ensures multiset(r) == multiset(Filter(rows, KeepRow(f)))
    ensures SortedBy(r, RowOrder(field, dir))
  {
    var filtered := Filter(rows, KeepRow(f));
    RowOrderIsTotalPreorder(field, dir);
    r := SortBy(filtered, RowOrder(field, dir));
    forall x ensures x in r <==> x in rows && Keep(f, x) {
      assert x in r <==> x in multiset(r);
      FilterMembers(rows, KeepRow(f), x);
    }
  }

  /** An empty search, chain 'all' and empty APY boxes keep every row. */
  lemma NeutralFilterKeepsEverything(rows: seq<YieldRow>)
    ensures Filter(rows, KeepRow(YieldFilter("", "all", None, None))) == rows
  {
    forall row | row in rows ensures Keep(YieldFilter("", "all", None, None), row) {
      ContainsEmpty(ToLower(row.protocol));
    }
    FilterAll(rows, KeepRow(YieldFilter("", "all", None, None)));
  }

  /** Both APY bounds are inclusive. */
  lemma ApyBoundsInclusive(row: YieldRow, searchTerm: string, chain: string)
    requires MatchesSearch(row, searchTerm) && (chain == "all" || row.chain == chain)
    ensures Keep(YieldFilter(searchTerm, chain, Some(row.apy), Some(row.apy)), row)
  {
  }

  /** With no search text and no APY bounds, only the chain choice decides. */
  lemma KeepWithoutSearch(row: YieldRow, chain: string)
    ensures Keep(YieldFilter("", chain, None, None), row) <==> chain == "all" || row.chain == chain
  {
    ContainsEmpty(ToLower(row.protocol));
  }

  /** On the shipped table, choosing Polygon keeps Compound USDT and Beefy Finance, in that order. */
  lemma ShippedPolygonRows()
    ensures Filter(YieldTable(), KeepRow(YieldFilter("", "Polygon", None, None))) == [CompoundUsdt, BeefyFinance]
  {
    var p := KeepRow(YieldFilter("", "Polygon", None, None));
    KeepWithoutSearch(AaveUsdc, "Polygon");
    KeepWithoutSearch(CompoundUsdt, "Polygon");
    KeepWithoutSearch(YearnDai, "Polygon");
    KeepWithoutSearch(Curve3Pool, "Polygon");
    KeepWithoutSearch(ConvexFrax, "Polygon");
    KeepWithoutSearch(BeefyFinance, "Polygon");
    KeepWithoutSearch(LidoSteth, "Polygon");
    KeepWithoutSearch(UniswapV3, "Polygon");
    FilterOfFour(AaveUsdc, CompoundUsdt, YearnDai, Curve3Pool, p);
    FilterOfFour(ConvexFrax, BeefyFinance, LidoSteth, UniswapV3, p);
    FilterConcat([AaveUsdc, CompoundUsdt, YearnDai, Curve3Pool], [ConvexFrax, BeefyFinance, LidoSteth, UniswapV3], p);
    assert YieldTable() ==
           [AaveUsdc, CompoundUsdt, YearnDai, Curve3Pool] + [ConvexFrax, BeefyFinance, LidoSteth, UniswapV3];
  }

  lemma OnlyUniswapReaches15_7(x: YieldRow)
    requires x in YieldTable() && x.apy >= 15.7
    ensures x == UniswapV3
  {
  }

  lemma OnlyLidoIsAsLowAs4_1(x: YieldRow)
    requires x in YieldTable() && x.apy <= 4.1
    ensures x == LidoSteth
  {
  }

  /**
   * Any ordering of the shipped table by APY, descending, starts with
   * Uniswap V3 ETH/USDC (15.7) and ends with Lido stETH (4.1).
   */
  lemma ShippedApyDescending(r: seq<YieldRow>)
    requires multiset(r) == multiset(YieldTable())
    requires SortedBy(r, RowOrder(ByApy, Desc))
    ensures |r| == 8 && r[0] == UniswapV3 && r[7] == LidoSteth
  {
    SameMultisetSameMembers(r, YieldTable());
    ApyDescendingEnds(r, UniswapV3);
    OnlyUniswapReaches15_7(r[0]);
    ApyDescendingEnds(r, LidoSteth);
    OnlyLidoIsAsLowAs4_1(r[7]);
  }

  lemma ApyDescendingEnds(r: seq<YieldRow>, x: YieldRow)
    requires SortedBy(r, RowOrder(ByApy, Desc)) && x in r
    ensures r[0].apy >= x.apy >= r[|r| - 1].apy
  {
    var k :| 0 <= k < |r| && r[k] == x;
    if k != 0 {
      assert Before(ByApy, Desc, r[0], r[k]);
    }
    if k != |r| - 1 {
      assert Before(ByApy, Desc, r[k], r[|r| - 1]);
    }
  }
}
