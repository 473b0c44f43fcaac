/**
 * The analytics tab of the transaction history: gas and volume totals, the
 * count of transactions per type for the pie chart, the volume per day for
 * the last seven days, and the gas of the last ten transactions.
 */
module TransactionAnalytics {
  import opened Common
  import opened Grouping
  import opened Sorting
  import opened Transactions

  function GasUsed(tx: Transaction): real {
    tx.gasUsed
  }

  function Amount(tx: Transaction): real {
    tx.amount
  }

  function TxType(tx: Transaction): string {
    tx.txType
  }

  /** The gas of every transaction added up; never negative when no entry is. */
  function TotalGasSpent(txs: seq<Transaction>): (r: real)
    ensures (forall tx :: tx in txs ==> tx.gasUsed >= 0.0) ==> r >= 0.0
  {
    SumByNonNegativeWhen(txs, GasUsed);
    SumBy(txs, GasUsed)
  }

  function TotalVolume(txs: seq<Transaction>): real {
    SumBy(txs, Amount)
  }

  /** The gas per transaction; an empty list divides by zero and has none. */
  function AvgGasPerTx(txs: seq<Transaction>): (r: Option<real>)
    ensures r.None? <==> txs == []
    ensures r.Some? ==> r.value * |txs| as real == TotalGasSpent(txs)
  {
    if |txs| == 0 then None else Some(TotalGasSpent(txs) / |txs| as real)
  }

  /** The shipped list moves 19320.5 in total. */
  lemma MockTotalVolume()
    ensures TotalVolume(MockTransactions()) == 19320.5
  {
    var s1 := [Tx1];
    var s2 := s1 + [Tx2];
    var s3 := s2 + [Tx3];
    var s4 := s3 + [Tx4];
    var s5 := s4 + [Tx5];
    assert [Tx1] == [] + [Tx1];
    SumByAppend([], Tx1, Amount);
    SumByAppend(s1, Tx2, Amount);
    SumByAppend(s2, Tx3, Amount);
    SumByAppend(s3, Tx4, Amount);
    SumByAppend(s4, Tx5, Amount);
    assert s5 == MockTransactions();
  }

  /**
   * The count per type in order of first appearance: one entry per distinct
   * type, each the number of transactions of that type, together the length
   * of the list.
   */
  method TypeDistribution(txs: seq<Transaction>) returns (counts: seq<(string, real)>)
    ensures counts == Totals(txs, TxType, One)
    ensures Keys(counts) == Distinct(Map(txs, TxType))
    ensures SumBy(counts, Snd) == |txs| as real
    ensures forall t :: Lookup(counts, t).GetOr(0.0) == |Filter(txs, KeyIs(TxType, t))| as real
  {
    counts := Accumulate(txs, TxType, One);
    TotalsAreGroupSums(txs, TxType, One);
    GroupByKeys(txs, TxType);
    assert Keys(counts) == Keys(GroupBy(txs, TxType));
    TotalsSum(txs, TxType, One);
    SumOfOnes(txs);
    forall t ensures Lookup(counts, t).GetOr(0.0) == |Filter(txs, KeyIs(TxType, t))| as real {
      TotalOf(txs, TxType, One, t);
      SumOfOnes(Filter(txs, KeyIs(TxType, t)));
    }
  }

  /** `type.charAt(0).toUpperCase() + type.slice(1)`. */
  function Capitalize(s: string): (r: string)
    ensures |r| == |s|
    ensures |s| > 0 ==> r[0] == UpperChar(s[0]) && r[1..] == s[1..]
  {
    if |s| == 0 then s else [UpperChar(s[0])] + s[1..]
  }

  datatype PieSlice = PieSlice(name: string, value: real)

  function SliceValue(p: PieSlice): real {
    p.value
  }

  function ToSlice(e: (string, real)): PieSlice {
    PieSlice(Capitalize(e.0), e.1)
  }

  /** One slice per count, in order, named by the capitalised type. */
  function PieData(counts: seq<(string, real)>): (r: seq<PieSlice>)
    ensures |r| == |counts|
    ensures forall i :: 0 <= i < |r| ==> r[i].name == Capitalize(counts[i].0) && r[i].value == counts[i].1
  {
    Map(counts, ToSlice)
  }

  lemma {:induction false} PieDataSum(counts: seq<(string, real)>)
    ensures SumBy(PieData(counts), SliceValue) == SumBy(counts, Snd)
  {
    if |counts| > 0 {
      var pre := counts[..|counts| - 1];
      PieDataSum(pre);
      assert PieData(counts)[..|counts| - 1] == PieData(pre);
    }
  }

  /**
   * One slice per distinct type, in first-appearance order, named by the
   * capitalised type; the slice values add up to the number of transactions.
   */
  lemma PieSlicesOfTypes(txs: seq<Transaction>)
    ensures var types := Distinct(Map(txs, TxType));
            var pie := PieData(Totals(txs, TxType, One));
            |pie| == |types| &&
            (forall i :: 0 <= i < |pie| ==> pie[i].name == Capitalize(types[i])) &&
            SumBy(pie, SliceValue) == |txs| as real
  {
    var counts := Totals(txs, TxType, One);
    TotalsAreGroupSums(txs, TxType, One);
    GroupByKeys(txs, TxType);
    assert Keys(counts) == Keys(GroupBy(txs, TxType));
    TotalsSum(txs, TxType, One);
    SumOfOnes(txs);
    PieDataSum(counts);
  }

  function DayLeq(a: (int, real), b: (int, real)): bool {
    a.0 <= b.0
  }

  /** Each day's entry of the accumulated volume is that day's sum; days are distinct. */
  lemma DailyVolumeEntries(txs: seq<Transaction>)
    ensures var daily := Totals(txs, DayOf, Amount);
      Keys(daily) == Distinct(Map(txs, DayOf)) && NoDuplicates(Keys(daily)) &&
      forall e :: e in daily ==> e.0 in Map(txs, DayOf) && e.1 == SumBy(Filter(txs, KeyIs(DayOf, e.0)), Amount)
  {
    var daily := Totals(txs, DayOf, Amount);
    TotalsAreGroupSums(txs, DayOf, Amount);
    GroupByKeys(txs, DayOf);
    assert Keys(daily) == Keys(GroupBy(txs, DayOf));
    DistinctNoDuplicates(Map(txs, DayOf));
    DistinctMembers(Map(txs, DayOf));
    forall e | e in daily
      ensures e.0 in Map(txs, DayOf) && e.1 == SumBy(Filter(txs, KeyIs(DayOf, e.0)), Amount)
    {
      var p :| 0 <= p < |daily| && daily[p] == e;
      assert Keys(daily)[p] == e.0;
      LookupOfMember(daily, e);
      TotalOf(txs, DayOf, Amount, e.0);
    }
  }

  /** Sorted by day with no day twice means strictly ascending days. */
  lemma StrictlyAscending(sorted: seq<(int, real)>)
    requires SortedBy(sorted, DayLeq) && NoDuplicates(Keys(sorted))
    ensures forall i, j :: 0 <= i < j < |sorted| ==> sorted[i].0 < sorted[j].0
  {
    forall i, j | 0 <= i < j < |sorted| ensures sorted[i].0 < sorted[j].0 {
      assert DayLeq(sorted[i], sorted[j]);
      assert Keys(sorted)[i] != Keys(sorted)[j];
    }
  }

  lemma DayLeqIsTotalPreorder()
    ensures TotalPreorder(DayLeq)
  {
  }

  /** An entry left out of the last window lies before every day in it. */
  lemma BeforeLastWindow(sorted: seq<(int, real)>, n: nat, x: (int, real))
    requires forall i, j :: 0 <= i < j < |sorted| ==> sorted[i].0 < sorted[j].0
    requires x in sorted && x.0 !in Keys(TakeLast(sorted, n))
    ensures forall e :: e in TakeLast(sorted, n) ==> x.0 < e.0
  {
    var w := TakeLast(sorted, n);
    var start := |sorted| - |w|;
    assert w == sorted[start..];
    BeforeSuffix(sorted, start, x);
  }

  /** An entry whose day is not among the days of a suffix lies before the suffix. */
  lemma BeforeSuffix(sorted: seq<(int, real)>, start: nat, x: (int, real))
    requires start <= |sorted|
    requires forall i, j :: 0 <= i < j < |sorted| ==> sorted[i].0 < sorted[j].0
    requires x in sorted && x.0 !in Keys(sorted[start..])
    ensures forall e :: e in sorted[start..] ==> x.0 < e.0
  {
    var q :| 0 <= q < |sorted| && sorted[q] == x;
    SuffixKeys(sorted, start);
    assert q < start;
    forall e | e in sorted[start..] ensures x.0 < e.0 {
      var i :| start <= i < |sorted| && sorted[i] == e;
      assert sorted[q].0 < sorted[i].0;
    }
  }

  /** Every day from `start` on is a day of the suffix. */
  lemma SuffixKeys(sorted: seq<(int, real)>, start: nat)
    requires start <= |sorted|
    ensures forall k :: start <= k < |sorted| ==> sorted[k].0 in Keys(sorted[start..])
  {
    var w := sorted[start..];
    forall k | start <= k < |sorted| ensures sorted[k].0 in Keys(w) {
      assert Keys(w)[k - start] == w[k - start].0 == sorted[k].0;
    }
  }

  /** A window of day-sorted volume entries: days strictly ascending, each entry its day's sum. */
  lemma WindowEntries(txs: seq<Transaction>, sorted: seq<(int, real)>)
    requires multiset(sorted) == multiset(Totals(txs, DayOf, Amount))
    requires SortedBy(sorted, DayLeq)
    ensures forall i, j :: 0 <= i < j < |sorted| ==> sorted[i].0 < sorted[j].0
    ensures |sorted| == |Distinct(Map(txs, DayOf))|
    ensures forall e :: e in sorted ==>
              e.0 in Map(txs, DayOf) && e.1 == SumBy(Filter(txs, KeyIs(DayOf, e.0)), Amount)
    ensures forall d :: d in Map(txs, DayOf) ==> d in Keys(sorted)
  {
    var daily := Totals(txs, DayOf, Amount);
    DailyVolumeEntries(txs);
    SameMultisetSameMembers(daily, sorted);
    PermutationKeepsKeysDistinct(daily, sorted);
    StrictlyAscending(sorted);
    forall d | d in Map(txs, DayOf) ensures d in Keys(sorted) {
      DistinctMembers(Map(txs, DayOf));
      var p := KeyIndex(daily, d);
      assert daily[p] in sorted;
      var q :| 0 <= q < |sorted| && sorted[q] == daily[p];
      assert Keys(sorted)[q] == d;
    }
  }

  /** The last `n` entries of strictly ascending days are still strictly ascending. */
  lemma WindowOfAscending(sorted: seq<(int, real)>, n: nat)
    requires forall i, j :: 0 <= i < j < |sorted| ==> sorted[i].0 < sorted[j].0
    ensures forall i, j :: 0 <= i < j < |TakeLast(sorted, n)| ==> TakeLast(sorted, n)[i].0 < TakeLast(sorted, n)[j].0
  {
    var w := TakeLast(sorted, n);
    var start := |sorted| - |w|;
    assert w == sorted[start..];
    SuffixAscending(sorted, start);
  }

  lemma SuffixAscending(sorted: seq<(int, real)>, start: nat)
    requires start <= |sorted|
    requires forall i, j :: 0 <= i < j < |sorted| ==> sorted[i].0 < sorted[j].0
    ensures forall i, j :: 0 <= i < j < |sorted[start..]| ==> sorted[start..][i].0 < sorted[start..][j].0
  {
    var w := sorted[start..];
    forall i, j | 0 <= i < j < |w| ensures w[i].0 < w[j].0 {
      assert w[i] == sorted[start + i] && w[j] == sorted[start + j];
    }
  }

  /** The last `n` entries are entries of the whole list. */
  lemma WindowMembers<T>(s: seq<T>, n: nat)
    ensures forall e :: e in TakeLast(s, n) ==> e in s
  {
    var w := TakeLast(s, n);
    forall e | e in w ensures e in s {
      var i :| 0 <= i < |w| && w[i] == e;
      assert w[i] == s[|s| - |w| + i];
    }
  }

  /** The last `n` entries of strictly ascending days: still ascending, and every day left out is earlier. */
  lemma LastWindow(sorted: seq<(int, real)>, n: nat)
    requires forall i, j :: 0 <= i < j < |sorted| ==> sorted[i].0 < sorted[j].0
    ensures forall i, j :: 0 <= i < j < |TakeLast(sorted, n)| ==> TakeLast(sorted, n)[i].0 < TakeLast(sorted, n)[j].0
    ensures forall e :: e in TakeLast(sorted, n) ==> e in sorted
    ensures forall d :: d in Keys(sorted) ==>
              d in Keys(TakeLast(sorted, n)) || forall e :: e in TakeLast(sorted, n) ==> d < e.0
  {
    var w := TakeLast(sorted, n);
    WindowOfAscending(sorted, n);
    WindowMembers(sorted, n);
    forall d | d in Keys(sorted) && d !in Keys(w)
      ensures forall e :: e in w ==> d < e.0
    {
      var q :| 0 <= q < |sorted| && Keys(sorted)[q] == d;
      BeforeLastWindow(sorted, n, sorted[q]);
    }
  }

  /**
   * The volume chart: the amount moved per day, days ascending (ISO date
   * strings compare as their day numbers), and only the last seven days.
   */
  method VolumeData(txs: seq<Transaction>) returns (series: seq<(int, real)>)
    ensures |series| == Min(7, |Distinct(Map(txs, DayOf))|)
    ensures forall i, j :: 0 <= i < j < |series| ==> series[i].0 < series[j].0
    ensures forall e :: e in series ==>
              e.0 in Map(txs, DayOf) && e.1 == SumBy(Filter(txs, KeyIs(DayOf, e.0)), Amount)
    ensures forall d :: d in Map(txs, DayOf) ==> d in Keys(series) || forall e :: e in series ==> d < e.0
  {
    var daily := Accumulate(txs, DayOf, Amount);
    DayLeqIsTotalPreorder();
    var sorted := SortBy(daily, DayLeq);
    WindowEntries(txs, sorted);
    LastWindow(sorted, 7);
    series := TakeLast(sorted, 7);
  }

  datatype GasPoint = GasPoint(name: string, gas: real, txType: string)

  /** "TX 1", "TX 2", ... */
  function TxLabel(i: nat): (s: string)
    ensures |s| > 3 && s[..3] == "TX "
  {
    "TX " + NatToString(i + 1)
  }

  /** The gas chart: the last ten transactions (all when fewer), labelled in order. */
  function GasData(txs: seq<Transaction>): (r: seq<GasPoint>)
    ensures |r| == Min(10, |txs|)
    ensures forall i :: 0 <= i < |r| ==>
              r[i] == GasPoint(TxLabel(i), txs[|txs| - |r| + i].gasUsed, txs[|txs| - |r| + i].txType)
  {
    var last := TakeLast(txs, 10);
    seq(|last|, i requires 0 <= i < |last| => GasPoint(TxLabel(i), last[i].gasUsed, last[i].txType))
  }

  /** With ten or fewer transactions the chart shows each one's gas, in list order. */
  lemma ShortListShowsAllGas(txs: seq<Transaction>)
    requires |txs| <= 10
    ensures Map(GasData(txs), (p: GasPoint) => p.gas) == Map(txs, GasUsed)
  {
  }
}
