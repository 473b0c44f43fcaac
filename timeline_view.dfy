/**
 * The timeline view of the transaction history: transactions grouped under
 * the local calendar day they happened on, days in order of first appearance.
 * The browser's time zone is a parameter: `offsetMs` is the local time minus
 * UTC in milliseconds (negative west of Greenwich), taken as fixed over the list.
 */
module TimelineView {
  import opened Common
  import opened Grouping
  import opened Transactions

  /** The local calendar day of a transaction, as days since the epoch in local time. */
  function LocalDayOf(offsetMs: int, tx: Transaction): (d: int)
    ensures d * DayMs <= tx.timestamp + offsetMs < (d + 1) * DayMs
  {
    (tx.timestamp + offsetMs) / DayMs
  }

  /** The day key `toDateString()` gives under the offset. */
  function LocalDay(offsetMs: int): Transaction -> int {
    tx => LocalDayOf(offsetMs, tx)
  }

  /**
   * `groupByDate`: one pass over the list, opening a group the first time a
   * day is seen and pushing each transaction onto its day's group.
   */
  method GroupByDate(offsetMs: int, txs: seq<Transaction>) returns (groups: seq<(int, seq<Transaction>)>)
    ensures groups == GroupBy(txs, LocalDay(offsetMs))
  {
    groups := [];
    for i := 0 to |txs|
      invariant groups == GroupBy(txs[..i], LocalDay(offsetMs))
    {
      var day := LocalDayOf(offsetMs, txs[i]);
      var j := KeyIndex(groups, day);
      assert txs[..i + 1] == txs[..i] + [txs[i]];
      GroupByAppend(txs[..i], txs[i], LocalDay(offsetMs));
      if j < |groups| {
        groups := groups[j := (day, groups[j].1 + [txs[i]])];
      } else {
        groups := groups + [(day, [txs[i]])];
      }
    }
    assert txs[..|txs|] == txs;
  }

  /**
   * The days are the distinct days of the list in first-appearance order,
   * each group holds exactly its day's transactions in list order, no group
   * is empty, and the group sizes add up to the list length.
   */
  lemma TimelineGroups(offsetMs: int, txs: seq<Transaction>)
    ensures Keys(GroupBy(txs, LocalDay(offsetMs))) == Distinct(Map(txs, LocalDay(offsetMs)))
    ensures forall i :: 0 <= i < |GroupBy(txs, LocalDay(offsetMs))| ==>
              GroupBy(txs, LocalDay(offsetMs))[i].1 == Filter(txs, KeyIs(LocalDay(offsetMs), GroupBy(txs, LocalDay(offsetMs))[i].0))
    ensures forall i :: 0 <= i < |GroupBy(txs, LocalDay(offsetMs))| ==> |GroupBy(txs, LocalDay(offsetMs))[i].1| > 0
    ensures SumBy(GroupBy(txs, LocalDay(offsetMs)), GroupSize) == |txs| as real
  {
    GroupByKeys(txs, LocalDay(offsetMs));
    GroupByGroups(txs, LocalDay(offsetMs));
    GroupSizes(txs, LocalDay(offsetMs));
  }

  /** Every transaction is in exactly one group: the one of its own day. */
  lemma EachTransactionInOneGroup(offsetMs: int, txs: seq<Transaction>, tx: Transaction)
    requires tx in txs
    ensures var g := GroupBy(txs, LocalDay(offsetMs));
      forall i :: 0 <= i < |g| ==> (tx in g[i].1 <==> g[i].0 == LocalDayOf(offsetMs, tx))
    ensures exists i :: 0 <= i < |GroupBy(txs, LocalDay(offsetMs))| && GroupBy(txs, LocalDay(offsetMs))[i].0 == LocalDayOf(offsetMs, tx)
  {
    var g := GroupBy(txs, LocalDay(offsetMs));
    GroupByGroups(txs, LocalDay(offsetMs));
    forall i | 0 <= i < |g| ensures tx in g[i].1 <==> g[i].0 == LocalDayOf(offsetMs, tx) {
      FilterMembers(txs, KeyIs(LocalDay(offsetMs), g[i].0), tx);
    }
    GroupKeyPresent(txs, tx, LocalDay(offsetMs));
    var j := KeyIndex(g, LocalDayOf(offsetMs, tx));
    assert g[j].0 == LocalDayOf(offsetMs, tx);
  }

  /** With no offset the local day is the UTC day that the analytics use. */
  lemma UtcOffsetIsUtcDay(tx: Transaction)
    ensures LocalDayOf(0, tx) == DayOf(tx)
  {
  }

  /** A later transaction never falls on an earlier local day. */
  lemma LocalDayMonotone(offsetMs: int, a: Transaction, b: Transaction)
    requires a.timestamp <= b.timestamp
    ensures LocalDayOf(offsetMs, a) <= LocalDayOf(offsetMs, b)
  {
    var x, y := a.timestamp + offsetMs, b.timestamp + offsetMs;
    assert x / DayMs * DayMs <= x && y < (y / DayMs + 1) * DayMs;
  }

  /**
   * 02:00 and 06:00 UTC on 15 January 2024 share a UTC day, but five hours
   * west of Greenwich the first is still 14 January: two timeline groups.
   */
  lemma WestOfUtcSplitsUtcDay(a: Transaction, b: Transaction)
    requires a.timestamp == 1705284000000 && b.timestamp == 1705298400000
    ensures DayOf(a) == DayOf(b)
    ensures LocalDayOf(-18000000, a) == LocalDayOf(-18000000, b) - 1
    ensures |GroupBy([a, b], LocalDay(-18000000))| == 2
  {
    var key := LocalDay(-18000000);
    assert [a, b][..1] == [a] && [a][..0] == [];
    assert GroupBy([a], key) == [(key(a), [a])];
    assert KeyIndex([(key(a), [a])], key(b)) == 1;
  }
}
