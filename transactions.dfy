/**
 * The transaction history screen: the transaction record, the filter state
 * with its inclusive ranges, the filter itself, the named presets, and the
 * state the screen keeps (current filters and saved presets).
 */
module Transactions {
  import opened Common

  /** A transaction; `timestamp` is milliseconds since the epoch. */
  datatype Transaction = Transaction(
    id: string,
    txType: string,
    description: string,
    amount: real,
    from: string,
    to: string,
    timestamp: int,
    status: string,
    txHash: string,
    gasUsed: real)

  /** A date window in milliseconds; an empty date box is `None`. */
  datatype DateRange = DateRange(from: Option<int>, to: Option<int>)

  /** A numeric window; an empty box is `None`. */
  datatype Bounds = Bounds(min: Option<real>, max: Option<real>)

  datatype FilterState = FilterState(
    search: string,
    txType: string,
    status: string,
    dateRange: DateRange,
    amountRange: Bounds,
    gasRange: Bounds)

  /** The state the screen starts in and that "clear" returns to. */
  function DefaultFilters(): FilterState {
    FilterState("", "all", "all", DateRange(None, None), Bounds(None, None), Bounds(None, None))
  }

  /** Case-insensitive search over description, source and destination. */
  predicate MatchesSearch(tx: Transaction, search: string) {
    search == "" ||
    var term := ToLower(search);
    Contains(ToLower(tx.description), term) || Contains(ToLower(tx.from), term) ||
    Contains(ToLower(tx.to), term)
  }

  predicate MatchesType(tx: Transaction, txType: string) {
    txType == "all" || tx.txType == txType
  }

  predicate MatchesStatus(tx: Transaction, status: string) {
    status == "all" || tx.status == status
  }

  predicate InDateRange(t: int, r: DateRange) {
    (r.from.Some? ==> r.from.value <= t) && (r.to.Some? ==> t <= r.to.value)
  }

  predicate InBounds(x: real, b: Bounds) {
    (b.min.Some? ==> b.min.value <= x) && (b.max.Some? ==> x <= b.max.value)
  }

  /** The per-transaction test of the history filter. */
  predicate TxMatches(f: FilterState, tx: Transaction) {
    MatchesSearch(tx, f.search) && MatchesType(tx, f.txType) && MatchesStatus(tx, f.status) &&
    InDateRange(tx.timestamp, f.dateRange) && InBounds(tx.amount, f.amountRange) &&
    InBounds(tx.gasUsed, f.gasRange)
  }

  function KeepTx(f: FilterState): Transaction -> bool {
    (tx: Transaction) => TxMatches(f, tx)
  }

  function ApplyFilters(f: FilterState, txs: seq<Transaction>): (r: seq<Transaction>)
    ensures |r| <= |txs|
  {
    Filter(txs, KeepTx(f))
  }

  /** A transaction is shown exactly when it is in the list and passes every test. */
  lemma ApplyFiltersKeptIff(f: FilterState, txs: seq<Transaction>, tx: Transaction)
    ensures tx in ApplyFilters(f, txs) <==>
              tx in txs && MatchesSearch(tx, f.search) && MatchesType(tx, f.txType) &&
              MatchesStatus(tx, f.status) && InDateRange(tx.timestamp, f.dateRange) &&
              InBounds(tx.amount, f.amountRange) && InBounds(tx.gasUsed, f.gasRange)
  {
    FilterMembers(txs, KeepTx(f), tx);
  }

  /** The shown transactions keep the order of the input. */
  lemma ApplyFiltersSubsequence(f: FilterState, txs: seq<Transaction>)
    ensures IsSubsequence(ApplyFilters(f, txs), txs)
  {
    FilterIsSubsequence(txs, KeepTx(f));
  }

  /** The default filters show every transaction. */
  lemma DefaultFiltersKeepAll(txs: seq<Transaction>)
    ensures ApplyFilters(DefaultFilters(), txs) == txs
  {
    FilterAll(txs, KeepTx(DefaultFilters()));
  }

  /**
   * Every range is inclusive at both ends: narrowing all three ranges to a
   * transaction's own date, amount and gas still shows it.
   */
  lemma RangeEndsInclusive(f: FilterState, txs: seq<Transaction>, tx: Transaction)
    requires tx in txs
    requires MatchesSearch(tx, f.search) && MatchesType(tx, f.txType) && MatchesStatus(tx, f.status)
    ensures tx in ApplyFilters(f.(dateRange := DateRange(Some(tx.timestamp), Some(tx.timestamp)),
                                  amountRange := Bounds(Some(tx.amount), Some(tx.amount)),
                                  gasRange := Bounds(Some(tx.gasUsed), Some(tx.gasUsed))), txs)
  {
    var g := f.(dateRange := DateRange(Some(tx.timestamp), Some(tx.timestamp)),
                amountRange := Bounds(Some(tx.amount), Some(tx.amount)),
                gasRange := Bounds(Some(tx.gasUsed), Some(tx.gasUsed)));
    FilterMembers(txs, KeepTx(g), tx);
  }

  /** An empty range end imposes no constraint. */
  lemma EmptyRangesImposeNothing(f: FilterState, txs: seq<Transaction>, tx: Transaction)
    requires tx in txs
    requires MatchesSearch(tx, f.search) && MatchesType(tx, f.txType) && MatchesStatus(tx, f.status)
    ensures tx in ApplyFilters(f.(dateRange := DateRange(None, None), amountRange := Bounds(None, None),
                                  gasRange := Bounds(None, None)), txs)
  {
    var g := f.(dateRange := DateRange(None, None), amountRange := Bounds(None, None),
                gasRange := Bounds(None, None));
    FilterMembers(txs, KeepTx(g), tx);
  }

  /** A named filter state. */
  datatype Preset = Preset(name: string, filters: FilterState)

  function PresetName(p: Preset): string {
    p.name
  }

  function NameIsNot(name: string): Preset -> bool {
    (p: Preset) => p.name != name
  }

  /** Saving a preset: any preset with that name is dropped and the new one goes last. */
  function SavePreset(presets: seq<Preset>, name: string, f: FilterState): (r: seq<Preset>)
    ensures |r| > 0 && r[|r| - 1] == Preset(name, f)
    ensures forall i :: 0 <= i < |r| - 1 ==> r[i].name != name
  {
    var kept := Filter(presets, NameIsNot(name));
    assert forall i :: 0 <= i < |kept| ==> kept[i].name != name by {
      forall i | 0 <= i < |kept| ensures kept[i].name != name {
        FilterMembers(presets, NameIsNot(name), kept[i]);
      }
    }
    kept + [Preset(name, f)]
  }

  /** The other presets survive a save exactly when their name differs. */
  lemma SavePresetMembers(presets: seq<Preset>, name: string, f: FilterState, p: Preset)
    ensures p in SavePreset(presets, name, f) <==>
              p == Preset(name, f) || (p in presets && p.name != name)
  {
    FilterMembers(presets, NameIsNot(name), p);
  }

  /** Saving keeps the other presets in their order. */
  lemma SavePresetKeepsOrder(presets: seq<Preset>, name: string, f: FilterState)
    ensures IsSubsequence(SavePreset(presets, name, f)[..|SavePreset(presets, name, f)| - 1], presets)
  {
    var r := SavePreset(presets, name, f);
    assert r[..|r| - 1] == Filter(presets, NameIsNot(name));
    FilterIsSubsequence(presets, NameIsNot(name));
  }

  /** Saving keeps preset names unique. */
  lemma SavePresetUniqueNames(presets: seq<Preset>, name: string, f: FilterState)
    requires NoDuplicates(Map(presets, PresetName))
    ensures NoDuplicates(Map(SavePreset(presets, name, f), PresetName))
  {
    var kept := Filter(presets, NameIsNot(name));
    FilterKeepsKeysDistinct(presets, NameIsNot(name), PresetName);
    var r := SavePreset(presets, name, f);
    assert r == kept + [Preset(name, f)];
    var m := Map(r, PresetName);
    forall i, j | 0 <= i < j < |m|
      ensures m[i] != m[j]
    {
      if j < |m| - 1 {
        assert m[i] == Map(kept, PresetName)[i] && m[j] == Map(kept, PresetName)[j];
      }
    }
  }

  /** The filters of the first preset with the given name. */
  function FindPreset(presets: seq<Preset>, name: string): (r: Option<FilterState>)
    ensures r.None? <==> forall i :: 0 <= i < |presets| ==> presets[i].name != name
    ensures r.Some? ==> exists i :: 0 <= i < |presets| && presets[i] == Preset(name, r.value) &&
                          forall k :: 0 <= k < i ==> presets[k].name != name
  {
    if |presets| == 0 then None
    else if presets[0].name == name then Some(presets[0].filters)
    else
      var rest := FindPreset(presets[1..], name);
      assert rest.Some? ==> exists i :: 1 <= i < |presets| && presets[i] == Preset(name, rest.value) &&
                              forall k :: 0 <= k < i ==> presets[k].name != name by {
        if rest.Some? {
          var i :| 0 <= i < |presets[1..]| && presets[1..][i] == Preset(name, rest.value) &&
                   forall k :: 0 <= k < i ==> presets[1..][k].name != name;
          assert forall k :: 1 <= k < i + 1 ==> presets[k].name != name by {
            forall k | 1 <= k < i + 1 ensures presets[k].name != name {
              assert presets[k] == presets[1..][k - 1];
            }
          }
        }
      }
      rest
  }

  /** A preset just saved is found again under its name. */
  lemma FindSavedPreset(presets: seq<Preset>, name: string, f: FilterState)
    ensures FindPreset(SavePreset(presets, name, f), name) == Some(f)
  {
    var r := SavePreset(presets, name, f);
    var found := FindPreset(r, name);
    assert r[|r| - 1].name == name;
    var i :| 0 <= i < |r| && r[i] == Preset(name, found.value) &&
             forall k :: 0 <= k < i ==> r[k].name != name;
    assert i == |r| - 1;
  }

  /** Milliseconds in a day. */
  const DayMs: int := 86400000

  /** The calendar day (UTC) a transaction falls on, as days since the epoch. */
  function DayOf(tx: Transaction): int {
    tx.timestamp / DayMs
  }

  const Tx1 := Transaction("1", "rebalance", "Rebalanced portfolio to higher yield protocols", 8500.0,
    "Compound USDT", "Aave USDC", 1705314600000, "completed", "0x1234...5678", 0.0023)
  const Tx2 := Transaction("2", "top-up", "Auto top-up MetaMask Card", 100.0,
    "Emergency Buffer", "MetaMask Card", 1705247100000, "completed", "0x2345...6789", 0.0018)
  const Tx3 := Transaction("3", "bridge", "Cross-chain transfer for better yield", 3000.0,
    "Ethereum", "Arbitrum", 1705137300000, "completed", "0x3456...7890", 0.0045)
  const Tx4 := Transaction("4", "deposit", "Deposited into Yearn DAI vault", 2720.50,
    "Wallet", "Yearn Finance", 1705069200000, "completed", "0x4567...8901", 0.0032)
  const Tx5 := Transaction("5", "rebalance", "Emergency rebalance due to protocol risk", 5000.0,
    "High Risk Protocol", "Aave USDC", 1704960000000, "completed", "0x5678...9012", 0.0041)

  /** The transaction list the screen ships with, newest first. */
  function MockTransactions(): seq<Transaction> {
    [Tx1, Tx2, Tx3, Tx4, Tx5]
  }

  /** The two presets the screen starts with; "Recent" starts at 2024-01-10T00:00:00Z. */
  function InitialPresets(): seq<Preset> {
    [Preset("High Value", DefaultFilters().(amountRange := Bounds(Some(1000.0), None))),
     Preset("Recent", DefaultFilters().(dateRange := DateRange(Some(1704844800000), None)))]
  }

  lemma InitialPresetNamesUnique()
    ensures NoDuplicates(Map(InitialPresets(), PresetName))
  {
    var m := Map(InitialPresets(), PresetName);
    assert m == ["High Value", "Recent"];
  }

  /** With only a type chosen, exactly the transactions of that type pass. */
  lemma TypeOnlyFilter(tx: Transaction, txType: string)
    ensures TxMatches(DefaultFilters().(txType := txType), tx) <==> txType == "all" || tx.txType == txType
  {
  }

  /** With only a minimum amount set, exactly the transactions of at least that amount pass. */
  lemma MinAmountOnlyFilter(tx: Transaction, m: real)
    ensures TxMatches(DefaultFilters().(amountRange := Bounds(Some(m), None)), tx) <==> m <= tx.amount
  {
  }

  /** Filtering the shipped list by type "rebalance" shows transactions 1 and 5. */
  lemma RebalanceShowsOneAndFive()
    ensures ApplyFilters(DefaultFilters().(txType := "rebalance"), MockTransactions()) == [Tx1, Tx5]
  {
    var p := KeepTx(DefaultFilters().(txType := "rebalance"));
    TypeOnlyFilter(Tx1, "rebalance");
    TypeOnlyFilter(Tx2, "rebalance");
    TypeOnlyFilter(Tx3, "rebalance");
    TypeOnlyFilter(Tx4, "rebalance");
    TypeOnlyFilter(Tx5, "rebalance");
    FilterOfFour(Tx1, Tx2, Tx3, Tx4, p);
    FilterAppend([Tx1, Tx2, Tx3, Tx4], Tx5, p);
    assert [Tx1, Tx2, Tx3, Tx4] + [Tx5] == MockTransactions();
  }

  /** A minimum amount of 1000 shows transactions 1, 3, 4 and 5. */
  lemma MinAmountThousandShowsAllButTopUp()
    ensures ApplyFilters(DefaultFilters().(amountRange := Bounds(Some(1000.0), None)), MockTransactions()) ==
            [Tx1, Tx3, Tx4, Tx5]
  {
    var p := KeepTx(DefaultFilters().(amountRange := Bounds(Some(1000.0), None)));
    MinAmountOnlyFilter(Tx1, 1000.0);
    MinAmountOnlyFilter(Tx2, 1000.0);
    MinAmountOnlyFilter(Tx3, 1000.0);
    MinAmountOnlyFilter(Tx4, 1000.0);
    MinAmountOnlyFilter(Tx5, 1000.0);
    FilterOfFour(Tx1, Tx2, Tx3, Tx4, p);
    FilterAppend([Tx1, Tx2, Tx3, Tx4], Tx5, p);
    assert [Tx1, Tx2, Tx3, Tx4] + [Tx5] == MockTransactions();
  }

  /** The "High Value" preset (amount at least 1000) shows transactions 1, 3, 4 and 5. */
  lemma HighValueShowsAllButTopUp()
    ensures FindPreset(InitialPresets(), "High Value").Some?
    ensures ApplyFilters(FindPreset(InitialPresets(), "High Value").value, MockTransactions()) ==
            [Tx1, Tx3, Tx4, Tx5]
  {
    var f := InitialPresets()[0].filters;
    assert f == DefaultFilters().(amountRange := Bounds(Some(1000.0), None));
    assert FindPreset(InitialPresets(), "High Value") == Some(f);
    MinAmountThousandShowsAllButTopUp();
  }

  /** The screen's filter state and its saved presets. */
  class TransactionHistory {
    var filters: FilterState
    var savedPresets: seq<Preset>

    constructor ()
      ensures filters == DefaultFilters() && savedPresets == InitialPresets()
    {
      filters := DefaultFilters();
      savedPresets := InitialPresets();
    }

    /** The transactions the screen shows. */
    function Shown(): (r: seq<Transaction>)
      reads this
      ensures forall tx :: tx in r <==> tx in MockTransactions() && TxMatches(filters, tx)
    {
      var txs := MockTransactions();
      assert forall tx :: tx in ApplyFilters(filters, txs) <==> tx in txs && TxMatches(filters, tx) by {
        forall tx ensures tx in ApplyFilters(filters, txs) <==> tx in txs && TxMatches(filters, tx) {
          ApplyFiltersKeptIff(filters, txs, tx);
        }
      }
      ApplyFilters(filters, txs)
    }

    /** The filter panel hands over a whole new filter state. */
    method SetFilters(f: FilterState)
      modifies this
      ensures filters == f && savedPresets == old(savedPresets)
    {
      filters := f;
    }

    method HandleSavePreset(name: string, f: FilterState)
      modifies this
      ensures savedPresets == SavePreset(old(savedPresets), name, f)
      ensures filters == old(filters)
    {
      savedPresets := SavePreset(savedPresets, name, f);
    }

    method HandleLoadPreset(presetFilters: FilterState)
      modifies this
      ensures filters == presetFilters && savedPresets == old(savedPresets)
    {
      filters := presetFilters;
    }

    method HandleClearFilters()
      modifies this
      ensures filters == DefaultFilters() && savedPresets == old(savedPresets)
      ensures Shown() == MockTransactions()
    {
      filters := DefaultFilters();
      DefaultFiltersKeepAll(MockTransactions());
    }
  }
}
