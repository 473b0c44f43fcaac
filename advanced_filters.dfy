/**
 * The advanced filter panel of the transaction history: partial updates of
 * the filter state, reset, the active-filter count, the badges that clear one
 * filter each, and saving and loading named presets.
 */
module AdvancedFilters {
  import opened Common
  import opened Transactions

  /** The fields a change supplies; `None` leaves a field as it is. */
  datatype FilterUpdate = FilterUpdate(
    search: Option<string>,
    txType: Option<string>,
    status: Option<string>,
    dateRange: Option<DateRange>,
    amountRange: Option<Bounds>,
    gasRange: Option<Bounds>)

  const NoUpdate := FilterUpdate(None, None, None, None, None, None)

  /** Object spread: the supplied fields win, every other field is kept. */
  function Merged(f: FilterState, u: FilterUpdate): (r: FilterState)
    ensures u.search.Some? ==> r.search == u.search.value
    ensures u.search.None? ==> r.search == f.search
    ensures u.txType.Some? ==> r.txType == u.txType.value
    ensures u.txType.None? ==> r.txType == f.txType
    ensures u.status.Some? ==> r.status == u.status.value
    ensures u.status.None? ==> r.status == f.status
    ensures u.dateRange.Some? ==> r.dateRange == u.dateRange.value
    ensures u.dateRange.None? ==> r.dateRange == f.dateRange
    ensures u.amountRange.Some? ==> r.amountRange == u.amountRange.value
    ensures u.amountRange.None? ==> r.amountRange == f.amountRange
    ensures u.gasRange.Some? ==> r.gasRange == u.gasRange.value
    ensures u.gasRange.None? ==> r.gasRange == f.gasRange
  {
    FilterState(
      u.search.GetOr(f.search), u.txType.GetOr(f.txType), u.status.GetOr(f.status),
      u.dateRange.GetOr(f.dateRange), u.amountRange.GetOr(f.amountRange), u.gasRange.GetOr(f.gasRange))
  }

  /** An update that supplies nothing changes nothing. */
  lemma EmptyUpdateIsIdentity(f: FilterState)
    ensures Merged(f, NoUpdate) == f
  {
  }

  /** Applying the same update twice is the same as applying it once. */
  lemma UpdateIdempotent(f: FilterState, u: FilterUpdate)
    ensures Merged(Merged(f, u), u) == Merged(f, u)
  {
  }

  /** The six kinds of filter the panel counts. */
  datatype FilterKind = SearchFilter | TypeFilter | StatusFilter | DateFilter | AmountFilter | GasFilter

  function AllKinds(): seq<FilterKind> {
    [SearchFilter, TypeFilter, StatusFilter, DateFilter, AmountFilter, GasFilter]
  }

  /** A range is active when either end is set. */
  predicate IsActive(f: FilterState, k: FilterKind) {
    match k
    case SearchFilter => f.search != ""
    case TypeFilter => f.txType != "all"
    case StatusFilter => f.status != "all"
    case DateFilter => f.dateRange.from.Some? || f.dateRange.to.Some?
    case AmountFilter => f.amountRange.min.Some? || f.amountRange.max.Some?
    case GasFilter => f.gasRange.min.Some? || f.gasRange.max.Some?
  }

  function IsActiveIn(f: FilterState): FilterKind -> bool {
    (k: FilterKind) => IsActive(f, k)
  }

  /** The active kinds, in the panel's order. */
  function ActiveKinds(f: FilterState): seq<FilterKind> {
    Filter(AllKinds(), IsActiveIn(f))
  }

  function Indicator(b: bool): nat {
    if b then 1 else 0
  }

  lemma ActiveKindsCount(f: FilterState)
    ensures |ActiveKinds(f)| ==
            Indicator(IsActive(f, SearchFilter)) + Indicator(IsActive(f, TypeFilter)) +
            Indicator(IsActive(f, StatusFilter)) + Indicator(IsActive(f, DateFilter)) +
            Indicator(IsActive(f, AmountFilter)) + Indicator(IsActive(f, GasFilter))
  {
    var p := IsActiveIn(f);
    FilterOfSix(SearchFilter, TypeFilter, StatusFilter, DateFilter, AmountFilter, GasFilter, p);
  }

  /** Filtering six listed elements, element by element. */
  lemma FilterOfSix<T>(a: T, b: T, c: T, d: T, e: T, g: T, p: T -> bool)
    ensures |Filter([a, b, c, d, e, g], p)| ==
            Indicator(p(a)) + Indicator(p(b)) + Indicator(p(c)) + Indicator(p(d)) + Indicator(p(e)) + Indicator(p(g))
  {
    var s := [a, b, c, d, e, g];
    forall k | 0 <= k < 6 ensures |Filter(s[..k + 1], p)| == |Filter(s[..k], p)| + Indicator(p(s[k])) {
      assert s[..k + 1] == s[..k] + [s[k]];
      FilterAppend(s[..k], s[k], p);
    }
    assert s[..0] == [] && s[..6] == s;
    assert |Filter(s[..1], p)| == Indicator(p(a));
    assert |Filter(s[..2], p)| == Indicator(p(a)) + Indicator(p(b));
    assert |Filter(s[..3], p)| == Indicator(p(a)) + Indicator(p(b)) + Indicator(p(c));
    assert |Filter(s[..4], p)| == Indicator(p(a)) + Indicator(p(b)) + Indicator(p(c)) + Indicator(p(d));
    assert |Filter(s[..5], p)| ==
           Indicator(p(a)) + Indicator(p(b)) + Indicator(p(c)) + Indicator(p(d)) + Indicator(p(e));
  }

  /** The count lies in 0..6 and is 0 exactly for the default state. */
  lemma ActiveCountBounds(f: FilterState)
    ensures |ActiveKinds(f)| <= 6
    ensures |ActiveKinds(f)| == 0 <==> f == DefaultFilters()
  {
    ActiveKindsCount(f);
  }

  /** A range counts once whether one or both of its ends are set. */
  lemma RangeCountsOnce(f: FilterState, lo: real, hi: real)
    ensures |ActiveKinds(f.(amountRange := Bounds(Some(lo), None)))| ==
            |ActiveKinds(f.(amountRange := Bounds(Some(lo), Some(hi))))|
    ensures |ActiveKinds(f.(gasRange := Bounds(None, Some(hi))))| ==
            |ActiveKinds(f.(gasRange := Bounds(Some(lo), Some(hi))))|
  {
    ActiveKindsCount(f.(amountRange := Bounds(Some(lo), None)));
    ActiveKindsCount(f.(amountRange := Bounds(Some(lo), Some(hi))));
    ActiveKindsCount(f.(gasRange := Bounds(None, Some(hi))));
    ActiveKindsCount(f.(gasRange := Bounds(Some(lo), Some(hi))));
  }

  /** The count kept in a local variable, one test after another. */
  method GetActiveFilterCount(f: FilterState) returns (count: nat)
    ensures count == |ActiveKinds(f)|
    ensures count <= 6
    ensures count == 0 <==> f == DefaultFilters()
  {
    count := 0;
    if f.search != "" { count := count + 1; }
    if f.txType != "all" { count := count + 1; }
    if f.status != "all" { count := count + 1; }
    if f.dateRange.from.Some? || f.dateRange.to.Some? { count := count + 1; }
    if f.amountRange.min.Some? || f.amountRange.max.Some? { count := count + 1; }
    if f.gasRange.min.Some? || f.gasRange.max.Some? { count := count + 1; }
    ActiveKindsCount(f);
  }

  /** The badges shown under the panel, each with a button that clears it. */
  datatype Badge = SearchBadge | TypeBadge | StatusBadge

  function BadgeKind(b: Badge): FilterKind {
    match b
    case SearchBadge => SearchFilter
    case TypeBadge => TypeFilter
    case StatusBadge => StatusFilter
  }

  function BadgeUpdate(b: Badge): FilterUpdate {
    match b
    case SearchBadge => NoUpdate.(search := Some(""))
    case TypeBadge => NoUpdate.(txType := Some("all"))
    case StatusBadge => NoUpdate.(status := Some("all"))
  }

  /** Removing a badge clears exactly its own field. */
  lemma RemoveBadgeClearsOnlyItsField(f: FilterState, b: Badge)
    ensures b == SearchBadge ==> Merged(f, BadgeUpdate(b)) == f.(search := "")
    ensures b == TypeBadge ==> Merged(f, BadgeUpdate(b)) == f.(txType := "all")
    ensures b == StatusBadge ==> Merged(f, BadgeUpdate(b)) == f.(status := "all")
  {
  }

  /** Removing a shown badge lowers the active count by one. */
  lemma RemoveBadgeLowersCount(f: FilterState, b: Badge)
    requires IsActive(f, BadgeKind(b))
    ensures |ActiveKinds(Merged(f, BadgeUpdate(b)))| == |ActiveKinds(f)| - 1
  {
    ActiveKindsCount(f);
    ActiveKindsCount(Merged(f, BadgeUpdate(b)));
  }

  /** The panel's own state: the advanced section toggle and the preset-name box. */
  class FilterPanel {
    var showAdvanced: bool
    var presetName: string
    var showSavePreset: bool

    constructor ()
      ensures !showAdvanced && presetName == "" && !showSavePreset
    {
      showAdvanced := false;
      presetName := "";
      showSavePreset := false;
    }

    method UpdateFilters(history: TransactionHistory, u: FilterUpdate)
      modifies history
      ensures history.filters == Merged(old(history.filters), u)
      ensures history.savedPresets == old(history.savedPresets)
    {
      history.SetFilters(Merged(history.filters, u));
    }

    method ResetFilters(history: TransactionHistory)
      modifies history
      ensures history.filters == DefaultFilters()
      ensures history.savedPresets == old(history.savedPresets)
    {
      history.SetFilters(DefaultFilters());
    }

    method RemoveBadge(history: TransactionHistory, b: Badge)
      modifies history
      ensures history.filters == Merged(old(history.filters), BadgeUpdate(b))
      ensures history.savedPresets == old(history.savedPresets)
    {
      UpdateFilters(history, BadgeUpdate(b));
    }

    method ToggleSavePreset()
      modifies this
      ensures showSavePreset == !old(showSavePreset)
      ensures presetName == old(presetName) && showAdvanced == old(showAdvanced)
    {
      showSavePreset := !showSavePreset;
    }

    method SetPresetName(name: string)
      modifies this
      ensures presetName == name
      ensures showSavePreset == old(showSavePreset) && showAdvanced == old(showAdvanced)
    {
      presetName := name;
    }

    /**
     * A blank name (empty after trimming) does nothing; otherwise the current
     * filters are saved under the trimmed name and the name box is cleared
     * and hidden.
     */
    method HandleSavePreset(history: TransactionHistory)
      modifies this, history
      ensures Trim(old(presetName)) == "" ==>
                presetName == old(presetName) && showSavePreset == old(showSavePreset) &&
                history.savedPresets == old(history.savedPresets)
      ensures Trim(old(presetName)) != "" ==>
                presetName == "" && !showSavePreset &&
                history.savedPresets == SavePreset(old(history.savedPresets), Trim(old(presetName)), old(history.filters))
      ensures history.filters == old(history.filters) && showAdvanced == old(showAdvanced)
    {
      var trimmed := Trim(presetName);
      if trimmed != "" {
        history.HandleSavePreset(trimmed, history.filters);
        presetName := "";
        showSavePreset := false;
      }
    }

    /** Picking a preset by name loads the first one so named; an unknown name does nothing. */
    method LoadPresetByName(history: TransactionHistory, name: string)
      modifies history
      ensures FindPreset(old(history.savedPresets), name).Some? ==>
                history.filters == FindPreset(old(history.savedPresets), name).value
      ensures FindPreset(old(history.savedPresets), name).None? ==>
                history.filters == old(history.filters)
      ensures history.savedPresets == old(history.savedPresets)
    {
      var preset := FindPreset(history.savedPresets, name);
      if preset.Some? {
        history.HandleLoadPreset(preset.value);
      }
    }
  }
}
