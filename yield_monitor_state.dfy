/**
 * The yield monitor's screen state: filter inputs, sort column and direction,
 * expanded rows, section toggles and the loading flag.
 */
module YieldMonitorState {
  import opened Common
  import opened YieldTypes
  import opened YieldData

  datatype ViewMode = MarketView | PersonalView

  /** The ten state variables; an empty APY box is `None`. */
  datatype Monitor = Monitor(
    searchTerm: string,
    selectedChain: string,
    sortField: SortField,
    sortDirection: SortDirection,
    minApy: Option<real>,
    maxApy: Option<real>,
    expandedRows: set<int>,
    myYieldsExpanded: bool,
    viewMode: ViewMode,
    isLoading: bool)

  function InitialMonitor(): Monitor {
    Monitor("", "all", ByApy, Desc, None, None, {}, true, PersonalView, false)
  }

  function Flip(d: SortDirection): SortDirection {
    if d == Asc then Desc else Asc
  }

  /**
   * Clicking a column header: the current column flips its direction, any
   * other column becomes the sort column, descending. Nothing else changes.
   */
  function OnSort(m: Monitor, field: SortField): (r: Monitor)
    ensures r.sortField == field
    ensures m.sortField == field ==> r.sortDirection != m.sortDirection
    ensures m.sortField != field ==> r.sortDirection == Desc
    ensures r.(sortField := m.sortField, sortDirection := m.sortDirection) == m
  {
    if m.sortField == field then m.(sortDirection := Flip(m.sortDirection))
    else m.(sortField := field, sortDirection := Desc)
  }

  /** Clicking the same header twice restores the direction. */
  lemma HandleSortTwice(m: Monitor)
    ensures OnSort(OnSort(m, m.sortField), m.sortField) == m
  {
  }

  /** A copy of the set with `i` added when absent and removed when present. */
  function Toggled(s: set<int>, i: int): (r: set<int>)
    ensures forall j :: j in r <==> (j == i) != (j in s)
  {
    if i in s then s - {i} else s + {i}
  }

  lemma {:induction false} ToggledTwice(s: set<int>, i: int)
    ensures Toggled(Toggled(s, i), i) == s
  {
    var t := Toggled(Toggled(s, i), i);
    forall j ensures j in t <==> j in s {
      assert j in Toggled(s, i) <==> (j == i) != (j in s);
    }
  }

  /** Expanding or collapsing row `index`: only its membership changes. */
  function OnToggleRow(m: Monitor, index: int): (r: Monitor)
    ensures forall j :: j in r.expandedRows <==> (j == index) != (j in m.expandedRows)
    ensures r.(expandedRows := m.expandedRows) == m
  {
    m.(expandedRows := Toggled(m.expandedRows, index))
  }

  /** Toggling the same row twice gives back the state. */
  lemma ToggleRowTwice(m: Monitor, index: int)
    ensures OnToggleRow(OnToggleRow(m, index), index) == m
  {
    ToggledTwice(m.expandedRows, index);
  }

  /**
   * Clearing the filters: search, chain and both APY boxes are reset and the
   * loading flag is raised; sort, expanded rows and view are kept.
   */
  function OnClearFilters(m: Monitor): (r: Monitor)
    ensures r.isLoading
    ensures r.searchTerm == "" && r.selectedChain == "all" && r.minApy.None? && r.maxApy.None?
    ensures r.sortField == m.sortField && r.sortDirection == m.sortDirection
    ensures r.expandedRows == m.expandedRows && r.myYieldsExpanded == m.myYieldsExpanded
    ensures r.viewMode == m.viewMode
  {
    m.(isLoading := true, searchTerm := "", selectedChain := "all", minApy := None, maxApy := None)
  }

  /** The table filter the screen state feeds to the table hook. */
  function FilterOf(m: Monitor): YieldFilter {
    YieldFilter(m.searchTerm, m.selectedChain, m.minApy, m.maxApy)
  }

  /** After clearing, the table filter keeps every row. */
  lemma ClearedFiltersKeepEverything(m: Monitor, rows: seq<YieldRow>)
    ensures Filter(rows, KeepRow(FilterOf(OnClearFilters(m)))) == rows
  {
    NeutralFilterKeepsEverything(rows);
  }

  /** The hook's state variables, updated by its handlers. */
  class MonitorState {
    var searchTerm: string
    var selectedChain: string
    var sortField: SortField
    var sortDirection: SortDirection
    var minApy: Option<real>
    var maxApy: Option<real>
    var expandedRows: set<int>
    var myYieldsExpanded: bool
    var viewMode: ViewMode
    var isLoading: bool

    function State(): Monitor
      reads this
    {
      Monitor(searchTerm, selectedChain, sortField, sortDirection, minApy, maxApy,
              expandedRows, myYieldsExpanded, viewMode, isLoading)
    }

    constructor ()
      ensures State() == InitialMonitor()
    {
      searchTerm := "";
      selectedChain := "all";
      sortField := ByApy;
      sortDirection := Desc;
      minApy := None;
      maxApy := None;
      expandedRows := {};
      myYieldsExpanded := true;
      viewMode := PersonalView;
      isLoading := false;
    }

    method HandleSort(field: SortField)
      modifies this
      ensures State() == OnSort(old(State()), field)
    {
      if sortField == field {
        sortDirection := if sortDirection == Asc then Desc else Asc;
      } else {
        sortField := field;
        sortDirection := Desc;
      }
    }

    method ToggleRowExpansion(index: int)
      modifies this
      ensures State() == OnToggleRow(old(State()), index)
    {
      var newExpanded := expandedRows;
      if index in newExpanded {
        newExpanded := newExpanded - {index};
      } else {
        newExpanded := newExpanded + {index};
      }
      expandedRows := newExpanded;
    }

    method HandleClearFilters()
      modifies this
      ensures State() == OnClearFilters(old(State()))
    {
      isLoading := true;
      searchTerm := "";
      selectedChain := "all";
      minApy := None;
      maxApy := None;
    }
  }
}
