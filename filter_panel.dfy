/**
 * The FilterPanel component: its prop records, the pure lookups it renders from
 * (initial sort value, per-section active count, section toggling), and its local
 * state with the handlers that change it and fire the optional callbacks.
 */
module FilterPanel {
  import opened Wrappers

  datatype SortOption = SortOption(name: string, value: string, current: bool)
  datatype FilterOption = FilterOption(value: string, labelText: string, checked: bool)
  datatype FilterSection = FilterSection(id: string, name: string, options: seq<FilterOption>)
  datatype ActiveFilter = ActiveFilter(value: string, labelText: string)

  // ---------------------------------------------------------------------
  // Initial sort value
  // ---------------------------------------------------------------------

  /** The index of the first sort option marked current (`find`), if any. */
  function FirstCurrent(options: seq<SortOption>): (r: Option<nat>)
    ensures r.Some? ==> r.value < |options| && options[r.value].current
    ensures r.Some? ==> forall j :: 0 <= j < r.value ==> !options[j].current
    ensures r.None? <==> forall j :: 0 <= j < |options| ==> !options[j].current
    decreases |options|
  {
    if options == [] then None
    else if options[0].current then Some(0)
    else match FirstCurrent(options[1..])
      case None => None
      case Some(i) => Some(i + 1)
  }

  /** The initial `currentSortValue`: the value of the first current option, or "" when none is current. */
  function InitialSortValue(options: seq<SortOption>): (v: string)
    ensures (forall j :: 0 <= j < |options| ==> !options[j].current) ==> v == ""
    ensures forall i :: (0 <= i < |options| && options[i].current
      && (forall j :: 0 <= j < i ==> !options[j].current)) ==> v == options[i].value
  {
    match FirstCurrent(options)
    case Some(i) => options[i].value
    case None => ""
  }

  // ---------------------------------------------------------------------
  // Active filters per section
  // ---------------------------------------------------------------------

  /** The index of the first section with the given id (`find`), if any. */
  function FindSection(filters: seq<FilterSection>, sectionId: string): (r: Option<nat>)
    ensures r.Some? ==> r.value < |filters| && filters[r.value].id == sectionId
    ensures r.Some? ==> forall j :: 0 <= j < r.value ==> filters[j].id != sectionId
    ensures r.None? <==> forall j :: 0 <= j < |filters| ==> filters[j].id != sectionId
    decreases |filters|
  {
    if filters == [] then None
    else if filters[0].id == sectionId then Some(0)
    else match FindSection(filters[1..], sectionId)
      case None => None
      case Some(i) => Some(i + 1)
  }

  /** The option values of a section (`options.map(option => option.value)`). */
  function OptionValues(options: seq<FilterOption>): seq<string>
  {
    seq(|options|, k requires 0 <= k < |options| => options[k].value)
  }

  /** The option values of the first section with the given id, or [] for an unknown id. */
  function SectionValues(filters: seq<FilterSection>, sectionId: string): seq<string>
  {
    match FindSection(filters, sectionId)
    case Some(i) => OptionValues(filters[i].options)
    case None => []
  }

  /** The active filters whose value is among `values`, in order (`filter`). */
  function ActiveAmong(active: seq<ActiveFilter>, values: seq<string>): (r: seq<ActiveFilter>)
    ensures |r| <= |active|
    decreases |active|
  {
    if active == [] then []
    else ActiveAmong(active[..|active| - 1], values)
         + (if active[|active| - 1].value in values then [active[|active| - 1]] else [])
  }

  /** `getActiveFitlersCountForSection`: how many active filters belong to the section. */
  function ActiveCountForSection(filters: seq<FilterSection>, active: seq<ActiveFilter>, sectionId: string): nat
  {
    |ActiveAmong(active, SectionValues(filters, sectionId))|
  }

  /** The positions of the active filters whose value is among `values`. */
  ghost function MatchingPositions(active: seq<ActiveFilter>, values: seq<string>): set<nat>
  {
    set k: nat | k < |active| && active[k].value in values
  }

  /** Extending the active list by one entry adds its position exactly when it matches. */
  lemma PositionsStep(active: seq<ActiveFilter>, values: seq<string>)
    requires active != []
    ensures var n := |active| - 1;
      MatchingPositions(active, values)
        == MatchingPositions(active[..n], values) + (if active[n].value in values then {n} else {})
  {
    var n := |active| - 1;
    var init := active[..n];
    assert forall k :: 0 <= k < n ==> init[k] == active[k];
  }

  lemma {:induction false} ActiveAmongCounts(active: seq<ActiveFilter>, values: seq<string>)
    ensures |ActiveAmong(active, values)| == |MatchingPositions(active, values)|
    decreases |active|
  {
    if active != [] {
      var n := |active| - 1;
      ActiveAmongCounts(active[..n], values);
      PositionsStep(active, values);
      assert n !in MatchingPositions(active[..n], values);
    }
  }

  /**
   * The count of a section is the number of positions of `activeFilters` whose value is an
   * option value of the first section with that id; it is 0 for an unknown id and never
   * exceeds the number of active filters; it is positive exactly when some active filter
   * belongs to the section.
   */
  lemma ActiveCountSpec(filters: seq<FilterSection>, active: seq<ActiveFilter>, sectionId: string)
    ensures var n := ActiveCountForSection(filters, active, sectionId);
      && n == |MatchingPositions(active, SectionValues(filters, sectionId))|
      && n <= |active|
      && ((forall j :: 0 <= j < |filters| ==> filters[j].id != sectionId) ==> n == 0)
      && (n > 0 <==> exists k :: 0 <= k < |active| && active[k].value in SectionValues(filters, sectionId))
  {
    var values := SectionValues(filters, sectionId);
    var positions := MatchingPositions(active, values);
    ActiveAmongCounts(active, values);
    if exists k :: 0 <= k < |active| && active[k].value in values {
      var k :| 0 <= k < |active| && active[k].value in values;
      assert k in positions;
    }
  }

  /** A value belongs to the first section with the given id exactly when it is one of its options' values. */
  lemma SectionValuesSpec(filters: seq<FilterSection>, sectionId: string, v: string)
    ensures v in SectionValues(filters, sectionId) <==>
      exists i :: 0 <= i < |filters| && filters[i].id == sectionId
        && (forall j :: 0 <= j < i ==> filters[j].id != sectionId)
        && exists o :: o in filters[i].options && o.value == v
  {
    match FindSection(filters, sectionId)
    case None =>
    case Some(i) =>
      var opts := filters[i].options;
      if v in OptionValues(opts) {
        var k :| 0 <= k < |opts| && OptionValues(opts)[k] == v;
        assert opts[k] in opts;
      }
      if exists o :: o in opts && o.value == v {
        var o :| o in opts && o.value == v;
        var k :| 0 <= k < |opts| && opts[k] == o;
        assert OptionValues(opts)[k] == v;
      }
      forall i' | 0 <= i' < |filters| && filters[i'].id == sectionId
        && (forall j :: 0 <= j < i' ==> filters[j].id != sectionId)
        ensures i' == i
      {
      }
  }

  // ---------------------------------------------------------------------
  // Expanded sections
  // ---------------------------------------------------------------------

  /** `prev.filter(id => id !== x)`: every occurrence of x removed, the rest in order. */
  function RemoveAll(s: seq<string>, x: string): (r: seq<string>)
    ensures forall y :: y in r <==> y in s && y != x
    ensures |r| <= |s|
    decreases |s|
  {
    if s == [] then []
    else RemoveAll(s[..|s| - 1], x) + (if s[|s| - 1] == x then [] else [s[|s| - 1]])
  }

  /** The next expanded list of `toggleSection`: drop the id if present, otherwise append it. */
  function Toggle(expanded: seq<string>, sectionId: string): (r: seq<string>)
    ensures sectionId in r <==> sectionId !in expanded
    ensures forall y :: y != sectionId ==> (y in r <==> y in expanded)
    ensures sectionId !in expanded ==> |r| == |expanded| + 1 && r[..|expanded|] == expanded && r[|expanded|..] == [sectionId]
  {
    if sectionId in expanded then RemoveAll(expanded, sectionId) else expanded + [sectionId]
  }

  /** No id occurs twice. */
  predicate NoDuplicates(s: seq<string>)
  {
    forall i, j :: 0 <= i < j < |s| ==> s[i] != s[j]
  }

  lemma {:induction false} RemoveAllAbsent(s: seq<string>, x: string)
    requires x !in s
    ensures RemoveAll(s, x) == s
    decreases |s|
  {
    if s != [] {
      RemoveAllAbsent(s[..|s| - 1], x);
      assert s[..|s| - 1] + [s[|s| - 1]] == s;
    }
  }

  lemma {:induction false} RemoveAllIdempotent(s: seq<string>, x: string)
    ensures RemoveAll(RemoveAll(s, x), x) == RemoveAll(s, x)
  {
    RemoveAllAbsent(RemoveAll(s, x), x);
  }

  lemma {:induction false} RemoveAllKeepsNoDuplicates(s: seq<string>, x: string)
    requires NoDuplicates(s)
    ensures NoDuplicates(RemoveAll(s, x))
    decreases |s|
  {
    if s != [] {
      var init := s[..|s| - 1];
      assert NoDuplicates(init) by {
        forall i, j | 0 <= i < j < |init| ensures init[i] != init[j] {
          assert init[i] == s[i] && init[j] == s[j];
        }
      }
      RemoveAllKeepsNoDuplicates(init, x);
      var last := s[|s| - 1];
      assert last !in init by {
        forall i | 0 <= i < |init| ensures init[i] != last { assert init[i] == s[i]; }
      }
      assert last !in RemoveAll(init, x);
    }
  }

  /** Toggling changes only the toggled id: every other id keeps its relative order. */
  lemma ToggleKeepsOthers(expanded: seq<string>, sectionId: string)
    ensures RemoveAll(Toggle(expanded, sectionId), sectionId) == RemoveAll(expanded, sectionId)
  {
    if sectionId in expanded {
      RemoveAllIdempotent(expanded, sectionId);
    } else {
      assert (expanded + [sectionId])[..|expanded|] == expanded;
    }
  }

  /** Toggling an id that is not expanded, twice, restores the list. */
  lemma ToggleTwiceRestores(expanded: seq<string>, sectionId: string)
    requires sectionId !in expanded
    ensures Toggle(Toggle(expanded, sectionId), sectionId) == expanded
  {
    assert (expanded + [sectionId])[..|expanded|] == expanded;
    RemoveAllAbsent(expanded, sectionId);
  }

  /** A list without duplicates stays without duplicates under toggling. */
  lemma ToggleKeepsNoDuplicates(expanded: seq<string>, sectionId: string)
    requires NoDuplicates(expanded)
    ensures NoDuplicates(Toggle(expanded, sectionId))
  {
    if sectionId in expanded {
      RemoveAllKeepsNoDuplicates(expanded, sectionId);
    }
  }

  // ---------------------------------------------------------------------
  // Component state and handlers
  // ---------------------------------------------------------------------

  /** A call of one of the optional callback props. */
  datatype Callback =
    | SortChanged(value: string)
    | FilterChanged(sectionId: string, value: string, checked: bool)
    | FilterRemoved(filter: ActiveFilter)

  /**
   * One mounted FilterPanel: the props of the latest render, the three `useState` hooks,
   * and the log of callback calls made so far. A `has…` flag is false when the optional
   * callback prop was not passed.
   */
  class FilterPanelState {
    var sortOptions: seq<SortOption>
    var filters: seq<FilterSection>
    var activeFilters: seq<ActiveFilter>
    var hasOnSortChange: bool
    var hasOnFilterChange: bool
    var hasOnFilterRemove: bool

    var isOpenMobile: bool
    var expandedSections: seq<string>
    var currentSortValue: string

    var calls: seq<Callback>

    /** The first render: closed mobile sheet, no expanded section, the initial sort value. */
    constructor (sortOptions: seq<SortOption>, filters: seq<FilterSection>, activeFilters: seq<ActiveFilter>,
                 hasOnSortChange: bool, hasOnFilterChange: bool, hasOnFilterRemove: bool)
      ensures this.sortOptions == sortOptions && this.filters == filters && this.activeFilters == activeFilters
      ensures this.hasOnSortChange == hasOnSortChange && this.hasOnFilterChange == hasOnFilterChange
      ensures this.hasOnFilterRemove == hasOnFilterRemove
      ensures !isOpenMobile && expandedSections == []
      ensures currentSortValue == InitialSortValue(sortOptions)
      ensures calls == []
    {
      this.sortOptions, this.filters, this.activeFilters := sortOptions, filters, activeFilters;
      this.hasOnSortChange, this.hasOnFilterChange, this.hasOnFilterRemove :=
        hasOnSortChange, hasOnFilterChange, hasOnFilterRemove;
      isOpenMobile := false;
      expandedSections := [];
      currentSortValue := InitialSortValue(sortOptions);
      calls := [];
    }

    /**
     * A later render with new props: the hooks keep their state, so `currentSortValue` is not
     * recomputed from the new sort options.
     */
    method Rerender(sortOptions: seq<SortOption>, filters: seq<FilterSection>, activeFilters: seq<ActiveFilter>,
                    hasOnSortChange: bool, hasOnFilterChange: bool, hasOnFilterRemove: bool)
      modifies this
      ensures this.sortOptions == sortOptions && this.filters == filters && this.activeFilters == activeFilters
      ensures this.hasOnSortChange == hasOnSortChange && this.hasOnFilterChange == hasOnFilterChange
      ensures this.hasOnFilterRemove == hasOnFilterRemove
      ensures isOpenMobile == old(isOpenMobile) && expandedSections == old(expandedSections)
      ensures currentSortValue == old(currentSortValue) && calls == old(calls)
    {
      this.sortOptions, this.filters, this.activeFilters := sortOptions, filters, activeFilters;
      this.hasOnSortChange, this.hasOnFilterChange, this.hasOnFilterRemove :=
        hasOnSortChange, hasOnFilterChange, hasOnFilterRemove;
    }

    /** `handleSortChange`: select the value and report it once to `onSortChange`. */
    method HandleSortChange(value: string)
      modifies this`currentSortValue, this`calls
      ensures currentSortValue == value
      ensures calls == old(calls) + (if hasOnSortChange then [SortChanged(value)] else [])
    {
      currentSortValue := value;
      if hasOnSortChange {
        calls := calls + [SortChanged(value)];
      }
    }

    /** `handleFilterChange`: forward the three arguments unchanged to `onFilterChange`; no local state changes. */
    method HandleFilterChange(sectionId: string, value: string, checked: bool)
      modifies this`calls
      ensures calls == old(calls) + (if hasOnFilterChange then [FilterChanged(sectionId, value, checked)] else [])
    {
      if hasOnFilterChange {
        calls := calls + [FilterChanged(sectionId, value, checked)];
      }
    }

    /** `handleFilterRemove`: forward the filter unchanged to `onFilterRemove`; no local state changes. */
    method HandleFilterRemove(filter: ActiveFilter)
      modifies this`calls
      ensures calls == old(calls) + (if hasOnFilterRemove then [FilterRemoved(filter)] else [])
    {
      if hasOnFilterRemove {
        calls := calls + [FilterRemoved(filter)];
      }
    }

    /** `toggleSection`: the section's expanded state flips and no other section's does. */
    method ToggleSection(sectionId: string)
      modifies this`expandedSections
      ensures expandedSections == Toggle(old(expandedSections), sectionId)
      ensures IsExpanded(sectionId) <==> !old(IsExpanded(sectionId))
      ensures forall id :: id != sectionId ==> (IsExpanded(id) <==> old(IsExpanded(id)))
    {
      expandedSections := Toggle(expandedSections, sectionId);
    }

    /** `setIsOpenMobile`, called by the sheet's `onOpenChange` and by the mobile "Filtry" button. */
    method SetIsOpenMobile(open: bool)
      modifies this`isOpenMobile
      ensures isOpenMobile == open
    {
      isOpenMobile := open;
    }

    /** A section is rendered expanded (rotated chevron, visible options) iff its id is expanded. */
    predicate IsExpanded(sectionId: string)
      reads this
    {
      sectionId in expandedSections
    }

    /** The count badge next to a section name is rendered only for a positive count. */
    predicate ShowsCountBadge(sectionId: string)
      reads this
    {
      ActiveCountForSection(filters, activeFilters, sectionId) > 0
    }

    /** The strip of active filters is rendered only when there is at least one. */
    predicate ShowsActiveStrip()
      reads this
    {
      |activeFilters| > 0
    }
  }

  /**
   * A count badge is shown for a section exactly when some active filter carries a value of
   * one of the options of the first section with that id; never for an unknown id.
   */
  lemma BadgeShown(panel: FilterPanelState, sectionId: string)
    ensures panel.ShowsCountBadge(sectionId) <==>
      exists k :: 0 <= k < |panel.activeFilters|
        && panel.activeFilters[k].value in SectionValues(panel.filters, sectionId)
    ensures (forall j :: 0 <= j < |panel.filters| ==> panel.filters[j].id != sectionId)
      ==> !panel.ShowsCountBadge(sectionId)
  {
    ActiveCountSpec(panel.filters, panel.activeFilters, sectionId);
  }
}
