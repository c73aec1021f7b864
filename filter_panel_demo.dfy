/**
 * The FilterPanel demo page: the state it keeps for the panel's props (sort options, filter
 * sections, active filters) and the three handlers it passes as callbacks.
 */
module FilterPanelDemo {
  import opened Wrappers
  import opened FilterPanel

  // ---------------------------------------------------------------------
  // The demo's initial data
  // ---------------------------------------------------------------------

  const InitialSortOptions: seq<SortOption> := [
    SortOption("Most Popular", "popular", true),
    SortOption("Best Rating", "rating", false),
    SortOption("Newest", "newest", false),
    SortOption("Price: Low to High", "price-asc", false),
    SortOption("Price: High to Low", "price-desc", false)
  ]

  const CategorySection: FilterSection := FilterSection("category", "Category", [
    FilterOption("new-arrivals", "All New Arrivals", false),
    FilterOption("tees", "Tees", false),
    FilterOption("objects", "Objects", true),
    FilterOption("sweatshirts", "Sweatshirts", false),
    FilterOption("pants-shorts", "Pants & Shorts", false)
  ])

  const ColorSection: FilterSection := FilterSection("color", "Color", [
    FilterOption("white", "White", false),
    FilterOption("beige", "Beige", false),
    FilterOption("blue", "Blue", false),
    FilterOption("brown", "Brown", false),
    FilterOption("green", "Green", false),
    FilterOption("purple", "Purple", false)
  ])

  const SizesSection: FilterSection := FilterSection("sizes", "Sizes", [
    FilterOption("xs", "XS", false),
    FilterOption("s", "S", false),
    FilterOption("m", "M", false),
    FilterOption("l", "L", false),
    FilterOption("xl", "XL", false),
    FilterOption("2xl", "2XL", false)
  ])

  const InitialFilters: seq<FilterSection> := [CategorySection, ColorSection, SizesSection]

  const InitialActiveFilters: seq<ActiveFilter> := [ActiveFilter("objects", "Objects")]

  /** The demo starts with "popular" selected, distinct section ids, and its one active filter matching its one checked option. */
  lemma InitialState()
    ensures InitialSortValue(InitialSortOptions) == "popular"
    ensures UniqueIds(InitialFilters)
    ensures Consistent(InitialFilters, InitialActiveFilters)
  {
    assert FirstCurrent(InitialSortOptions) == Some(0);
    var f := InitialFilters;
    assert f[0].options[2].checked && f[0].options[2].value == "objects";
    assert "objects" in CheckedValues(f);
    forall x | x in CheckedValues(f) ensures x == "objects" {
      var i, j :| 0 <= i < |f| && 0 <= j < |f[i].options| && f[i].options[j].checked && f[i].options[j].value == x;
      assert i == 0 && j == 2;
    }
    assert ActiveFilter("objects", "Objects") in InitialActiveFilters;
  }

  /** The section each of the demo's option values belongs to. */
  function DemoSectionOf(value: string): string
  {
    if value in ["new-arrivals", "tees", "objects", "sweatshirts", "pants-shorts"] then "category"
    else if value in ["white", "beige", "blue", "brown", "green", "purple"] then "color"
    else "sizes"
  }

  lemma SectionTagged(section: FilterSection)
    requires section in InitialFilters
    ensures forall j :: 0 <= j < |section.options| ==> DemoSectionOf(section.options[j].value) == section.id
  {
    if section == CategorySection {
    } else if section == ColorSection {
    } else {
    }
  }

  /** No option value of the demo's initial data is offered by two sections. */
  lemma InitialOwnership()
    ensures SectionsOwnValues(InitialFilters)
  {
    var f := InitialFilters;
    SectionTagged(f[0]);
    SectionTagged(f[1]);
    SectionTagged(f[2]);
    assert forall i, j :: 0 <= i < |f| && 0 <= j < |f[i].options| ==> DemoSectionOf(f[i].options[j].value) == f[i].id;
  }

  // ---------------------------------------------------------------------
  // The new lists each handler builds
  // ---------------------------------------------------------------------

  /** `handleSortChange`'s new sort options: exactly the options with that value are current. */
  function SelectSort(options: seq<SortOption>, value: string): (r: seq<SortOption>)
    ensures |r| == |options|
    ensures forall i :: 0 <= i < |r| ==>
      r[i].name == options[i].name && r[i].value == options[i].value && (r[i].current <==> options[i].value == value)
  {
    seq(|options|, i requires 0 <= i < |options| => options[i].(current := options[i].value == value))
  }

  /** An option list with `checked` set on the options carrying `value`, the others untouched. */
  function CheckOptions(options: seq<FilterOption>, value: string, checked: bool): (r: seq<FilterOption>)
    ensures |r| == |options|
    ensures forall j :: 0 <= j < |r| ==>
      && r[j].value == options[j].value && r[j].labelText == options[j].labelText
      && r[j].checked == (if options[j].value == value then checked else options[j].checked)
  {
    seq(|options|, j requires 0 <= j < |options| =>
      if options[j].value == value then options[j].(checked := checked) else options[j])
  }

  /** `handleFilterChange`'s new sections: `CheckOptions` inside every section with the id, the rest untouched. */
  function SetChecked(filters: seq<FilterSection>, sectionId: string, value: string, checked: bool): (r: seq<FilterSection>)
    ensures |r| == |filters|
    ensures forall i :: 0 <= i < |r| ==>
      && r[i].id == filters[i].id && r[i].name == filters[i].name
      && r[i].options == (if filters[i].id == sectionId then CheckOptions(filters[i].options, value, checked)
                          else filters[i].options)
  {
    seq(|filters|, i requires 0 <= i < |filters| =>
      if filters[i].id == sectionId then filters[i].(options := CheckOptions(filters[i].options, value, checked))
      else filters[i])
  }

  /** `handleFilterRemove`'s new sections: every option carrying the value unchecked, in every section. */
  function UncheckEverywhere(filters: seq<FilterSection>, value: string): (r: seq<FilterSection>)
    ensures |r| == |filters|
    ensures forall i :: 0 <= i < |r| ==>
      && r[i].id == filters[i].id && r[i].name == filters[i].name
      && r[i].options == CheckOptions(filters[i].options, value, false)
  {
    seq(|filters|, i requires 0 <= i < |filters| => filters[i].(options := CheckOptions(filters[i].options, value, false)))
  }

  /** The index of the first option carrying the value (`find`), if any. */
  function FindOption(options: seq<FilterOption>, value: string): (r: Option<nat>)
    ensures r.Some? ==> r.value < |options| && options[r.value].value == value
    ensures r.Some? ==> forall j :: 0 <= j < r.value ==> options[j].value != value
    ensures r.None? <==> forall j :: 0 <= j < |options| ==> options[j].value != value
    decreases |options|
  {
    if options == [] then None
    else if options[0].value == value then Some(0)
    else match FindOption(options[1..], value)
      case None => None
      case Some(j) => Some(j + 1)
  }

  /** The option `handleFilterChange` looks up for its label: in the first section with the id. */
  function LookUpOption(filters: seq<FilterSection>, sectionId: string, value: string): Option<FilterOption>
  {
    match FindSection(filters, sectionId)
    case None => None
    case Some(i) =>
      match FindOption(filters[i].options, value)
      case None => None
      case Some(j) => Some(filters[i].options[j])
  }

  /** `activeFilters.filter(f => f.value !== value)`. */
  function RemoveValue(active: seq<ActiveFilter>, value: string): (r: seq<ActiveFilter>)
    ensures forall a :: a in r <==> a in active && a.value != value
    ensures |r| <= |active|
    decreases |active|
  {
    if active == [] then []
    else RemoveValue(active[..|active| - 1], value)
         + (if active[|active| - 1].value == value then [] else [active[|active| - 1]])
  }

  /** `handleFilterChange`'s new active filters. */
  function ActiveAfterChange(filters: seq<FilterSection>, active: seq<ActiveFilter>,
                             sectionId: string, value: string, checked: bool): seq<ActiveFilter>
  {
    if checked then
      match LookUpOption(filters, sectionId, value)
      case Some(o) => active + [ActiveFilter(value, o.labelText)]
      case None => active
    else RemoveValue(active, value)
  }

  // ---------------------------------------------------------------------
  // Properties of the new lists
  // ---------------------------------------------------------------------

  /** Removing a value keeps the other entries in their order: it distributes over concatenation. */
  lemma {:induction false} RemoveValueAppend(a: seq<ActiveFilter>, b: seq<ActiveFilter>, value: string)
    ensures RemoveValue(a + b, value) == RemoveValue(a, value) + RemoveValue(b, value)
    decreases |b|
  {
    if b != [] {
      var n := |b| - 1;
      assert (a + b)[..|a + b| - 1] == a + b[..n];
      RemoveValueAppend(a, b[..n], value);
    } else {
      assert a + b == a;
    }
  }

  /** Removing a value no entry carries changes nothing. */
  lemma {:induction false} RemoveValueAbsent(active: seq<ActiveFilter>, value: string)
    requires forall k :: 0 <= k < |active| ==> active[k].value != value
    ensures RemoveValue(active, value) == active
    decreases |active|
  {
    if active != [] {
      RemoveValueAbsent(active[..|active| - 1], value);
      assert active[..|active| - 1] + [active[|active| - 1]] == active;
    }
  }

  /**
   * After a sort change the panel's initial-value lookup over the new options yields the chosen
   * value when some option carries it, and "" otherwise.
   */
  lemma SelectSortPicks(options: seq<SortOption>, value: string)
    ensures InitialSortValue(SelectSort(options, value))
         == if exists i :: 0 <= i < |options| && options[i].value == value then value else ""
  {
    var r := SelectSort(options, value);
    match FirstCurrent(r)
    case None =>
    case Some(i) =>
  }

  /** Selecting the same sort value twice is selecting it once. */
  lemma SelectSortIdempotent(options: seq<SortOption>, value: string)
    ensures SelectSort(SelectSort(options, value), value) == SelectSort(options, value)
  {
  }

  /**
   * When checking a value in a section that has an option for it, the option found is the
   * first option with that value in the first section with that id, and its label is appended;
   * when no such option exists the active filters are unchanged.
   */
  lemma ActiveAfterCheck(filters: seq<FilterSection>, active: seq<ActiveFilter>, sectionId: string, value: string)
    ensures var r := ActiveAfterChange(filters, active, sectionId, value, true);
      match LookUpOption(filters, sectionId, value)
      case Some(o) => o.value == value && r == active + [ActiveFilter(value, o.labelText)]
                      && exists i, j :: && 0 <= i < |filters| && filters[i].id == sectionId
                                        && (forall i' :: 0 <= i' < i ==> filters[i'].id != sectionId)
                                        && 0 <= j < |filters[i].options| && filters[i].options[j] == o
                                        && (forall j' :: 0 <= j' < j ==> filters[i].options[j'].value != value)
      case None => r == active
  {
    match FindSection(filters, sectionId)
    case None =>
    case Some(i) =>
      match FindOption(filters[i].options, value)
      case None =>
      case Some(j) =>
        assert filters[i].options[j] == LookUpOption(filters, sectionId, value).value;
  }

  // ---------------------------------------------------------------------
  // The consistency of active filters with checked options
  // ---------------------------------------------------------------------

  /** The values of the active filters. */
  ghost function ActiveValues(active: seq<ActiveFilter>): set<string>
  {
    set a | a in active :: a.value
  }

  /** The values of the checked options, across all sections. */
  ghost function CheckedValues(filters: seq<FilterSection>): set<string>
  {
    set i, j | 0 <= i < |filters| && 0 <= j < |filters[i].options| && filters[i].options[j].checked
      :: filters[i].options[j].value
  }

  /** The active filters name exactly the checked options. */
  ghost predicate Consistent(filters: seq<FilterSection>, active: seq<ActiveFilter>)
  {
    ActiveValues(active) == CheckedValues(filters)
  }

  /** No two sections share an id. */
  predicate UniqueIds(filters: seq<FilterSection>)
  {
    forall i, j :: 0 <= i < j < |filters| ==> filters[i].id != filters[j].id
  }

  /** Every option carrying the value lies in a section with the given id. */
  predicate OnlyIn(filters: seq<FilterSection>, sectionId: string, value: string)
  {
    forall i, j :: 0 <= i < |filters| && 0 <= j < |filters[i].options| && filters[i].options[j].value == value
      ==> filters[i].id == sectionId
  }

  /** Some section with the id has an option carrying the value. */
  predicate HasOption(filters: seq<FilterSection>, sectionId: string, value: string)
  {
    exists i, j :: 0 <= i < |filters| && 0 <= j < |filters[i].options|
      && filters[i].id == sectionId && filters[i].options[j].value == value
  }

  /** An option value is offered only by sections with one id (the demo's values are all distinct). */
  predicate SectionsOwnValues(filters: seq<FilterSection>)
  {
    forall i, j, k, l ::
      (0 <= i < |filters| && 0 <= j < |filters[i].options| && 0 <= k < |filters| && 0 <= l < |filters[k].options|
       && filters[i].options[j].value == filters[k].options[l].value) ==> filters[i].id == filters[k].id
  }

  /** When sections own their values, a change the panel reports for one of a section's options names that section's value only. */
  lemma OwnedValueOnlyIn(filters: seq<FilterSection>, i: nat, j: nat)
    requires SectionsOwnValues(filters)
    requires i < |filters| && j < |filters[i].options|
    ensures OnlyIn(filters, filters[i].id, filters[i].options[j].value)
  {
  }

  /** Neither handler changes ids or values, so ownership of values is kept. */
  lemma UpdatesKeepOwnership(filters: seq<FilterSection>, sectionId: string, value: string, checked: bool)
    ensures UniqueIds(filters) ==> UniqueIds(SetChecked(filters, sectionId, value, checked))
    ensures UniqueIds(filters) ==> UniqueIds(UncheckEverywhere(filters, value))
    ensures SectionsOwnValues(filters) ==> SectionsOwnValues(SetChecked(filters, sectionId, value, checked))
    ensures SectionsOwnValues(filters) ==> SectionsOwnValues(UncheckEverywhere(filters, value))
  {
  }

  /** Setting `checked` on one value leaves every other value's checked status alone. */
  lemma OtherCheckedUnchanged(filters: seq<FilterSection>, sectionId: string, value: string, checked: bool, x: string)
    requires x != value
    ensures x in CheckedValues(SetChecked(filters, sectionId, value, checked)) <==> x in CheckedValues(filters)
  {
    var f' := SetChecked(filters, sectionId, value, checked);
    if x in CheckedValues(f') {
      var i, j :| 0 <= i < |f'| && 0 <= j < |f'[i].options| && f'[i].options[j].checked && f'[i].options[j].value == x;
      assert filters[i].options[j].checked && filters[i].options[j].value == x;
    }
    if x in CheckedValues(filters) {
      var i, j :| 0 <= i < |filters| && 0 <= j < |filters[i].options| && filters[i].options[j].checked
        && filters[i].options[j].value == x;
      assert f'[i].options[j].checked && f'[i].options[j].value == x;
    }
  }

  /** Unchecking a value everywhere removes exactly that value from the checked values. */
  lemma CheckedValuesAfterUncheck(filters: seq<FilterSection>, value: string)
    ensures CheckedValues(UncheckEverywhere(filters, value)) == CheckedValues(filters) - {value}
  {
    var f' := UncheckEverywhere(filters, value);
    var before, after := CheckedValues(filters), CheckedValues(f');
    forall x ensures x in after <==> x in before - {value} {
      if x in after {
        var i, j :| 0 <= i < |f'| && 0 <= j < |f'[i].options| && f'[i].options[j].checked && f'[i].options[j].value == x;
        assert filters[i].options[j].checked && filters[i].options[j].value == x;
      }
      if x in before - {value} {
        var i, j :| 0 <= i < |filters| && 0 <= j < |filters[i].options| && filters[i].options[j].checked
          && filters[i].options[j].value == x;
        assert f'[i].options[j].checked && f'[i].options[j].value == x;
      }
    }
  }

  lemma ActiveValuesAfterRemove(active: seq<ActiveFilter>, value: string)
    ensures ActiveValues(RemoveValue(active, value)) == ActiveValues(active) - {value}
  {
    var r := RemoveValue(active, value);
    forall x | x in ActiveValues(active) - {value} ensures x in ActiveValues(r) {
      var a :| a in active && a.value == x;
      assert a in r;
    }
  }

  /** With unique section ids, the lookup finds an option whenever the named section offers the value. */
  lemma LookUpFinds(filters: seq<FilterSection>, sectionId: string, value: string)
    requires UniqueIds(filters)
    ensures LookUpOption(filters, sectionId, value).Some? <==> HasOption(filters, sectionId, value)
  {
    if HasOption(filters, sectionId, value) {
      var i, j :| 0 <= i < |filters| && 0 <= j < |filters[i].options|
        && filters[i].id == sectionId && filters[i].options[j].value == value;
      assert FindSection(filters, sectionId) == Some(i);
      assert FindOption(filters[i].options, value).Some?;
    }
    match FindSection(filters, sectionId)
    case None =>
    case Some(i) =>
      match FindOption(filters[i].options, value)
      case None =>
      case Some(j) =>
  }

  lemma ActiveValuesAppend(active: seq<ActiveFilter>, a: ActiveFilter)
    ensures ActiveValues(active + [a]) == ActiveValues(active) + {a.value}
  {
    assert a in active + [a];
    forall x | x in ActiveValues(active) ensures x in ActiveValues(active + [a]) {
      var b :| b in active && b.value == x;
      assert b in active + [a];
    }
  }

  lemma ActiveValuesAfterCheck(filters: seq<FilterSection>, active: seq<ActiveFilter>, sectionId: string, value: string)
    requires UniqueIds(filters)
    ensures ActiveValues(ActiveAfterChange(filters, active, sectionId, value, true))
         == ActiveValues(active) + (if HasOption(filters, sectionId, value) then {value} else {})
  {
    LookUpFinds(filters, sectionId, value);
    match LookUpOption(filters, sectionId, value)
    case None =>
    case Some(o) => ActiveValuesAppend(active, ActiveFilter(value, o.labelText));
  }

  /** Checking a value adds it to the checked values when the named section offers it, and changes nothing otherwise. */
  lemma CheckedValuesAfterCheck(filters: seq<FilterSection>, sectionId: string, value: string)
    ensures CheckedValues(SetChecked(filters, sectionId, value, true))
         == CheckedValues(filters) + (if HasOption(filters, sectionId, value) then {value} else {})
  {
    var f' := SetChecked(filters, sectionId, value, true);
    forall x | x != value ensures x in CheckedValues(f') <==> x in CheckedValues(filters) {
      OtherCheckedUnchanged(filters, sectionId, value, true, x);
    }
    if HasOption(filters, sectionId, value) {
      var i, j :| 0 <= i < |filters| && 0 <= j < |filters[i].options|
        && filters[i].id == sectionId && filters[i].options[j].value == value;
      assert f'[i].options[j].checked && f'[i].options[j].value == value;
    } else {
      if value in CheckedValues(f') {
        var i, j :| 0 <= i < |f'| && 0 <= j < |f'[i].options| && f'[i].options[j].checked && f'[i].options[j].value == value;
        assert filters[i].options[j].checked;
      }
      if value in CheckedValues(filters) {
        var i, j :| 0 <= i < |filters| && 0 <= j < |filters[i].options| && filters[i].options[j].checked
          && filters[i].options[j].value == value;
        assert f'[i].options[j].checked;
      }
    }
  }

  /** Unchecking a value that only the named section offers removes it from the checked values. */
  lemma CheckedValuesAfterClear(filters: seq<FilterSection>, sectionId: string, value: string)
    requires OnlyIn(filters, sectionId, value)
    ensures CheckedValues(SetChecked(filters, sectionId, value, false)) == CheckedValues(filters) - {value}
  {
    var f' := SetChecked(filters, sectionId, value, false);
    forall x | x != value ensures x in CheckedValues(f') <==> x in CheckedValues(filters) {
      OtherCheckedUnchanged(filters, sectionId, value, false, x);
    }
    forall i, j | 0 <= i < |f'| && 0 <= j < |f'[i].options| && f'[i].options[j].value == value
      ensures !f'[i].options[j].checked
    {
      assert filters[i].id == sectionId;
    }
  }

  /**
   * `handleFilterChange` keeps the active filters consistent with the checked options when
   * section ids are unique and the value is offered by no section other than the named one
   * (which holds when option values are unique and the panel names the section of the
   * clicked option).
   */
  lemma FilterChangeKeepsConsistent(filters: seq<FilterSection>, active: seq<ActiveFilter>,
                                    sectionId: string, value: string, checked: bool)
    requires Consistent(filters, active)
    requires UniqueIds(filters) && OnlyIn(filters, sectionId, value)
    ensures Consistent(SetChecked(filters, sectionId, value, checked),
                       ActiveAfterChange(filters, active, sectionId, value, checked))
  {
    if checked {
      ActiveValuesAfterCheck(filters, active, sectionId, value);
      CheckedValuesAfterCheck(filters, sectionId, value);
    } else {
      ActiveValuesAfterRemove(active, value);
      CheckedValuesAfterClear(filters, sectionId, value);
    }
  }

  /** `handleFilterRemove` keeps the active filters consistent with the checked options. */
  lemma FilterRemoveKeepsConsistent(filters: seq<FilterSection>, active: seq<ActiveFilter>, filter: ActiveFilter)
    requires Consistent(filters, active)
    ensures Consistent(UncheckEverywhere(filters, filter.value), RemoveValue(active, filter.value))
  {
    CheckedValuesAfterUncheck(filters, filter.value);
    ActiveValuesAfterRemove(active, filter.value);
  }

  // ---------------------------------------------------------------------
  // The demo component's state and handlers
  // ---------------------------------------------------------------------

  /**
   * The demo component: the three `useState` slots it passes to the panel as props, and the
   * handlers it passes as callbacks. Each handler computes its new lists from the state of
   * the render it was created in, so both setters in one handler read the old state.
   */
  class DemoState {
    var sortOptions: seq<SortOption>
    var filters: seq<FilterSection>
    var activeFilters: seq<ActiveFilter>

    /** The active filters name exactly the checked options, ids are distinct, and each value belongs to one section. */
    ghost predicate Valid()
      reads this
    {
      Consistent(filters, activeFilters) && UniqueIds(filters) && SectionsOwnValues(filters)
    }

    constructor ()
      ensures sortOptions == InitialSortOptions && filters == InitialFilters && activeFilters == InitialActiveFilters
      ensures Valid()
    {
      sortOptions := InitialSortOptions;
      filters := InitialFilters;
      activeFilters := InitialActiveFilters;
      InitialState();
      InitialOwnership();
    }

    /** `handleSortChange`: only the option carrying the value becomes current. */
    method HandleSortChange(value: string)
      modifies this`sortOptions
      ensures sortOptions == SelectSort(old(sortOptions), value)
      ensures InitialSortValue(sortOptions)
           == if exists i :: 0 <= i < |old(sortOptions)| && old(sortOptions)[i].value == value then value else ""
    {
      sortOptions := SelectSort(sortOptions, value);
      SelectSortPicks(old(sortOptions), value);
    }

    /**
     * `handleFilterChange`: the option's checked flag follows the checkbox; the active filters gain
     * the value (with the label of the option found) or lose it. A change for an option the named
     * section offers keeps the state valid.
     */
    method HandleFilterChange(sectionId: string, value: string, checked: bool)
      modifies this`filters, this`activeFilters
      ensures filters == SetChecked(old(filters), sectionId, value, checked)
      ensures activeFilters == ActiveAfterChange(old(filters), old(activeFilters), sectionId, value, checked)
      ensures old(Valid() && HasOption(filters, sectionId, value)) ==> Valid()
      ensures old(Consistent(filters, activeFilters) && UniqueIds(filters) && OnlyIn(filters, sectionId, value))
              ==> Consistent(filters, activeFilters)
    {
      var f, a := filters, activeFilters;
      filters := SetChecked(f, sectionId, value, checked);
      activeFilters := ActiveAfterChange(f, a, sectionId, value, checked);
      UpdatesKeepOwnership(f, sectionId, value, checked);
      if SectionsOwnValues(f) && HasOption(f, sectionId, value) {
        var i: nat, j: nat :| i < |f| && j < |f[i].options| && f[i].id == sectionId && f[i].options[j].value == value;
        OwnedValueOnlyIn(f, i, j);
      }
      if Consistent(f, a) && UniqueIds(f) && OnlyIn(f, sectionId, value) {
        FilterChangeKeepsConsistent(f, a, sectionId, value, checked);
      }
    }

    /** `handleFilterRemove`: the value leaves the active filters and is unchecked in every section. */
    method HandleFilterRemove(filter: ActiveFilter)
      modifies this`filters, this`activeFilters
      ensures activeFilters == RemoveValue(old(activeFilters), filter.value)
      ensures filters == UncheckEverywhere(old(filters), filter.value)
      ensures old(Consistent(filters, activeFilters)) ==> Consistent(filters, activeFilters)
      ensures old(Valid()) ==> Valid()
    {
      var f, a := filters, activeFilters;
      activeFilters := RemoveValue(a, filter.value);
      filters := UncheckEverywhere(f, filter.value);
      UpdatesKeepOwnership(f, "", filter.value, false);
      if Consistent(f, a) {
        FilterRemoveKeepsConsistent(f, a, filter);
      }
    }
  }
}
