# Antix UI core logic, in Dafny

This project models the four pieces of sequential logic in the Antix UI React component
library and proves what they promise:

- **Pagination** (`pagination.dfy`, module `Pagination`). `getPageNumbers` builds the page
  strip for `currentPage` and `totalPages` with a neighbour radius of 1. It is modelled as a
  method with the source's two loops: one pushes the kept numbers into `range`, the other walks
  `range` and carries the previous number in `l`. The method is proved equal to a
  specification function `Window`, and the layout properties are proved about `Window`. The
  previous, next and page-marker buttons are modelled by their `disabled` and `onClick` rules.
- **FilterPanel** (`filter_panel.dfy`, module `FilterPanel`). The panel's prop records are
  modelled, together with:
  - the initial sort lookup;
  - the per-section active-filter count (`getActiveFitlersCountForSection`);
  - the next-list expression of `toggleSection`.

  A class `FilterPanelState` holds the three `useState` hooks (`isOpenMobile`,
  `expandedSections`, `currentSortValue`), the latest props, and a log of the optional callback
  calls. Its handlers change exactly those fields.
- **FilterPanel demo** (`filter_panel_demo.dfy`, module `FilterPanelDemo`). The demo's initial
  data are modelled, along with the pure `map`/`filter`/`find` expressions its handlers build
  new lists with. A class `DemoState` holds the three state slots `sortOptions`, `filters` and
  `activeFilters`, with the three handlers as methods. The invariant "the active filters name
  exactly the checked options" holds initially and is kept by both filter handlers.
- **Button classes** (`variants.dfy` and `button.dfy`).
  - Module `Variants`: a class-variance table as data, and its resolver as a fold. The fold
    takes the base classes, then each axis' classes in axis order, then the classes of every
    compound rule whose conditions all hold, in declaration order.
  - Module `Button`: the Button's concrete table (16 base classes, five axes, their defaults,
    13 compound rules), the mapping of Button props to table props, `getTextSizeClass`, and the
    final assembly. The assembly is the merged variant and caller classes, then the text-size
    class.

  A class string is modelled by the list of its space-separated tokens, so joining class strings
  is concatenation and `""` is the empty list.

`wrappers.dfy` holds the `Option` datatype.

## Model

| member | source | states |
|---|---|---|
| Pagination.GetPageNumbers | src/components/Pagination/Pagination.tsx:31-65 | the two loops (neighbour push filtered to `1 < i < totalPages`, then the walk with `l` starting undefined) return exactly `Window(currentPage, totalPages)` |
| Pagination.NeighboursUpTo | src/components/Pagination/Pagination.tsx:39-43 | the neighbour loop: the candidates lo..hi strictly between 1 and totalPages, ascending; NeighboursAreInterval gives them as one run |
| Pagination.Kept | src/components/Pagination/Pagination.tsx:36-48 | `range`: page 1, the neighbours strictly between 1 and totalPages, then totalPages when above 1; its shape, order and members are given by KeptShape, KeptIncreasing and KeptMembers |
| Pagination.Gap | src/components/Pagination/Pagination.tsx:54-58 | what the walk inserts between l and i: the page l+1 for a difference of 2, one "..." for any difference other than 1, nothing for 1 |
| Pagination.Dots | src/components/Pagination/Pagination.tsx:51-62 | the walk over `range`, with 0 standing for the undefined first `l`; its layout and members are given by DotsLayout, DotsMembers, DotsRun and DotsAppend |
| Pagination.Window | src/components/Pagination/Pagination.tsx:31-65 | `rangeWithDots`, the walk over `Kept`; it is what GetPageNumbers returns, and its properties are given by WindowLayout, WindowMembers, CurrentPageOnce and WindowBounds |
| Pagination.NeighboursAreInterval | src/components/Pagination/Pagination.tsx:39-43 | the neighbour loop keeps exactly the consecutive numbers from max(currentPage-1, 2) to min(currentPage+1, totalPages-1) |
| Pagination.KeptShape | src/components/Pagination/Pagination.tsx:36-48 | `range` is 1, then that run of neighbours, then `totalPages` exactly when totalPages > 1 |
| Pagination.KeptIncreasing | src/components/Pagination/Pagination.tsx:36-48 | for any integer props, `range` starts with 1 and is strictly increasing, so it has no duplicates |
| Pagination.KeptMembers | src/components/Pagination/Pagination.tsx:36-48 | x is kept iff x is 1, or x is within 1 of currentPage and strictly between 1 and totalPages, or x is totalPages > 1 |
| Pagination.DotsLayout | src/components/Pagination/Pagination.tsx:51-62 | walking increasing numbers gives a strip ending with the last number, with increasing page numbers, every "..." between two pages more than two apart, and adjacent pages consecutive |
| Pagination.DotsMembers | src/components/Pagination/Pagination.tsx:51-62 | every walked number is shown; every other shown number is the single page filling a gap of exactly two |
| Pagination.DotsRun | src/components/Pagination/Pagination.tsx:51-62 | a run of consecutive numbers right after its predecessor is shown as exactly `Page(r[0])`, …, `Page(r[\|r\|-1])`, in order, with no "..." |
| Pagination.DotsAppend | src/components/Pagination/Pagination.tsx:51-62 | walking a + b is walking a, then walking b with a's last number as `l` |
| Pagination.WindowStartsAtKept | src/components/Pagination/Pagination.tsx:36-62 | the strip is page 1 followed by the walk of the remaining kept numbers after 1 |
| Pagination.WindowLayout | src/components/Pagination/Pagination.tsx:31-65 | the strip starts with page 1; it ends with totalPages iff totalPages > 1 and is exactly [1] otherwise; numbers increase; no "..." is first, last or next to another "..."; every "..." bridges more than two pages; side-by-side numbers are consecutive |
| Pagination.WindowMembers | src/components/Pagination/Pagination.tsx:31-65 | every kept number is shown, and otherwise only a number whose two neighbours are both kept |
| Pagination.CurrentPageOnce | src/components/Pagination/Pagination.tsx:87-93 | for 1 <= currentPage <= totalPages exactly one marker equals the current page, so exactly one gets `aria-current="page"` |
| Pagination.WindowSplit | src/components/Pagination/Pagination.tsx:36-62 | the strip is page 1, the walk over the neighbour run, then the walk to the last page |
| Pagination.WindowBounds | src/components/Pagination/Pagination.tsx:32 | with radius 1 the strip has at most 7 markers and at most 2 "..." |
| Pagination.WindowSinglePage | src/components/Pagination/Pagination.tsx:45-48 | page 1 of 1 gives exactly [1] |
| Pagination.KeptFiveOfTwenty | src/components/Pagination/Pagination.tsx:36-48 | page 5 of 20 keeps 1, 4, 5, 6, 20 |
| Pagination.WalkFiveOfTwenty | src/components/Pagination/Pagination.tsx:51-62 | walking 1, 4, 5, 6, 20 gives 1 … 4 5 6 … 20 |
| Pagination.WindowFiveOfTwenty | src/components/Pagination/__tests__/Pagination.test.tsx:58-61 | page 5 of 20 gives 1 … 4 5 6 … 20, with exactly two "..." |
| Pagination.WindowFirstOfTen | src/components/Pagination/__tests__/Pagination.test.tsx:40-44 | page 1 of 10 gives 1 2 … 10, so page 2 is a clickable marker |
| Pagination.ClickTargets | src/components/Pagination/Pagination.tsx:73-106 | from a page in 1..totalPages: previous requests currentPage-1 unless currentPage <= 1; next requests currentPage+1 unless currentPage >= totalPages; a numbered marker requests its own number; "..." is disabled and requests nothing; every request is a page in 1..totalPages |
| Pagination.Disabled | src/components/Pagination/Pagination.tsx:73-106 | previous is disabled for currentPage <= 1, next for currentPage >= totalPages, a marker when it is "..."; used by ClickTargets |
| Pagination.OnClick | src/components/Pagination/Pagination.tsx:73-106 | previous asks for currentPage-1, next for currentPage+1, a numbered marker for its own number, "..." for nothing; used by ClickTargets |
| Pagination.Click | src/components/Pagination/Pagination.tsx:73-106 | a disabled button dispatches nothing, an enabled one runs its `onClick`; its outcomes are given by ClickTargets |
| Pagination.IsCurrent | src/components/Pagination/Pagination.tsx:87-93 | a marker gets `aria-current="page"` when it is the current page; CurrentPageOnce proves exactly one does |
| FilterPanel.FirstCurrent | src/components/FilterPanel/FilterPanel.tsx:80 | `find` returns the first index whose option is current, or None iff no option is current |
| FilterPanel.InitialSortValue | src/components/FilterPanel/FilterPanel.tsx:79-81 | the initial sort value is the value of the first current option, or "" when none is current |
| FilterPanel.FindSection | src/components/FilterPanel/FilterPanel.tsx:87-88 | `find` returns the first index with the section id, or None iff no section has it |
| FilterPanel.ActiveAmong | src/components/FilterPanel/FilterPanel.tsx:92-94 | the filtered list is no longer than the active filters |
| FilterPanel.ActiveAmongCounts | src/components/FilterPanel/FilterPanel.tsx:92-94 | the filtered list's length is the number of positions whose value is among the section values |
| FilterPanel.OptionValues | src/components/FilterPanel/FilterPanel.tsx:89 | `options.map(option => option.value)`: the option values in option order; SectionValuesSpec gives its members |
| FilterPanel.SectionValues | src/components/FilterPanel/FilterPanel.tsx:86-89 | the option values of the first section with the id, or [] for an unknown id; characterised by SectionValuesSpec |
| FilterPanel.ActiveCountForSection | src/components/FilterPanel/FilterPanel.tsx:84-95 | `getActiveFitlersCountForSection`; characterised by ActiveCountSpec |
| FilterPanel.ActiveCountSpec | src/components/FilterPanel/FilterPanel.tsx:84-95 | the count is the number of active filters whose value is an option value of the first section with that id; it is 0 for an unknown id, at most `activeFilters.length`, and positive iff some active filter belongs to the section |
| FilterPanel.SectionValuesSpec | src/components/FilterPanel/FilterPanel.tsx:86-89 | v is a section value iff some option of the first section with that id has value v |
| FilterPanel.RemoveAll | src/components/FilterPanel/FilterPanel.tsx:117 | the filtered list holds exactly the ids other than x and is no longer than the original |
| FilterPanel.Toggle | src/components/FilterPanel/FilterPanel.tsx:114-120 | the toggled id is present afterwards iff it was absent before; every other id is present iff it was; an absent id is appended at the end, after the unchanged old list |
| FilterPanel.RemoveAllAbsent | src/components/FilterPanel/FilterPanel.tsx:117 | filtering out an absent id changes nothing |
| FilterPanel.RemoveAllIdempotent | src/components/FilterPanel/FilterPanel.tsx:117 | filtering out the same id twice is filtering it once |
| FilterPanel.RemoveAllKeepsNoDuplicates | src/components/FilterPanel/FilterPanel.tsx:117 | filtering keeps a duplicate-free list duplicate-free |
| FilterPanel.ToggleKeepsOthers | src/components/FilterPanel/FilterPanel.tsx:114-120 | apart from the toggled id, the list is unchanged, in order |
| FilterPanel.ToggleTwiceRestores | src/components/FilterPanel/FilterPanel.tsx:114-120 | toggling an absent id twice restores the original list |
| FilterPanel.ToggleKeepsNoDuplicates | src/components/FilterPanel/FilterPanel.tsx:114-120 | a duplicate-free list stays duplicate-free under toggling |
| FilterPanel.FilterPanelState.constructor | src/components/FilterPanel/FilterPanel.tsx:64-81 | the first render stores the props and starts with the sheet closed, no expanded section, the initial sort value, and no callback calls |
| FilterPanel.FilterPanelState.Rerender | src/components/FilterPanel/FilterPanel.tsx:77-81 | a new render replaces the props and keeps all hook state, so `currentSortValue` is not recomputed |
| FilterPanel.FilterPanelState.HandleSortChange | src/components/FilterPanel/FilterPanel.tsx:97-100 | sets `currentSortValue` to the value and logs exactly one `onSortChange(value)` when the callback is given, and none otherwise |
| FilterPanel.FilterPanelState.HandleFilterChange | src/components/FilterPanel/FilterPanel.tsx:102-108 | forwards its three arguments unchanged in one `onFilterChange` call (none without the callback) and changes no local state |
| FilterPanel.FilterPanelState.HandleFilterRemove | src/components/FilterPanel/FilterPanel.tsx:110-112 | forwards the filter unchanged in one `onFilterRemove` call (none without the callback) and changes no local state |
| FilterPanel.FilterPanelState.ToggleSection | src/components/FilterPanel/FilterPanel.tsx:114-120 | the expanded list becomes `Toggle` of the old one; that section's expanded state flips and no other section's changes |
| FilterPanel.FilterPanelState.SetIsOpenMobile | src/components/FilterPanel/FilterPanel.tsx:125 | the mobile sheet's open state becomes the argument |
| FilterPanel.FilterPanelState.IsExpanded | src/components/FilterPanel/FilterPanel.tsx:158 | a section renders expanded iff its id is in `expandedSections`; ToggleSection states how toggling changes it |
| FilterPanel.FilterPanelState.ShowsCountBadge | src/components/FilterPanel/FilterPanel.tsx:223 | the count badge renders for a positive count; BadgeShown characterises it |
| FilterPanel.FilterPanelState.ShowsActiveStrip | src/components/FilterPanel/FilterPanel.tsx:316 | the active-filter strip renders iff there is at least one active filter |
| FilterPanel.BadgeShown | src/components/FilterPanel/FilterPanel.tsx:223 | the count badge is shown iff some active filter carries an option value of the first section with that id, and never for an unknown id |
| FilterPanelDemo.InitialSortOptions | examples/FilterPanelDemo/FilterPanelDemo.tsx:5-11 | the five sort options, "popular" current; InitialState gives the initial sort value |
| FilterPanelDemo.InitialFilters | examples/FilterPanelDemo/FilterPanelDemo.tsx:14-50 | the category, color and sizes sections with their options, only "objects" checked; InitialState and InitialOwnership state their invariant |
| FilterPanelDemo.InitialActiveFilters | examples/FilterPanelDemo/FilterPanelDemo.tsx:52-53 | the one active filter "objects"; InitialState shows it matches the checked options |
| FilterPanelDemo.InitialState | examples/FilterPanelDemo/FilterPanelDemo.tsx:5-53 | the demo starts with "popular" selected, distinct section ids, and active values equal to checked values |
| FilterPanelDemo.InitialOwnership | examples/FilterPanelDemo/FilterPanelDemo.tsx:14-50 | no option value of the initial data occurs in two sections with different ids |
| FilterPanelDemo.SelectSort | examples/FilterPanelDemo/FilterPanelDemo.tsx:62-69 | the new options keep length, order, names and values, and an option is current iff its value is the chosen one |
| FilterPanelDemo.SelectSortPicks | examples/FilterPanelDemo/FilterPanelDemo.tsx:62-69 | after a sort change the panel's initial lookup yields the chosen value when some option has it, and "" otherwise |
| FilterPanelDemo.SelectSortIdempotent | examples/FilterPanelDemo/FilterPanelDemo.tsx:62-69 | choosing the same sort twice is choosing it once |
| FilterPanelDemo.CheckOptions | examples/FilterPanelDemo/FilterPanelDemo.tsx:83-88 | option count, values and labels are kept; `checked` is set only on the options with the value |
| FilterPanelDemo.SetChecked | examples/FilterPanelDemo/FilterPanelDemo.tsx:78-93 | section count, ids and names are kept; options change only in sections with the id |
| FilterPanelDemo.UncheckEverywhere | examples/FilterPanelDemo/FilterPanelDemo.tsx:117-127 | section count, ids and names are kept; every option with the value is unchecked, in every section |
| FilterPanelDemo.FindOption | examples/FilterPanelDemo/FilterPanelDemo.tsx:99 | `find` returns the first index with the value, or None iff no option has it |
| FilterPanelDemo.LookUpOption | examples/FilterPanelDemo/FilterPanelDemo.tsx:98-99 | the option found by `find` in the first section with the id; characterised by LookUpFinds and ActiveAfterCheck |
| FilterPanelDemo.ActiveAfterChange | examples/FilterPanelDemo/FilterPanelDemo.tsx:96-108 | the new active filters: `{value, label}` appended when checking a found option, unchanged when nothing is found, the value filtered out when unchecking; characterised by ActiveAfterCheck, ActiveValuesAfterCheck and ActiveValuesAfterRemove |
| FilterPanelDemo.RemoveValue | examples/FilterPanelDemo/FilterPanelDemo.tsx:106 | the filtered list holds exactly the active filters with another value and is no longer than the original |
| FilterPanelDemo.RemoveValueAppend | examples/FilterPanelDemo/FilterPanelDemo.tsx:106 | filtering distributes over concatenation, so the kept filters stay in order |
| FilterPanelDemo.RemoveValueAbsent | examples/FilterPanelDemo/FilterPanelDemo.tsx:106 | filtering out a value no entry carries changes nothing |
| FilterPanelDemo.ActiveAfterCheck | examples/FilterPanelDemo/FilterPanelDemo.tsx:96-103 | when checking, the option found is the first option with the value in the first section with the id, and `{value, label}` is appended at the end; with no such option the active filters are unchanged |
| FilterPanelDemo.UpdatesKeepOwnership | examples/FilterPanelDemo/FilterPanelDemo.tsx:78-93 | neither filter handler changes ids or values, so unique ids and value ownership are kept |
| FilterPanelDemo.OwnedValueOnlyIn | examples/FilterPanelDemo/FilterPanelDemo.tsx:72-76 | when values belong to one section, a change that names an option's own section names the only section offering that value |
| FilterPanelDemo.OtherCheckedUnchanged | examples/FilterPanelDemo/FilterPanelDemo.tsx:78-93 | setting `checked` on one value leaves every other value's checked status alone |
| FilterPanelDemo.CheckedValuesAfterUncheck | examples/FilterPanelDemo/FilterPanelDemo.tsx:117-127 | unchecking a value everywhere removes exactly that value from the checked values |
| FilterPanelDemo.ActiveValuesAfterRemove | examples/FilterPanelDemo/FilterPanelDemo.tsx:114 | filtering out a value removes exactly that value from the active values |
| FilterPanelDemo.LookUpFinds | examples/FilterPanelDemo/FilterPanelDemo.tsx:98-99 | with distinct section ids the lookup finds an option iff the section with the id offers the value |
| FilterPanelDemo.ActiveValuesAfterCheck | examples/FilterPanelDemo/FilterPanelDemo.tsx:96-103 | checking adds the value to the active values iff the named section offers it |
| FilterPanelDemo.CheckedValuesAfterCheck | examples/FilterPanelDemo/FilterPanelDemo.tsx:78-93 | checking adds the value to the checked values iff the named section offers it |
| FilterPanelDemo.CheckedValuesAfterClear | examples/FilterPanelDemo/FilterPanelDemo.tsx:78-93 | unchecking a value that only the named section offers removes it from the checked values |
| FilterPanelDemo.FilterChangeKeepsConsistent | examples/FilterPanelDemo/FilterPanelDemo.tsx:72-109 | with distinct ids and the value offered only by the named section, `handleFilterChange` keeps active values equal to checked values |
| FilterPanelDemo.FilterRemoveKeepsConsistent | examples/FilterPanelDemo/FilterPanelDemo.tsx:112-127 | `handleFilterRemove` keeps active values equal to checked values |
| FilterPanelDemo.DemoState.Valid | examples/FilterPanelDemo/FilterPanelDemo.tsx:52-127 | the demo state's invariant: active values equal checked values, section ids are distinct, and each value belongs to one section; the constructor establishes it and the filter handlers keep it |
| FilterPanelDemo.DemoState.constructor | examples/FilterPanelDemo/FilterPanelDemo.tsx:57-59 | the state starts with the initial data and satisfies the invariant |
| FilterPanelDemo.DemoState.HandleSortChange | examples/FilterPanelDemo/FilterPanelDemo.tsx:62-69 | replaces the sort options with `SelectSort` of the old ones, so the initial-value lookup over the new options would yield the chosen value, or "" when no option has it |
| FilterPanelDemo.DemoState.HandleFilterChange | examples/FilterPanelDemo/FilterPanelDemo.tsx:72-109 | both setters read the old state; the invariant is kept for a change to an option the named section offers |
| FilterPanelDemo.DemoState.HandleFilterRemove | examples/FilterPanelDemo/FilterPanelDemo.tsx:112-127 | removes the value from the active filters and unchecks it everywhere, and keeps the invariant |
| Variants.VariantKey | src/components/Button/Button.tsx:16-50 | the key that selects an axis' classes: a non-empty prop, else the default; KeyVersusMerged and the Button's axis lemmas state its results |
| Variants.Merged | src/components/Button/Button.tsx:52-128 | the value compound conditions test: the given prop, else the default; Button.MergedValues states it for the Button |
| Variants.KeyVersusMerged | src/components/Button/Button.tsx:16-128 | the axis key and the compound-rule value agree unless the prop is "", when the axis classes come from the default but compound rules see "" |
| Variants.AxisClasses | src/components/Button/Button.tsx:16-50 | the classes one axis contributes: the table entry of its selected value, or none for an unlisted value; given per axis by the Button's axis lemmas |
| Variants.AxisTokens | src/components/Button/Button.tsx:16-42 | the axis classes in axis order; characterised by AxisTokensMembers, AxisTokensAppend and AxisOrder |
| Variants.Satisfies | src/components/Button/Button.tsx:52-128 | a compound condition holds when the merged value is one of the allowed values, so an array condition means membership |
| Variants.Applies | src/components/Button/Button.tsx:52-128 | a compound rule applies when all its conditions hold |
| Variants.Resolve | src/components/Button/Button.tsx:13-128 | base, then axis classes, then the classes of applying rules; characterised by ResolveMembers, BaseFirst, AxisBeforeCompound, AxisOrder and CompoundOrder |
| Variants.AxisTokensMembers | src/components/Button/Button.tsx:16-42 | a token is among the axis classes iff some axis' selected class list contains it |
| Variants.CompoundTokens | src/components/Button/Button.tsx:52-128 | a token is among the compound classes iff some applying rule carries it |
| Variants.ResolveMembers | src/components/Button/Button.tsx:13-128 | a token is resolved iff it is a base token, one of an axis' selected classes, or a class of an applying rule |
| Variants.AxisTokensAppend | src/components/Button/Button.tsx:16-42 | the axis classes of a split axis list are those of its parts, in order |
| Variants.CompoundTokensAppend | src/components/Button/Button.tsx:52-128 | the compound classes of a split rule list are those of its parts, in order |
| Variants.AxisOrder | src/components/Button/Button.tsx:16-42 | a token selected by an earlier axis has a position before every token selected by a later axis |
| Variants.CompoundOrder | src/components/Button/Button.tsx:52-128 | a token of an earlier applying rule has a position before every token of a later applying rule |
| Variants.BaseFirst | src/components/Button/Button.tsx:13-14 | base tokens come before every axis and compound token |
| Variants.AxisBeforeCompound | src/components/Button/Button.tsx:13-128 | axis tokens come before compound tokens |
| Variants.AxisTokenResolved | src/components/Button/Button.tsx:16-42 | a token an axis selects is resolved |
| Variants.RuleTokenResolved | src/components/Button/Button.tsx:52-128 | a token of an applying rule is resolved |
| Button.Base | src/components/Button/Button.tsx:14 | the sixteen base classes, in order; BaseFirst places them first |
| Button.VariantAxis | src/components/Button/Button.tsx:17-22 | solid selects no classes, outlined the outline classes, text `bg-transparent *:decoration-current`; VariantAxisClasses states the selection |
| Button.SizeAxis | src/components/Button/Button.tsx:23-28 | each size's padding classes; SizeAxisClasses and SizePadding state the selection |
| Button.ColorAxis | src/components/Button/Button.tsx:29-33 | each color's text class, secondary sharing primary's; ColorAxisClasses states the selection |
| Button.IconPositionAxis | src/components/Button/Button.tsx:34-37 | left gives `flex-row`, right `flex-row-reverse`; IconPositionAxisClasses and IconSide state the selection |
| Button.WithIconAxis | src/components/Button/Button.tsx:38-41 | both values select no classes; the axis matters only to the gap rules (IconGap) |
| Button.Defaults | src/components/Button/Button.tsx:44-50 | the defaults solid, md, conversion, left and false; MergedValues and BareButton state their effect |
| Button.Rules | src/components/Button/Button.tsx:52-128 | the thirteen compound rules in declaration order; GridRule, GapRuleApplies, TextRuleApplies and CompoundOrder state their meaning |
| Button.ButtonVariants | src/components/Button/Button.tsx:13-130 | the table: Base, the five axes in declaration order, Defaults and Rules; VariantTokens resolves it |
| Button.TableProps | src/components/Button/Button.tsx:158-203 | the table sees `size` always set (default "md"), `withIcon` "true" iff an icon is given, and variant, color and iconPosition exactly when given |
| Button.SizeProp | src/components/Button/Button.tsx:161 | `size` after its default "md" |
| Button.VariantTokens | src/components/Button/Button.tsx:198-204 | the classes the table resolves for the Button's props, before merging |
| Button.TextSizeClass | src/components/Button/Button.tsx:180-192 | `getTextSizeClass`: xl, lg and sm map to their classes, anything else to `text-button-md`; its use is given by TextSizeLast |
| Button.ClassName | src/components/Button/Button.tsx:194-208 | the merged variant and caller classes, then the text-size class for `size \|\| "md"`; TextSizeLast and BareButton state what it ends with |
| Button.EffectiveVariant | src/components/Button/Button.tsx:44-50 | the variant compound rules test: the given one, else solid; MergedValues ties it to the table |
| Button.EffectiveColor | src/components/Button/Button.tsx:44-50 | the color compound rules test: the given one, else conversion; MergedValues ties it to the table |
| Button.Selected | src/components/Button/Button.tsx:16-50 | the value an axis looks up: a given non-empty prop, else the default; the four axis lemmas state it |
| Button.MergedValues | src/components/Button/Button.tsx:44-50 | the rules see variant, color, size and withIcon as given, or as the defaults solid, conversion, md and false |
| Button.OwnedToken | src/components/Button/Button.tsx:13-128 | a token that no base or axis class has and that only rule i carries is present iff rule i applies |
| Button.GapRuleApplies | src/components/Button/Button.tsx:107-117 | a gap rule applies iff an icon is given and the size is one of the rule's array of sizes |
| Button.IconGap | src/components/Button/Button.tsx:107-117 | `gap-1.5` iff an icon and size sm or md; `gap-2.5` iff an icon and size lg or xl; neither without an icon |
| Button.TextRuleApplies | src/components/Button/Button.tsx:118-126 | the two `variant: "text"` rules apply iff the effective variant is text |
| Button.TextVariantRules | src/components/Button/Button.tsx:118-126 | `*:no-underline`, `hover:underline` and `!p-0` are present iff the variant is text, whatever the color or size |
| Button.NoPlainUnderline | src/components/Button/Button.tsx:13-128 | no props produce the token `*:underline` |
| Button.TextSizeLast | src/components/Button/Button.tsx:180-208 | whatever the merge returns, the class list ends with `text-button-xl`/`-lg`/`-sm`/`-md` for those sizes, with `text-button-md` for any other size, and with `text-button-md` when no size is given |
| Button.SizePadding | src/components/Button/__tests__/Button.test.tsx:46-58 | each size gets its padding, e.g. py-2, py-3, py-3.5 and py-4.5; no size means md |
| Button.VariantAxisClasses | src/components/Button/Button.tsx:17-22 | the variant axis selects the table entry of the given non-empty variant, else solid's |
| Button.SizeAxisClasses | src/components/Button/Button.tsx:23-28 | the size axis selects the table entry of the given non-empty size, else md's |
| Button.ColorAxisClasses | src/components/Button/Button.tsx:29-33 | the color axis selects the table entry of the given non-empty color, else conversion's |
| Button.IconPositionAxisClasses | src/components/Button/Button.tsx:34-37 | the icon-position axis selects the table entry of the given non-empty position, else left's |
| Button.OutlinedClasses | src/components/Button/__tests__/Button.test.tsx:23-25 | the outlined variant carries `outline-current` |
| Button.TextColor | src/components/Button/__tests__/Button.test.tsx:32-40 | conversion or no color gives `text-conversion-500`; primary and secondary give `text-primary-500` |
| Button.IconSide | src/components/Button/Button.tsx:34-37 | `iconPosition=right` gives `flex-row-reverse`; left or no position gives `flex-row` |
| Button.GridRule | src/components/Button/Button.tsx:53-106 | the first nine rules are the variant-by-color grid, variant-major |
| Button.GridRuleApplies | src/components/Button/Button.tsx:53-106 | grid rule j applies iff the effective variant is row j/3 and the effective color is column j%3 |
| Button.OneGridRule | src/components/Button/Button.tsx:53-106 | for a declared variant and color exactly one of the nine grid rules applies |
| Button.NoGridRule | src/components/Button/Button.tsx:53-106 | for an undeclared variant or color no grid rule applies |
| Button.RuleClassesPresent | src/components/Button/Button.tsx:52-128 | every class of an applying rule is present |
| Button.Backgrounds | src/components/Button/__tests__/Button.test.tsx:18-43 | solid conversion, the defaults, gives `bg-conversion-500`; solid or outlined secondary gives `bg-secondary-300` |
| Button.BareButton | src/components/Button/Button.tsx:44-50 | a Button with no props has `bg-conversion-500`, `py-3`, `flex-row`, no gap, and ends with `text-button-md` |
| Button.TextPaddingFollowsSize | src/components/Button/Button.tsx:123-126 | for the text variant `!p-0` comes after the size's padding classes |

## Left out

- `cn` (clsx and tailwind-merge, in `src/lib/utils`) is not part of this model. `Button.ClassName` takes the merge as a parameter, and every property is about the token list before merging. CSS conflict resolution is not modelled.
- cva's own implementation is not part of this model. The resolver follows how the Button uses it. An axis is selected by a non-empty prop, else its default. Compound conditions test the prop merged over the defaults, and an array condition means membership. `null` props, `class`/`className` keys on compound rules, and boolean axis keys other than `withIcon`'s "true"/"false" are not modelled.
- Class strings are modelled as lists of tokens. The whitespace inside the literal strings and the space joining `cn(...)` to the text-size class are not modelled.
- The `toHaveClass("*:underline")` expectation in `src/components/Button/__tests__/Button.test.tsx:27-29` is not modelled. The table never produces that token, as `Button.NoPlainUnderline` proves.
- Button: `asChild`/`Slot`, the icon and `additionalText` markup, and `disabled` are rendering only.
- `currentPage` and `totalPages` are JavaScript numbers and are modelled as integers. Fractional values, `NaN` and `Infinity` are not modelled.
- Pagination: the markup, `aria-label` strings and the `PaginationButton` styles are not modelled. The radius is the source's constant 1, not a parameter.
- The code raises no error for a `currentPage` outside `1..totalPages`, for a variant value outside its axis, or for an axis with neither a value nor a default; the model follows the code.
  `Pagination.GetPageNumbers` therefore takes any integers, and an unlisted variant value contributes no classes. Properties that need the page range, such as `Pagination.CurrentPageOnce` and `Pagination.ClickTargets`, require it.
- FilterPanel: the markup is modelled only by the predicates `IsExpanded`, `ShowsCountBadge` and `ShowsActiveStrip`. The sort dropdown, popover, sheet, the literal labels and the default `[]` props are not modelled.
- React's rendering is modelled as the handlers reading the state of the render they were created in. Both setters of a demo handler compute from the old lists. Batching and asynchronous state updates are not modelled.
- FilterPanelDemo.DemoState.HandleFilterChange: the invariant is proved only when the named section offers the value (`HasOption`). A call for a value the section does not offer is outside what the panel sends.
- The Carousel (timers and embla-carousel), the other Radix wrappers, ProductCard, i18n, the other demo pages and the build configuration are not part of this model.
