/** The filter bar above the shop listing (src/components/shop/FilterBar.tsx): trigger labels, the
    mobile badge count, which controls are shown, and how the controls' outputs reach the
    listing's handlers. Translated texts are left symbolic. */
module FilterBar {
  import opened Wrappers
  import opened Options
  import MultiSelectDropdown
  import ColorDropdown
  import MobileFilterDrawer
  import ProductGrid

  /** The category trigger's text: the "all categories" text, one option's caption, or the
      "{count} categories" text. */
  datatype CategoryLabel = AllCategories | OptionCaption(caption: string) | CategoriesCount(count: nat)

  /** The colour trigger's text: the generic "colour" text, one colour's name, or "{n} selected". */
  datatype ColorLabel = GenericColor | ColorName(key: string) | ColorsSelected(count: nat)

  /** A call into the listing's handlers. */
  datatype Effect =
    | CategoriesChange(values: seq<string>)
    | ColorsChange(values: seq<string>)
    | SortChange(value: string)
    | ClearFilters

  /** The sort choices, in menu order, with their translated captions. */
  function SortOptions(newest: string, priceLow: string, priceHigh: string): (options: seq<DropdownOption>)
    ensures |options| == 3
    ensures ProductGrid.ModeOf(options[0].value) == ProductGrid.Newest
    ensures ProductGrid.ModeOf(options[1].value) == ProductGrid.PriceAsc
    ensures ProductGrid.ModeOf(options[2].value) == ProductGrid.PriceDesc
    ensures forall o :: o in options ==> o.value != ""
  {
    [DropdownOption("newest", newest), DropdownOption("price-asc", priceLow), DropdownOption("price-desc", priceHigh)]
  }

  /** `getCategoryLabel`. */
  function CategoryLabelOf(categories: seq<string>, options: seq<DropdownOption>): (l: CategoryLabel)
    ensures l == AllCategories <==>
      |categories| == 0 || (|categories| == 1 && !(exists o :: o in options && o.value == categories[0]))
    ensures l.OptionCaption? ==> |categories| == 1 && FindOption(options, categories[0]) == Some(DropdownOption(categories[0], l.caption))
    ensures l.CategoriesCount? <==> |categories| >= 2
    ensures l.CategoriesCount? ==> l.count == |categories|
  {
    if |categories| == 0 then AllCategories
    else if |categories| == 1 then
      match FindOption(options, categories[0])
      case Some(o) => OptionCaption(o.caption)
      case None => AllCategories
    else CategoriesCount(|categories|)
  }

  /** `getColorLabel`. */
  function ColorLabelOf(colors: seq<string>): (l: ColorLabel)
    ensures l == GenericColor <==> |colors| == 0
    ensures l.ColorName? <==> |colors| == 1
    ensures l.ColorName? ==> l.key == colors[0]
    ensures l.ColorsSelected? <==> |colors| >= 2
    ensures l.ColorsSelected? ==> l.count == |colors|
  {
    if |colors| == 0 then GenericColor
    else if |colors| == 1 then ColorName(colors[0])
    else ColorsSelected(|colors|)
  }

  /** `activeFilterCount`: selected categories (when the category filter is shown) plus selected
      colours. */
  function ActiveFilterCount(showCategoryFilter: bool, categories: seq<string>, colors: seq<string>): (n: nat)
    ensures n == 0 <==> (!showCategoryFilter || categories == []) && colors == []
    ensures n >= |colors|
  {
    (if showCategoryFilter then |categories| else 0) + |colors|
  }

  /** The badge on the mobile "filters" button. */
  predicate ShowsBadge(showCategoryFilter: bool, categories: seq<string>, colors: seq<string>) {
    ActiveFilterCount(showCategoryFilter, categories, colors) > 0
  }

  predicate ShowsCategoryDropdown(showCategoryFilter: bool, categoryOptions: seq<DropdownOption>) {
    showCategoryFilter && |categoryOptions| > 0
  }

  predicate ShowsClearButton(hasActiveFilters: bool) {
    hasActiveFilters
  }

  /** The category dropdown's output as a handler call: its clear hands over the empty list. */
  function CategoryEffect(emit: MultiSelectDropdown.Emit): (e: Option<Effect>)
    ensures emit.Cleared? ==> e == Some(CategoriesChange([]))
    ensures emit.Changed? ==> e == Some(CategoriesChange(emit.values))
    ensures emit.Nothing? <==> e.None?
  {
    match emit
    case Nothing => None
    case Changed(values) => Some(CategoriesChange(values))
    case Cleared => Some(CategoriesChange([]))
  }

  /** The colour dropdown's output as a handler call: its clear hands over the empty list. */
  function ColorEffect(emit: ColorDropdown.Emit): (e: Option<Effect>)
    ensures emit.Cleared? ==> e == Some(ColorsChange([]))
    ensures emit.Changed? ==> e == Some(ColorsChange(emit.values))
    ensures emit.Nothing? <==> e.None?
  {
    match emit
    case Nothing => None
    case Changed(values) => Some(ColorsChange(values))
    case Cleared => Some(ColorsChange([]))
  }

  /** The drawer's output: the handler calls made and whether the drawer stays open. Its clear
      clears every filter and then closes the drawer. */
  function DrawerEffect(drawerOpen: bool, emit: MobileFilterDrawer.Emit): (r: (seq<Effect>, bool))
    ensures emit.Cleared? ==> r == ([ClearFilters], false)
    ensures emit.Closed? ==> r == ([], false)
    ensures emit.CategoriesChanged? ==> r == ([CategoriesChange(emit.values)], drawerOpen)
    ensures emit.ColorsChanged? ==> r == ([ColorsChange(emit.values)], drawerOpen)
    ensures emit.Nothing? ==> r == ([], drawerOpen)
  {
    match emit
    case Nothing => ([], drawerOpen)
    case CategoriesChanged(values) => ([CategoriesChange(values)], drawerOpen)
    case ColorsChanged(values) => ([ColorsChange(values)], drawerOpen)
    case Cleared => ([ClearFilters], false)
    case Closed => ([], false)
  }

  // ---------------------------------------------------------------------------------------------
  // Lemmas

  /** As the listing wires it (the category filter shown exactly when no category is locked), the
      badge never appears without the "clear filters" button; the button can appear without the
      badge only because a sort is chosen. */
  lemma BadgeAgreesWithClearButton(locked: string, st: ProductGrid.FilterState)
    ensures ShowsBadge(locked == "", st.categories, st.colors) ==> ShowsClearButton(ProductGrid.HasActiveFilters(locked, st))
    ensures ShowsClearButton(ProductGrid.HasActiveFilters(locked, st)) && !ShowsBadge(locked == "", st.categories, st.colors)
        ==> st.sort != ""
  {
  }

  /** The category label names a single option exactly when one value is selected and an option
      carries it; it is that option's caption. */
  lemma SingleCategoryLabel(categories: seq<string>, options: seq<DropdownOption>, i: nat)
    requires |categories| == 1 && i < |options| && options[i].value == categories[0]
    requires forall j :: 0 <= j < i ==> options[j].value != categories[0]
    ensures CategoryLabelOf(categories, options) == OptionCaption(options[i].caption)
  {
    FindOptionIsFirst(options, categories[0], i);
  }

  /** A sort value the menu does not offer ("" included) leaves the sort trigger on its
      placeholder and sorts newest first. */
  lemma UnofferedSortIsNewest(sort: string, newest: string, priceLow: string, priceHigh: string)
    requires !(exists o :: o in SortOptions(newest, priceLow, priceHigh) && o.value == sort)
    ensures FindOption(SortOptions(newest, priceLow, priceHigh), sort).None?
    ensures ProductGrid.ModeOf(sort) == ProductGrid.Newest
  {
    var options := SortOptions(newest, priceLow, priceHigh);
    assert options[1] in options && options[2] in options;
  }
}
