/** The mobile filter sheet (src/components/shop/MobileFilterDrawer.tsx). It keeps no state of its
    own: every row click is turned into a new list for the caller, and nothing is drawn while it
    is closed. */
module MobileFilterDrawer {
  import opened Wrappers
  import opened Options
  import opened ColorTable
  import opened SelectionList

  datatype Click =
    | CategoryRow(value: string)
    | ColorRow(key: string)
    | ClearButton
    | CloseButton        // the backdrop, the header cross and the "show results" button

  datatype Emit =
    | Nothing
    | CategoriesChanged(values: seq<string>)
    | ColorsChanged(values: seq<string>)
    | Cleared
    | Closed

  /** What is on screen while open: one row per category option and one per table colour, each
      with its check mark. */
  datatype Sheet = Sheet(categoryRows: seq<(DropdownOption, bool)>, colorRows: seq<(ColorEntry, bool)>)

  /** Rendering: nothing when closed. */
  function Render(open: bool, categoryOptions: seq<DropdownOption>, categories: seq<string>, colors: seq<string>): (r: Option<Sheet>)
    ensures r.Some? <==> open
    ensures r.Some? ==> |r.value.categoryRows| == |categoryOptions| && |r.value.colorRows| == |AvailableColors|
    ensures r.Some? ==> forall i :: 0 <= i < |categoryOptions| ==>
      r.value.categoryRows[i] == (categoryOptions[i], categoryOptions[i].value in categories)
    ensures r.Some? ==> forall i :: 0 <= i < |AvailableColors| ==>
      r.value.colorRows[i] == (AvailableColors[i], AvailableColors[i].key in colors)
  {
    if open then Some(Sheet(CategoryRows(categoryOptions, categories), ColorRows(AvailableColors, colors))) else None
  }

  function CategoryRows(options: seq<DropdownOption>, values: seq<string>): (rows: seq<(DropdownOption, bool)>)
    ensures |rows| == |options|
    ensures forall i :: 0 <= i < |rows| ==> rows[i] == (options[i], options[i].value in values)
  {
    if options == [] then [] else [(options[0], IsChecked(values, options[0].value))] + CategoryRows(options[1..], values)
  }

  function ColorRows(entries: seq<ColorEntry>, values: seq<string>): (rows: seq<(ColorEntry, bool)>)
    ensures |rows| == |entries|
    ensures forall i :: 0 <= i < |rows| ==> rows[i] == (entries[i], entries[i].key in values)
  {
    if entries == [] then [] else [(entries[0], IsChecked(values, entries[0].key))] + ColorRows(entries[1..], values)
  }

  /** One click. A closed drawer has nothing to click. `toggleCategory` and `toggleColor` hand the
      toggled list to the caller; clear hands over the request and edits no list. */
  function Step(open: bool, categoryOptions: seq<DropdownOption>, categories: seq<string>, colors: seq<string>, click: Click): (e: Emit)
    ensures !open ==> e == Nothing
    ensures e.CategoriesChanged? ==> click.CategoryRow? && e.values == Toggle(categories, click.value)
    ensures e.ColorsChanged? ==> click.ColorRow? && e.values == Toggle(colors, click.key)
    ensures open && click.ClearButton? ==> e == Cleared
    ensures open && click.CloseButton? ==> e == Closed
    ensures open && click.CategoryRow? && (exists o :: o in categoryOptions && o.value == click.value)
        ==> e == CategoriesChanged(Toggle(categories, click.value))
    ensures open && click.ColorRow? && click.key in Keys() ==> e == ColorsChanged(Toggle(colors, click.key))
  {
    if !open then Nothing
    else match click
      case CategoryRow(value) =>
        if FindOption(categoryOptions, value).Some? then CategoriesChanged(Toggle(categories, value)) else Nothing
      case ColorRow(key) =>
        if FindColor(key).Some? then ColorsChanged(Toggle(colors, key)) else Nothing
      case ClearButton => Cleared
      case CloseButton => Closed
  }
}
