/** The category check-list dropdown (src/components/ui/MultiSelectDropdown.tsx). Its only state
    is whether the list is open; the selection belongs to the caller, who receives every edit
    through `onChange` or `onClear`. */
module MultiSelectDropdown {
  import opened Options
  import opened SelectionList

  /** A click the component reacts to. */
  datatype Click =
    | Trigger                  // the button that shows the current label
    | ClearIcon                // the icon at the right end of that button
    | Row(value: string)       // the option row carrying this value

  /** What the component hands to its caller. */
  datatype Emit = Nothing | Changed(values: seq<string>) | Cleared

  datatype Outcome = Outcome(open: bool, emit: Emit)

  /** The rows drawn while open: every option in order, with its check mark. */
  function Rows(options: seq<DropdownOption>, values: seq<string>): (rows: seq<(DropdownOption, bool)>)
    ensures |rows| == |options|
    ensures forall i :: 0 <= i < |rows| ==> rows[i].0 == options[i] && (rows[i].1 <==> options[i].value in values)
  {
    if options == [] then []
    else [(options[0], IsChecked(values, options[0].value))] + Rows(options[1..], values)
  }

  /** One click. The clear icon is drawn only when `hasClear`; otherwise the arrow stands there and
      a click on it is a click on the trigger. Rows exist only while the list is open. */
  function Step(open: bool, options: seq<DropdownOption>, values: seq<string>, hasClear: bool, click: Click): (o: Outcome)
    ensures click.Trigger? ==> o == Outcome(!open, Nothing)
    ensures click.ClearIcon? && hasClear ==> o == Outcome(false, Cleared)
    ensures o.emit.Cleared? ==> click.ClearIcon? && hasClear && !o.open
    ensures o.emit.Changed? ==> click.Row? && open && o.open && o.emit.values == Toggle(values, click.value)
    ensures click.Row? && open && (exists opt :: opt in options && opt.value == click.value)
        ==> o == Outcome(true, Changed(Toggle(values, click.value)))
    ensures click.Row? && !open ==> o == Outcome(false, Nothing)
  {
    match click
    case Trigger => Outcome(!open, Nothing)
    case ClearIcon => if hasClear then Outcome(false, Cleared) else Outcome(!open, Nothing)
    case Row(value) =>
      if open && FindOption(options, value).Some? then Outcome(true, Changed(Toggle(values, value)))
      else Outcome(open, Nothing)
  }

  /** Two clicks on the trigger leave the list as it was. */
  lemma TriggerTwice(open: bool, options: seq<DropdownOption>, values: seq<string>, hasClear: bool)
    ensures Step(Step(open, options, values, hasClear, Trigger).open, options, values, hasClear, Trigger).open == open
  {
  }
}
