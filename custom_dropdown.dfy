/** The single-choice dropdown used for the sort order (src/components/ui/CustomDropdown.tsx). */
module CustomDropdown {
  import opened Wrappers
  import opened Options

  datatype Click =
    | Trigger
    | ClearIcon
    | Choose(value: string)   // the option row carrying this value

  /** `Some(v)` when the component calls `onChange(v)`. */
  datatype Outcome = Outcome(open: bool, emit: Option<string>)

  /** `selected`: the first option whose value is the current value. */
  function Selected(options: seq<DropdownOption>, value: string): (r: Option<DropdownOption>)
    ensures r.Some? <==> exists o :: o in options && o.value == value
    ensures r.Some? ==> r.value in options && r.value.value == value
  {
    FindOption(options, value)
  }

  /** The trigger's text: the selected option's caption, else the placeholder. */
  function ButtonText(options: seq<DropdownOption>, value: string, placeholder: string): (text: string)
    ensures (exists o :: o in options && o.value == value) ==> text == Selected(options, value).value.caption
    ensures !(exists o :: o in options && o.value == value) ==> text == placeholder
  {
    match Selected(options, value)
    case Some(o) => o.caption
    case None => placeholder
  }

  /** The clear icon replaces the arrow only on a clearable dropdown with something selected. */
  predicate ShowsClearIcon(clearable: bool, options: seq<DropdownOption>, value: string) {
    clearable && Selected(options, value).Some?
  }

  /** One click. Choosing emits the row's value and closes; the clear icon emits "" and closes;
      where the clear icon is not drawn, the click lands on the trigger. */
  function Step(open: bool, options: seq<DropdownOption>, value: string, clearable: bool, click: Click): (o: Outcome)
    ensures click.Trigger? ==> o == Outcome(!open, None)
    ensures click.ClearIcon? && ShowsClearIcon(clearable, options, value) ==> o == Outcome(false, Some(""))
    ensures click.Choose? && open && (exists opt :: opt in options && opt.value == click.value)
        ==> o == Outcome(false, Some(click.value))
    ensures o.emit.Some? ==> !o.open
    ensures o.emit == Some("") && click.ClearIcon? ==> ShowsClearIcon(clearable, options, value)
    ensures o.emit.Some? && o.emit.value != "" ==> click.Choose? && open && o.emit.value == click.value
  {
    match click
    case Trigger => Outcome(!open, None)
    case ClearIcon =>
      if ShowsClearIcon(clearable, options, value) then Outcome(false, Some("")) else Outcome(!open, None)
    case Choose(v) =>
      if open && FindOption(options, v).Some? then Outcome(false, Some(v)) else Outcome(open, None)
  }

  /** The empty value is never shown as a choice when no option carries it: the placeholder is
      shown and there is nothing to clear. */
  lemma EmptyValueShowsPlaceholder(options: seq<DropdownOption>, placeholder: string, clearable: bool)
    requires forall o :: o in options ==> o.value != ""
    ensures ButtonText(options, "", placeholder) == placeholder
    ensures !ShowsClearIcon(clearable, options, "")
  {
  }

  /** Choosing an option and reopening the dropdown shows that option's caption. */
  lemma ChooseThenShow(options: seq<DropdownOption>, i: nat, placeholder: string)
    requires i < |options|
    requires forall j :: 0 <= j < i ==> options[j].value != options[i].value
    ensures ButtonText(options, options[i].value, placeholder) == options[i].caption
  {
    FindOptionIsFirst(options, options[i].value, i);
  }
}
