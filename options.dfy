/** Dropdown options `{ value, label }` (the label is the field `caption`, `label` being a Dafny keyword) and the first-match lookup `options.find((o) => o.value === value)`
    used by src/components/ui/CustomDropdown.tsx and src/components/shop/FilterBar.tsx. */
module Options {
  import opened Wrappers
  import opened Seqs

  datatype DropdownOption = DropdownOption(value: string, caption: string)

  /** The first option whose value is `value`, or `undefined`. */
  function FindOption(options: seq<DropdownOption>, value: string): (r: Option<DropdownOption>)
    ensures r.Some? <==> exists o :: o in options && o.value == value
    ensures r.Some? ==> r.value in options && r.value.value == value
  {
    Find(options, (o: DropdownOption) => o.value == value)
  }

  /** When several options share the value, the lookup returns the earliest. */
  lemma FindOptionIsFirst(options: seq<DropdownOption>, value: string, i: nat)
    requires i < |options| && options[i].value == value
    requires forall j :: 0 <= j < i ==> options[j].value != value
    ensures FindOption(options, value) == Some(options[i])
  {
    var f := (o: DropdownOption) => o.value == value;
    assert f(options[i]);
  }
}
