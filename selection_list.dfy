/** The check-list edit shared by the category dropdown (src/components/ui/MultiSelectDropdown.tsx),
    the colour dropdown (src/components/ui/ColorDropdown.tsx) and the mobile filter drawer
    (src/components/shop/MobileFilterDrawer.tsx): clicking a row toggles its value in the list. */
module SelectionList {
  import opened Seqs

  /** `values.filter((v) => v !== value)`. */
  function Remove(values: seq<string>, value: string): (r: seq<string>)
    ensures value !in r
    ensures forall x :: x != value ==> (x in r <==> x in values)
  {
    Keep(values, (x: string) => x != value)
  }

  /** A present value is removed (every occurrence); an absent one is appended at the end. */
  function Toggle(values: seq<string>, value: string): (r: seq<string>)
    ensures value in r <==> value !in values
    ensures forall x :: x != value ==> (x in r <==> x in values)
    ensures value !in values ==> |r| == |values| + 1 && r[..|values|] == values && r[|values|] == value
  {
    if value in values then Remove(values, value) else values + [value]
  }

  /** A row is drawn checked exactly when its value is in the list. */
  predicate IsChecked(values: seq<string>, value: string) {
    value in values
  }

  // ---------------------------------------------------------------------------------------------
  // Lemmas

  /** Removing a value keeps every other element, as often as it occurred and in the same order. */
  lemma RemoveKeepsOthersInOrder(values: seq<string>, value: string)
    ensures IsSubsequence(Remove(values, value), values)
    ensures forall x :: x != value ==> multiset(Remove(values, value))[x] == multiset(values)[x]
  {
    var f := (x: string) => x != value;
    KeepIsSubsequence(values, f);
    forall x | x != value ensures multiset(Remove(values, value))[x] == multiset(values)[x] {
      KeepCount(values, f, x);
    }
  }

  /** Toggling an absent value twice gives back the original list. */
  lemma ToggleTwiceRestores(values: seq<string>, value: string)
    requires value !in values
    ensures Toggle(Toggle(values, value), value) == values
  {
    var f := (x: string) => x != value;
    KeepAppend(values, [value], f);
    KeepAll(values, f);
    assert Keep([value], f) == [];
  }

  /** Toggling a present value twice drops its duplicates and moves it to the end. */
  lemma ToggleTwiceMovesToEnd(values: seq<string>, value: string)
    requires value in values
    ensures Toggle(Toggle(values, value), value) == Remove(values, value) + [value]
  {
  }
}
