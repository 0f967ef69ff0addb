/** The colour check-list dropdown (src/components/ui/ColorDropdown.tsx): the fixed colour table as
    options, and up to three swatches of the current selection on the trigger. */
module ColorDropdown {
  import opened Wrappers
  import opened ColorTable
  import opened SelectionList
  import opened Seqs

  datatype Click =
    | Trigger
    | ClearIcon
    | Row(key: string)

  datatype Emit = Nothing | Changed(values: seq<string>) | Cleared

  datatype Outcome = Outcome(open: bool, emit: Emit)

  /** The swatches on the trigger: the first three selected keys, each drawn in its table colour,
      with keys the table does not know skipped. */
  function Swatches(values: seq<string>): (swatches: seq<ColorEntry>)
    ensures |swatches| <= 3 && |swatches| <= |values|
    ensures forall c :: c in swatches ==> c in AvailableColors && c.key in values[..Min(3, |values|)]
  {
    Known(AvailableColors, values[..Min(3, |values|)])
  }

  function Min(a: int, b: int): int {
    if a <= b then a else b
  }

  /** The entries of `table` with the given keys, in key order, skipping unknown keys. */
  function Known(table: seq<ColorEntry>, keys: seq<string>): (entries: seq<ColorEntry>)
    ensures |entries| <= |keys|
    ensures forall c :: c in entries ==> c in table && c.key in keys
  {
    if keys == [] then []
    else
      var rest := Known(table, keys[1..]);
      assert forall c :: c in rest ==> c.key in keys by {
        forall c | c in rest ensures c.key in keys {
          assert c.key in keys[1..];
        }
      }
      match Lookup(table, keys[0])
      case Some(entry) => [entry] + rest
      case None => rest
  }

  /** The rows drawn while open: the whole colour table in table order, with check marks. */
  function Rows(values: seq<string>): (rows: seq<(ColorEntry, bool)>)
    ensures |rows| == |AvailableColors|
    ensures forall i :: 0 <= i < |rows| ==> rows[i].0 == AvailableColors[i] && (rows[i].1 <==> AvailableColors[i].key in values)
  {
    RowsOf(AvailableColors, values)
  }

  function RowsOf(entries: seq<ColorEntry>, values: seq<string>): (rows: seq<(ColorEntry, bool)>)
    ensures |rows| == |entries|
    ensures forall i :: 0 <= i < |rows| ==> rows[i].0 == entries[i] && (rows[i].1 <==> entries[i].key in values)
  {
    if entries == [] then []
    else [(entries[0], IsChecked(values, entries[0].key))] + RowsOf(entries[1..], values)
  }

  /** One click, with the same trigger and clear rules as the category dropdown; rows are the
      table's keys. */
  function Step(open: bool, values: seq<string>, hasClear: bool, click: Click): (o: Outcome)
    ensures click.Trigger? ==> o == Outcome(!open, Nothing)
    ensures click.ClearIcon? && hasClear ==> o == Outcome(false, Cleared)
    ensures o.emit.Cleared? ==> click.ClearIcon? && hasClear && !o.open
    ensures o.emit.Changed? ==> click.Row? && open && click.key in Keys() && o.emit.values == Toggle(values, click.key)
    ensures click.Row? && open && click.key in Keys() ==> o == Outcome(true, Changed(Toggle(values, click.key)))
  {
    match click
    case Trigger => Outcome(!open, Nothing)
    case ClearIcon => if hasClear then Outcome(false, Cleared) else Outcome(!open, Nothing)
    case Row(key) =>
      if open && FindColor(key).Some? then Outcome(true, Changed(Toggle(values, key)))
      else Outcome(open, Nothing)
  }

  /** When the first three selected keys are all in the table, there is one swatch per key, in
      selection order. */
  lemma {:induction false} KnownKeysGiveSwatches(table: seq<ColorEntry>, keys: seq<string>)
    requires forall k :: k in keys ==> k in KeysOf(table)
    ensures |Known(table, keys)| == |keys|
    ensures forall i :: 0 <= i < |keys| ==> Known(table, keys)[i].key == keys[i]
  {
    if keys != [] {
      assert keys[0] in keys;
      assert forall k :: k in keys[1..] ==> k in keys;
      KnownKeysGiveSwatches(table, keys[1..]);
    }
  }

  /** An unknown key draws no swatch. */
  lemma {:induction false} UnknownKeysSkipped(table: seq<ColorEntry>, keys: seq<string>)
    requires forall k :: k in keys ==> k !in KeysOf(table)
    ensures Known(table, keys) == []
  {
    if keys != [] {
      assert keys[0] in keys;
      assert forall k :: k in keys[1..] ==> k in keys;
      UnknownKeysSkipped(table, keys[1..]);
    }
  }

  /** The swatches of a selection are those of its parts, one after the other: with `KnownSingle`
      this fixes the swatches of every selection, known and unknown keys mixed. */
  lemma {:induction false} KnownAppend(table: seq<ColorEntry>, a: seq<string>, b: seq<string>)
    ensures Known(table, a + b) == Known(table, a) + Known(table, b)
  {
    if a != [] {
      assert (a + b)[0] == a[0];
      assert (a + b)[1..] == a[1..] + b;
      KnownAppend(table, a[1..], b);
    } else {
      assert a + b == b;
    }
  }

  /** One key draws its table entry when the table has it, and nothing otherwise. */
  lemma KnownSingle(table: seq<ColorEntry>, key: string)
    ensures Known(table, [key]) == (if Lookup(table, key).Some? then [Lookup(table, key).value] else [])
  {
    assert [key][1..] == [];
  }

  /** An unknown key before a known one: only the known colour is drawn. */
  lemma MixedSelection()
    ensures Swatches(["foo", "olive"]) == [ColorEntry("olive", "#8B8424")]
  {
    var values := ["foo", "olive"];
    assert values[..Min(3, |values|)] == ["foo"] + ["olive"];
    KnownAppend(AvailableColors, ["foo"], ["olive"]);
    KnownSingle(AvailableColors, "foo");
    KnownSingle(AvailableColors, "olive");
    OliveFound();
    FooUnknown();
  }

  lemma OliveFound()
    ensures Lookup(AvailableColors, "olive") == Some(ColorEntry("olive", "#8B8424"))
  {
    FindAt(AvailableColors, (c: ColorEntry) => c.key == "olive", 1);
  }

  lemma FooUnknown()
    ensures Lookup(AvailableColors, "foo") == None
  {
    assert "foo" !in KeysOf(AvailableColors);
  }
}
