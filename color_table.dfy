/** The fixed colour table (src/constants/colors.ts): the colour keys a product can carry, each
    with the swatch colour it is drawn in, in the order the pickers list them. */
module ColorTable {
  import opened Wrappers
  import opened Seqs

  datatype ColorEntry = ColorEntry(key: string, hex: string)

  const AvailableColors: seq<ColorEntry> := [
    ColorEntry("cream", "#F5F0E8"),
    ColorEntry("olive", "#8B8424"),
    ColorEntry("pink", "#D4A0A0"),
    ColorEntry("sage", "#A8B5A0"),
    ColorEntry("dusty-rose", "#C9A0B0"),
    ColorEntry("sand", "#D4C9B8"),
    ColorEntry("lavender", "#B8A9C9")
  ]

  /** The keys of a table, in table order. */
  function KeysOf(table: seq<ColorEntry>): (keys: seq<string>)
    ensures |keys| == |table|
    ensures forall i :: 0 <= i < |keys| ==> keys[i] == table[i].key
  {
    seq(|table|, i requires 0 <= i < |table| => table[i].key)
  }

  /** The keys of the colour table. */
  function Keys(): seq<string> {
    KeysOf(AvailableColors)
  }

  /** `table.find((ac) => ac.key === key)`: found exactly for the table's keys. */
  function Lookup(table: seq<ColorEntry>, key: string): (r: Option<ColorEntry>)
    ensures r.Some? <==> key in KeysOf(table)
    ensures r.Some? ==> r.value in table && r.value.key == key
  {
    KeyInKeysOf(table, key);
    Find(table, (c: ColorEntry) => c.key == key)
  }

  /** `availableColors.find((ac) => ac.key === key)`. */
  function FindColor(key: string): Option<ColorEntry> {
    Lookup(AvailableColors, key)
  }

  /** A key is among a table's keys exactly when some entry carries it. */
  lemma KeyInKeysOf(table: seq<ColorEntry>, key: string)
    ensures key in KeysOf(table) <==> exists c :: c in table && c.key == key
  {
    var keys := KeysOf(table);
    if key in keys {
      var i :| 0 <= i < |keys| && keys[i] == key;
      assert table[i] in table;
    }
    if exists c :: c in table && c.key == key {
      var c :| c in table && c.key == key;
      var i :| 0 <= i < |table| && table[i] == c;
      assert keys[i] == key;
    }
  }

  /** No key appears twice, so a key names exactly one table entry. */
  lemma KeysDistinct()
    ensures forall i, j :: 0 <= i < j < |AvailableColors| ==> AvailableColors[i].key != AvailableColors[j].key
  {
  }
}
