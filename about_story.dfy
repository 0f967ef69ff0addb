/** The story section of the About page (src/components/sections/AboutStory.tsx): the text is
    cut into paragraphs at blank lines, and the `reversed` flag chooses the desktop column order
    and the fade-in delays. */
module AboutStory {
  import opened Seqs
  import opened Text

  const ParagraphBreak: string := "\n\n"

  /** `text.split('\n\n').filter(Boolean)`. */
  function Paragraphs(text: string): (paragraphs: seq<string>)
    ensures forall p :: p in paragraphs ==> p != ""
    ensures forall p :: p in paragraphs <==> p in Split(text, ParagraphBreak) && p != ""
  {
    NonEmpty(Split(text, ParagraphBreak))
  }

  /** The flex direction of the two columns on wide screens. The markup always holds the text
      first and the image second. */
  datatype Direction = Row | RowReverse

  datatype Column = TextColumn | ImageColumn

  datatype Layout = Layout(direction: Direction, imageDelay: nat, textDelay: nat)

  /** `reversed` puts the columns in markup order and delays the image by 150 ms; otherwise they
      are swapped and the text is delayed by 100 ms. */
  function LayoutOf(reversed: bool): (layout: Layout)
    ensures reversed ==> layout == Layout(Row, 150, 0)
    ensures !reversed ==> layout == Layout(RowReverse, 0, 100)
  {
    if reversed then Layout(Row, 150, 0) else Layout(RowReverse, 0, 100)
  }

  /** The column on the left on wide screens. */
  function LeftColumn(layout: Layout): Column {
    if layout.direction == Row then TextColumn else ImageColumn
  }

  /** The delay of a column's fade-in. */
  function DelayOf(layout: Layout, column: Column): nat {
    if column == TextColumn then layout.textDelay else layout.imageDelay
  }

  /** The other column. */
  function Other(column: Column): Column {
    if column == TextColumn then ImageColumn else TextColumn
  }

  // ---------------------------------------------------------------------------------------------
  // Lemmas

  /** `filter(Boolean)` on strings keeps the non-empty ones, as `Keep` does. */
  lemma {:induction false} NonEmptyIsKeep(parts: seq<string>)
    ensures NonEmpty(parts) == Keep(parts, (p: string) => p != "")
  {
    if parts != [] {
      NonEmptyIsKeep(parts[1..]);
    }
  }

  /** No paragraph contains a blank line. */
  lemma ParagraphsAvoidBreak(text: string)
    ensures forall p :: p in Paragraphs(text) ==> !Contains(p, ParagraphBreak)
  {
    SplitPartsAvoidSeparator(text, ParagraphBreak);
  }

  /** Paragraphs keep the order in which they appear in the text. */
  lemma ParagraphsInOrder(text: string)
    ensures IsSubsequence(Paragraphs(text), Split(text, ParagraphBreak))
  {
    NonEmptyIsKeep(Split(text, ParagraphBreak));
    KeepIsSubsequence(Split(text, ParagraphBreak), (p: string) => p != "");
  }

  /** A non-empty text without a blank line is one paragraph, itself; an empty text is none. */
  lemma SingleParagraph(text: string)
    requires !Contains(text, ParagraphBreak)
    ensures text != "" ==> Paragraphs(text) == [text]
    ensures text == "" ==> Paragraphs(text) == []
  {
    SplitWithoutSeparator(text, ParagraphBreak);
    assert [text][1..] == [];
  }

  /** The image is on the left on wide screens exactly when the section is not reversed, and
      whichever column is on the right fades in after the one on the left. */
  lemma RightColumnFadesInLater(reversed: bool)
    ensures LeftColumn(LayoutOf(reversed)) == (if reversed then TextColumn else ImageColumn)
    ensures var layout := LayoutOf(reversed);
      DelayOf(layout, LeftColumn(layout)) < DelayOf(layout, Other(LeftColumn(layout)))
  {
  }
}
