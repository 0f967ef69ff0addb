/** The breadcrumb trail (src/components/ui/Breadcrumb.tsx): each item becomes a cell with a
    separator before it unless it is first, and a link unless it is the last item or has no
    destination. */
module Breadcrumb {
  import opened Wrappers

  /** A breadcrumb entry: its label and optional destination. */
  datatype Item = Item(text: string, href: Option<string>)

  /** One rendered cell: whether a chevron precedes it, the link target if it is a link, and the
      label. */
  datatype Cell = Cell(separator: bool, link: Option<string>, text: string)

  /** `!item.href` is false exactly for a present, non-empty destination. */
  predicate HasHref(item: Item) {
    item.href.Some? && item.href.value != ""
  }

  /** The cell for the item at index `i` of `items`. */
  function CellAt(items: seq<Item>, i: nat): Cell
    requires i < |items|
  {
    var isLast := i == |items| - 1;
    Cell(i > 0, if isLast || !HasHref(items[i]) then None else items[i].href, items[i].text)
  }

  /** The trail: one cell per item, in order. */
  function Render(items: seq<Item>): (cells: seq<Cell>)
    ensures |cells| == |items|
    ensures forall i :: 0 <= i < |items| ==> cells[i].text == items[i].text
    ensures forall i :: 0 <= i < |items| ==> (cells[i].separator <==> i > 0)
  {
    seq(|items|, i requires 0 <= i < |items| => CellAt(items, i))
  }

  /** How many cells carry a separator. */
  function Separators(cells: seq<Cell>): nat {
    if cells == [] then 0
    else Separators(cells[..|cells| - 1]) + (if cells[|cells| - 1].separator then 1 else 0)
  }

  // ---------------------------------------------------------------------------------------------
  // Lemmas

  /** A list whose cells carry a separator exactly after the first has one separator fewer than
      cells. */
  lemma {:induction false} SeparatorsAfterFirst(cells: seq<Cell>)
    requires forall i :: 0 <= i < |cells| ==> (cells[i].separator <==> i > 0)
    ensures Separators(cells) == if cells == [] then 0 else |cells| - 1
  {
    if cells != [] {
      var front := cells[..|cells| - 1];
      assert forall i :: 0 <= i < |front| ==> front[i] == cells[i];
      SeparatorsAfterFirst(front);
    }
  }

  /** `n` items are separated by `n - 1` chevrons. */
  lemma SeparatorCount(items: seq<Item>)
    ensures Separators(Render(items)) == if items == [] then 0 else |items| - 1
  {
    SeparatorsAfterFirst(Render(items));
  }

  /** The cell of item `i` is a link exactly when the item is not the last and has a destination,
      and then it links to that destination. */
  lemma LinkRule(items: seq<Item>, i: nat)
    requires i < |items|
    ensures Render(items)[i].link.Some? <==> i < |items| - 1 && HasHref(items[i])
    ensures Render(items)[i].link.Some? ==> Render(items)[i].link == items[i].href
  {
  }

  /** The current page, the last item, is never a link. */
  lemma LastNeverLinks(items: seq<Item>)
    requires items != []
    ensures Render(items)[|items| - 1].link.None?
  {
    LinkRule(items, |items| - 1);
  }

  /** An item without a destination is never a link, wherever it stands. */
  lemma NoHrefNeverLinks(items: seq<Item>)
    ensures forall i :: 0 <= i < |items| && !HasHref(items[i]) ==> Render(items)[i].link.None?
  {
    forall i | 0 <= i < |items| && !HasHref(items[i])
      ensures Render(items)[i].link.None?
    {
      LinkRule(items, i);
    }
  }
}
