/** The mobile navigation menu (src/components/layout/Header/MobileMenu.tsx): a full-screen panel
    with a shop accordion holding the root categories, each expandable when it has children.
    Timers are events: closing schedules a reset 300 ms later, opening schedules the items'
    fade-in 50 ms later (cancelled when the panel closes first), and the panel's cart button
    opens the cart 350 ms after closing. Which timer fires when is the caller's choice. */
module MobileMenu {
  import opened Wrappers
  import opened Text
  import CategoriesApi
  import CartContext

  datatype State = State(
    isOpen: bool,
    shopOpen: bool,
    openCategory: Option<string>,
    animateItems: bool,
    searchOpen: bool,
    /** Deferred resets scheduled by `close` and not yet run; nothing cancels them. */
    pendingResets: nat,
    /** The fade-in timer of the opened panel is running. */
    animatePending: bool,
    /** Deferred cart openings scheduled by the panel's cart button and not yet run. */
    pendingCartOpens: nat)

  datatype Event =
    | MenuButton          // the header's menu / close toggle
    | Close               // the panel's close button, its logo or any of its links
    | PanelCartButton     // the cart button inside the panel
    | ResetTimerFires
    | AnimateTimerFires
    | CartTimerFires
    | ToggleShop
    | ToggleCategory(handle: string)
    | SearchButton
    | SearchClosed

  const Initial: State := State(false, false, None, false, false, 0, false, 0)

  /** `setIsOpen(open)` followed by the effect on `isOpen`: opening starts the fade-in timer,
      closing clears it. Setting the same value changes nothing. */
  function SetOpen(s: State, open: bool): (r: State)
    ensures r.isOpen == open
    ensures r.(animatePending := s.animatePending, isOpen := s.isOpen) == s
    ensures open != s.isOpen ==> r.animatePending == open
    ensures open == s.isOpen ==> r == s
  {
    if open == s.isOpen then s else s.(isOpen := open, animatePending := open)
  }

  /** `close`: hide the panel now and schedule the reset of its accordions and fade-in. */
  function CloseMenu(s: State): (r: State)
    ensures !r.isOpen && r.pendingResets == s.pendingResets + 1
    ensures r.shopOpen == s.shopOpen && r.openCategory == s.openCategory && r.animateItems == s.animateItems
  {
    SetOpen(s, false).(pendingResets := s.pendingResets + 1)
  }

  /** The accordion toggle of category `handle`: it closes when it is the open one, and otherwise
      becomes the open one. */
  function ToggledCategory(current: Option<string>, handle: string): (r: Option<string>)
    ensures r == Some(handle) <==> current != Some(handle)
    ensures r.Some? ==> r.value == handle
  {
    if current == Some(handle) then None else Some(handle)
  }

  /** The state after one event. Whether the cart is opened is reported by `OpensCart`. */
  function Step(s: State, e: Event): State {
    match e
    case MenuButton => SetOpen(s, !s.isOpen)
    case Close => CloseMenu(s)
    case PanelCartButton => CloseMenu(s).(pendingCartOpens := s.pendingCartOpens + 1)
    case ResetTimerFires =>
      if s.pendingResets == 0 then s
      else s.(pendingResets := s.pendingResets - 1, shopOpen := false, openCategory := None, animateItems := false)
    case AnimateTimerFires =>
      if s.animatePending then s.(animateItems := true, animatePending := false) else s
    case CartTimerFires =>
      if s.pendingCartOpens == 0 then s else s.(pendingCartOpens := s.pendingCartOpens - 1)
    case ToggleShop => s.(shopOpen := !s.shopOpen)
    case ToggleCategory(handle) => s.(openCategory := ToggledCategory(s.openCategory, handle))
    case SearchButton => s.(searchOpen := true)
    case SearchClosed => s.(searchOpen := false)
  }

  /** The event opens the cart drawer. */
  predicate OpensCart(s: State, e: Event) {
    e == CartTimerFires && s.pendingCartOpens > 0
  }

  function Run(s: State, events: seq<Event>): State
    decreases |events|
  {
    if events == [] then s else Run(Step(s, events[0]), events[1..])
  }

  // ---------------------------------------------------------------------------------------------
  // Links and the category list

  /** `/shop/{parent}`. */
  function ParentHref(parent: string): (href: string)
    ensures href == Join(["", "shop", parent], "/")
  {
    assert ["", "shop", parent][1..] == ["shop", parent];
    assert ["shop", parent][1..] == [parent];
    assert Join(["shop", parent], "/") == "shop" + "/" + parent;
    assert "" + "/" + ("shop" + "/" + parent) == "/shop/" + parent;
    "/shop/" + parent
  }

  /** `/shop/{parent}/{child}`. */
  function ChildHref(parent: string, child: string): (href: string)
    ensures href == Join(["", "shop", parent, child], "/")
    ensures ParentHref(parent) + "/" + child == href
  {
    var parts := ["", "shop", parent, child];
    assert parts[1..] == ["shop", parent, child];
    assert parts[1..][1..] == [parent, child];
    assert parts[1..][1..][1..] == [child];
    assert Join([parent, child], "/") == parent + "/" + child;
    assert Join(["shop", parent, child], "/") == "shop" + "/" + (parent + "/" + child);
    assert "" + "/" + ("shop" + "/" + (parent + "/" + child)) == "/shop/" + parent + "/" + child;
    "/shop/" + parent + "/" + child
  }

  datatype Link = Link(name: string, href: string)

  /** One root category in the shop accordion: a plain link, or an accordion with the parent's
      link, whether it is expanded, and its children's links. */
  datatype Entry =
    | Plain(link: Link)
    | Accordion(link: Link, expanded: bool, children: seq<Link>)

  function EntryOf(cat: CategoriesApi.MedusaCategory, openCategory: Option<string>): (entry: Entry)
    ensures entry.Accordion? <==> |cat.categoryChildren| > 0
    ensures entry.link == Link(cat.name, ParentHref(cat.handle))
    ensures entry.Accordion? ==> (entry.expanded <==> openCategory == Some(cat.handle))
    ensures entry.Accordion? ==> |entry.children| == |cat.categoryChildren|
    ensures entry.Accordion? ==> forall i :: 0 <= i < |entry.children| ==>
      entry.children[i] == Link(cat.categoryChildren[i].name, ChildHref(cat.handle, cat.categoryChildren[i].handle))
  {
    var link := Link(cat.name, ParentHref(cat.handle));
    if |cat.categoryChildren| > 0 then
      Accordion(link, openCategory == Some(cat.handle),
        seq(|cat.categoryChildren|, i requires 0 <= i < |cat.categoryChildren| =>
          Link(cat.categoryChildren[i].name, ChildHref(cat.handle, cat.categoryChildren[i].handle))))
    else Plain(link)
  }

  function Entries(categories: seq<CategoriesApi.MedusaCategory>, openCategory: Option<string>): (entries: seq<Entry>)
    ensures |entries| == |categories|
    ensures forall i :: 0 <= i < |categories| ==> entries[i] == EntryOf(categories[i], openCategory)
  {
    seq(|categories|, i requires 0 <= i < |categories| => EntryOf(categories[i], openCategory))
  }

  // ---------------------------------------------------------------------------------------------
  // The component

  class Menu {
    var isOpen: bool
    var shopOpen: bool
    var openCategory: Option<string>
    var animateItems: bool
    var searchOpen: bool
    var pendingResets: nat
    var animatePending: bool
    var pendingCartOpens: nat

    function Snapshot(): State
      reads this
    {
      State(isOpen, shopOpen, openCategory, animateItems, searchOpen, pendingResets, animatePending, pendingCartOpens)
    }

    constructor()
      ensures Snapshot() == Initial
    {
      isOpen := false;
      shopOpen := false;
      openCategory := None;
      animateItems := false;
      searchOpen := false;
      pendingResets := 0;
      animatePending := false;
      pendingCartOpens := 0;
    }

    /** `setIsOpen` and the effect that follows a change. */
    method SetIsOpen(open: bool)
      modifies this
      ensures Snapshot() == SetOpen(old(Snapshot()), open)
    {
      if open != isOpen {
        isOpen := open;
        animatePending := open;
      }
    }

    /** The header's menu button. */
    method MenuButton()
      modifies this
      ensures Snapshot() == Step(old(Snapshot()), Event.MenuButton)
    {
      SetIsOpen(!isOpen);
    }

    /** `close`. */
    method Close()
      modifies this
      ensures Snapshot() == Step(old(Snapshot()), Event.Close)
    {
      SetIsOpen(false);
      pendingResets := pendingResets + 1;
    }

    /** The panel's cart button: close, then open the cart later. */
    method PanelCartButton()
      modifies this
      ensures Snapshot() == Step(old(Snapshot()), Event.PanelCartButton)
    {
      Close();
      pendingCartOpens := pendingCartOpens + 1;
    }

    /** The header's own cart button opens the cart at once. */
    method HeaderCartButton(cart: CartContext.CartProvider)
      modifies cart`isCartOpen
      ensures cart.isCartOpen
    {
      cart.OpenCart();
    }

    /** The reset scheduled by `close` runs. */
    method ResetTimerFires()
      modifies this
      ensures Snapshot() == Step(old(Snapshot()), Event.ResetTimerFires)
    {
      if pendingResets > 0 {
        pendingResets := pendingResets - 1;
        shopOpen := false;
        openCategory := None;
        animateItems := false;
      }
    }

    /** The fade-in timer of the opened panel runs. */
    method AnimateTimerFires()
      modifies this
      ensures Snapshot() == Step(old(Snapshot()), Event.AnimateTimerFires)
    {
      if animatePending {
        animateItems := true;
        animatePending := false;
      }
    }

    /** A deferred cart opening runs. */
    method CartTimerFires(cart: CartContext.CartProvider)
      modifies this, cart`isCartOpen
      ensures Snapshot() == Step(old(Snapshot()), Event.CartTimerFires)
      ensures OpensCart(old(Snapshot()), Event.CartTimerFires) ==> cart.isCartOpen
      ensures !OpensCart(old(Snapshot()), Event.CartTimerFires) ==> cart.isCartOpen == old(cart.isCartOpen)
    {
      if pendingCartOpens > 0 {
        pendingCartOpens := pendingCartOpens - 1;
        cart.OpenCart();
      }
    }

    method ToggleShop()
      modifies this
      ensures Snapshot() == Step(old(Snapshot()), Event.ToggleShop)
    {
      shopOpen := !shopOpen;
    }

    method ToggleCategory(handle: string)
      modifies this
      ensures Snapshot() == Step(old(Snapshot()), Event.ToggleCategory(handle))
    {
      openCategory := ToggledCategory(openCategory, handle);
    }

    method OpenSearch()
      modifies this
      ensures Snapshot() == Step(old(Snapshot()), SearchButton)
    {
      searchOpen := true;
    }

    method CloseSearch()
      modifies this
      ensures Snapshot() == Step(old(Snapshot()), SearchClosed)
    {
      searchOpen := false;
    }
  }

  // ---------------------------------------------------------------------------------------------
  // Lemmas

  /** Toggling a category twice leaves it expanded if it was, and otherwise collapses every
      category, which restores the accordion unless another one was open before; toggling a category while another is open moves the expansion
      to it, so at most one category is ever expanded. */
  lemma ToggleCategoryRules(s: State, handle: string, other: string)
    ensures Run(s, [ToggleCategory(handle), ToggleCategory(handle)]).openCategory
      == if s.openCategory == Some(handle) then Some(handle) else None
    ensures s.openCategory.None? || s.openCategory == Some(handle) ==>
      Run(s, [ToggleCategory(handle), ToggleCategory(handle)]).openCategory == s.openCategory
    ensures s.openCategory == Some(other) && other != handle ==>
      Step(s, ToggleCategory(handle)).openCategory == Some(handle)
  {
    var once := Step(s, ToggleCategory(handle));
    assert [ToggleCategory(handle), ToggleCategory(handle)][1..] == [ToggleCategory(handle)];
    assert Run(s, [ToggleCategory(handle), ToggleCategory(handle)]) == Run(once, [ToggleCategory(handle)]);
    assert Run(once, [ToggleCategory(handle)]) == Step(once, ToggleCategory(handle));
  }

  /** Among the rendered categories, every expanded one has the handle of the open category. */
  lemma AtMostOneExpanded(categories: seq<CategoriesApi.MedusaCategory>, openCategory: Option<string>)
    ensures forall i :: (0 <= i < |categories| && Entries(categories, openCategory)[i].Accordion?
                         && Entries(categories, openCategory)[i].expanded) ==> Some(categories[i].handle) == openCategory
  {
  }

  /** The menu button and the shop toggle undo themselves. */
  lemma TogglesUndo(s: State)
    ensures Run(s, [ToggleShop, ToggleShop]) == s
    ensures Run(s, [MenuButton, MenuButton]).isOpen == s.isOpen
  {
    assert [ToggleShop, ToggleShop][1..] == [ToggleShop];
    assert [MenuButton, MenuButton][1..] == [MenuButton];
  }

  /** Closing hides the panel at once; when the deferred reset runs, the shop and category
      accordions are collapsed and the items hidden again, ready for the next opening. */
  lemma CloseThenResetCollapses(s: State)
    ensures !Step(s, Close).isOpen
    ensures var r := Run(s, [Close, ResetTimerFires]);
      !r.isOpen && !r.shopOpen && r.openCategory.None? && !r.animateItems && r.pendingResets == s.pendingResets
  {
    assert [Close, ResetTimerFires][1..] == [ResetTimerFires];
  }

  /** Opening a closed menu with no reset pending and letting the fade-in timer run shows the
      items. */
  lemma OpeningShowsItems(s: State)
    requires !s.isOpen && !s.animatePending && s.pendingResets == 0
    ensures var r := Run(s, [MenuButton, AnimateTimerFires]);
      r.isOpen && r.animateItems && !r.animatePending && r.pendingResets == 0
  {
    assert [MenuButton, AnimateTimerFires][1..] == [AnimateTimerFires];
  }

  /** The panel's cart button closes the menu and, once its timer runs, opens the cart. */
  lemma CartButtonClosesThenOpensCart(s: State)
    ensures !Step(s, PanelCartButton).isOpen
    ensures OpensCart(Step(s, PanelCartButton), CartTimerFires)
  {
  }

  /** Whatever happens, the fade-in timer only runs while the panel is open. */
  lemma {:induction false} AnimateOnlyWhileOpen(s: State, events: seq<Event>)
    requires s.animatePending ==> s.isOpen
    ensures var r := Run(s, events); r.animatePending ==> r.isOpen
    decreases |events|
  {
    if events != [] {
      AnimateOnlyWhileOpen(Step(s, events[0]), events[1..]);
    }
  }

  /** Nothing cancels the reset `close` schedules: reopening the menu before it runs leaves the
      panel open with its items hidden and no fade-in left to show them. */
  lemma ReopenBeforeResetHidesItems()
    ensures var r := Run(Initial, [MenuButton, AnimateTimerFires, Close, MenuButton, AnimateTimerFires, ResetTimerFires]);
      r.isOpen && !r.animateItems && !r.animatePending && r.pendingResets == 0
  {
    var events := [MenuButton, AnimateTimerFires, Close, MenuButton, AnimateTimerFires, ResetTimerFires];
    assert events[1..] == [AnimateTimerFires, Close, MenuButton, AnimateTimerFires, ResetTimerFires];
    assert events[2..] == [Close, MenuButton, AnimateTimerFires, ResetTimerFires];
    assert events[3..] == [MenuButton, AnimateTimerFires, ResetTimerFires];
    assert events[4..] == [AnimateTimerFires, ResetTimerFires];
    assert events[5..] == [ResetTimerFires];
  }

  /** A child link is its parent's link extended by the child's handle, and splitting it at the
      slashes gives back the two handles when neither contains one. */
  lemma ChildHrefSplits(parent: string, child: string)
    requires '/' !in parent && '/' !in child
    ensures Split(ChildHref(parent, child), "/") == ["", "shop", parent, child]
  {
    SplitJoin(["", "shop", parent, child], "/");
  }
}
