/** The cart context (src/context/CartContext.tsx): whether the cart drawer is open, the items
    (which nothing in the shown code ever changes) and their total quantity. */
module CartContext {
  import opened Wrappers

  /** A cart line; the price is in cents and the image is left out. */
  datatype CartItem = CartItem(id: string, name: string, price: int, quantity: int)

  /** The message `useCart` throws outside a provider. */
  const OutsideProvider: string := "useCart must be used within a CartProvider"

  /** `cartItems.reduce((sum, item) => sum + item.quantity, 0)`: the quantities added from the
      first item to the last. */
  function CartCount(items: seq<CartItem>): int
  {
    if items == [] then 0 else CartCount(items[..|items| - 1]) + items[|items| - 1].quantity
  }

  /** The context value a component receives. */
  datatype CartView = CartView(isCartOpen: bool, cartItems: seq<CartItem>, cartCount: int)

  /** `useCart`: the provider's value, or the error thrown when there is no provider above. */
  function UseCart(context: Option<CartView>): (r: Result<CartView, string>)
    ensures context.None? <==> r == Err(OutsideProvider)
    ensures context.Some? ==> r == Ok(context.value)
  {
    match context
    case None => Err(OutsideProvider)
    case Some(view) => Ok(view)
  }

  /** The provider's state. `cartItems` has no setter, so it is a constant here. */
  class CartProvider {
    var isCartOpen: bool
    const cartItems: seq<CartItem>

    constructor()
      ensures !isCartOpen && cartItems == []
    {
      isCartOpen := false;
      cartItems := [];
    }

    method OpenCart()
      modifies this`isCartOpen
      ensures isCartOpen
    {
      isCartOpen := true;
    }

    method CloseCart()
      modifies this`isCartOpen
      ensures !isCartOpen
    {
      isCartOpen := false;
    }

    function View(): (v: CartView)
      reads this
      ensures v.isCartOpen == isCartOpen && v.cartItems == cartItems
      ensures v.cartCount == CartCount(cartItems)
    {
      CartView(isCartOpen, cartItems, CartCount(cartItems))
    }
  }

  // ---------------------------------------------------------------------------------------------
  // Lemmas

  /** The count of two lists one after the other is the sum of their counts. */
  lemma {:induction false} CartCountAppend(a: seq<CartItem>, b: seq<CartItem>)
    ensures CartCount(a + b) == CartCount(a) + CartCount(b)
    decreases |b|
  {
    if b == [] {
      assert a + b == a;
    } else {
      var b' := b[..|b| - 1];
      assert (a + b)[..|a + b| - 1] == a + b';
      CartCountAppend(a, b');
    }
  }

  /** The count does not depend on the order of the items (summing from the front gives the same
      total), and an added item adds exactly its quantity. */
  lemma {:induction false} CartCountFromFront(items: seq<CartItem>)
    ensures items != [] ==> CartCount(items) == items[0].quantity + CartCount(items[1..])
    ensures forall item :: CartCount(items + [item]) == CartCount(items) + item.quantity
  {
    if items != [] {
      CartCountAppend([items[0]], items[1..]);
      assert [items[0]] + items[1..] == items;
      assert CartCount([items[0]]) == CartCount([]) + items[0].quantity;
    }
    forall item ensures CartCount(items + [item]) == CartCount(items) + item.quantity {
      assert (items + [item])[..|items|] == items;
    }
  }

  /** The count of items with non-negative quantities is non-negative, and 0 for the empty cart. */
  lemma {:induction false} CartCountNonNegative(items: seq<CartItem>)
    requires forall i :: 0 <= i < |items| ==> items[i].quantity >= 0
    ensures CartCount(items) >= 0
    ensures items == [] ==> CartCount(items) == 0
  {
    if items != [] {
      CartCountNonNegative(items[..|items| - 1]);
    }
  }
}
