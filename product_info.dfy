/** The purchase panel of a product page (src/components/product/ProductInfo.tsx): the initial
    colour, size and quantity choices, the accordion sections, the sale display and the selectors
    shown. Translated texts are given already translated; `None` stands for a missing key. */
module ProductInfo {
  import opened Wrappers
  import opened Seqs
  import opened Text
  import QuantitySelector
  import CartContext

  /** What the panel reads of a product. Prices are in cents. */
  datatype PageProduct = PageProduct(
    price: int,
    originalPrice: Option<int>,
    colors: Option<seq<string>>,
    sizes: Option<seq<string>>,
    description: Option<string>,
    material: Option<string>,
    care: Option<string>)

  datatype SectionKey = Description | MaterialCare

  datatype Section = Section(key: SectionKey, content: Option<string>, defaultOpen: bool)

  /** `list?.[0] ?? null`: the first entry of an optional list. */
  function FirstOf(list: Option<seq<string>>): (r: Option<string>)
    ensures r.Some? <==> list.Some? && list.value != []
    ensures r.Some? ==> r.value == list.value[0]
  {
    if list.Some? && list.value != [] then Some(list.value[0]) else None
  }

  /** `materialContent`: the non-empty texts among material and care, joined by a newline; none
      when neither has any text. */
  function MaterialContent(material: Option<string>, care: Option<string>): (r: Option<string>)
    ensures r.Some? ==> r.value != ""
  {
    var parts := NonEmpty((if material.Some? then [material.value] else []) + (if care.Some? then [care.value] else []));
    var joined := Join(parts, "\n");
    if joined == "" then None else Some(joined)
  }

  /** The two accordion sections in their fixed order: the description, open at first, and
      material and care, closed at first. */
  function Sections(product: PageProduct): (sections: seq<Section>)
    ensures |sections| == 2
    ensures sections[0] == Section(Description, product.description, true)
    ensures sections[1] == Section(MaterialCare, MaterialContent(product.material, product.care), false)
  {
    [Section(Description, product.description, true),
     Section(MaterialCare, MaterialContent(product.material, product.care), false)]
  }

  /** `visibleSections`: the sections that have content, in order. */
  function VisibleSections(product: PageProduct): (visible: seq<Section>)
    ensures forall s :: s in visible <==> s in Sections(product) && s.content.Some?
    ensures IsSubsequence(visible, Sections(product))
  {
    KeepIsSubsequence(Sections(product), (s: Section) => s.content.Some?);
    Keep(Sections(product), (s: Section) => s.content.Some?)
  }

  /** The sale layout (struck-through original price and badge) needs a truthy original price:
      present and not zero. */
  predicate ShowsSale(product: PageProduct) {
    product.originalPrice.Some? && product.originalPrice.value != 0
  }

  predicate ShowsColorSelector(product: PageProduct) {
    product.colors.Some? && |product.colors.value| > 0
  }

  predicate ShowsSizeSelector(product: PageProduct) {
    product.sizes.Some? && |product.sizes.value| > 0
  }

  /** The panel's choices. */
  class Panel {
    const product: PageProduct
    var selectedColor: Option<string>
    var selectedSize: Option<string>
    var quantity: int

    /** The quantity the stepper keeps within its default bounds. */
    predicate Valid()
      reads this
    {
      QuantitySelector.DefaultMin <= quantity <= QuantitySelector.DefaultMax
    }

    constructor(product: PageProduct)
      ensures this.product == product
      ensures selectedColor == FirstOf(product.colors) && selectedSize == FirstOf(product.sizes)
      ensures quantity == 1
      ensures Valid()
    {
      this.product := product;
      selectedColor := FirstOf(product.colors);
      selectedSize := FirstOf(product.sizes);
      quantity := 1;
    }

    method SelectColor(color: string)
      modifies this`selectedColor
      ensures selectedColor == Some(color)
    {
      selectedColor := Some(color);
    }

    method SelectSize(size: string)
      modifies this`selectedSize
      ensures selectedSize == Some(size)
    {
      selectedSize := Some(size);
    }

    /** The stepper's minus button. */
    method DecrementQuantity()
      requires Valid()
      modifies this`quantity
      ensures quantity == QuantitySelector.Decrement(old(quantity), QuantitySelector.DefaultMin)
      ensures Valid()
    {
      QuantitySelector.StaysInRange(quantity, QuantitySelector.DefaultMin, QuantitySelector.DefaultMax);
      quantity := QuantitySelector.Decrement(quantity, QuantitySelector.DefaultMin);
    }

    /** The stepper's plus button. */
    method IncrementQuantity()
      requires Valid()
      modifies this`quantity
      ensures quantity == QuantitySelector.Increment(old(quantity), QuantitySelector.DefaultMax)
      ensures Valid()
    {
      QuantitySelector.StaysInRange(quantity, QuantitySelector.DefaultMin, QuantitySelector.DefaultMax);
      quantity := QuantitySelector.Increment(quantity, QuantitySelector.DefaultMax);
    }

    /** "Add to cart" opens the cart drawer and nothing else. */
    method AddToCart(cart: CartContext.CartProvider)
      modifies cart`isCartOpen
      ensures cart.isCartOpen
    {
      cart.OpenCart();
    }
  }

  // ---------------------------------------------------------------------------------------------
  // Lemmas

  /** Truthy text, as `filter(Boolean)` sees it. */
  predicate HasText(text: Option<string>) {
    text.Some? && text.value != ""
  }

  /** `filter(Boolean)` on two strings. */
  lemma NonEmptyPair(a: string, b: string)
    ensures NonEmpty([a, b]) == (if a != "" then [a] else []) + (if b != "" then [b] else [])
  {
    assert [a, b][1..] == [b];
    assert [b][1..] == [];
  }

  /** The material and care text: both texts on two lines, one of them alone, or nothing. */
  lemma MaterialContentCases(material: Option<string>, care: Option<string>)
    ensures MaterialContent(material, care).None? <==> !HasText(material) && !HasText(care)
    ensures HasText(material) && HasText(care) ==> MaterialContent(material, care) == Some(material.value + "\n" + care.value)
    ensures HasText(material) && !HasText(care) ==> MaterialContent(material, care) == material
    ensures !HasText(material) && HasText(care) ==> MaterialContent(material, care) == care
  {
    if material.Some? && care.Some? {
      NonEmptyPair(material.value, care.value);
      assert [material.value] + [care.value] == [material.value, care.value];
      if HasText(material) && HasText(care) {
        var parts := [material.value, care.value];
        assert parts[1..] == [care.value];
        assert Join(parts, "\n") == material.value + "\n" + care.value;
        assert material.value + "\n" + care.value != "";
      }
    } else if material.Some? {
      NonEmptyPair(material.value, "");
      assert [material.value] + [] == [material.value];
      assert NonEmpty([material.value]) == NonEmpty([material.value, ""]) by {
        assert [material.value, ""][1..] == [""];
        assert [material.value][1..] == [];
      }
    } else if care.Some? {
      NonEmptyPair("", care.value);
      assert [] + [care.value] == [care.value];
      assert NonEmpty([care.value]) == NonEmpty(["", care.value]) by {
        assert ["", care.value][1..] == [care.value];
      }
    }
  }

  /** The description section is shown exactly when there is a description, the material and
      care section exactly when there is material or care text, and the description always
      comes first. */
  lemma VisibleSectionsExactly(product: PageProduct)
    ensures var visible := VisibleSections(product);
      && (exists s :: s in visible && s.key == Description) == product.description.Some?
      && (exists s :: s in visible && s.key == MaterialCare) == MaterialContent(product.material, product.care).Some?
      && (product.description.Some? ==> visible[0] == Section(Description, product.description, true))
  {
    var sections := Sections(product);
    var f := (s: Section) => s.content.Some?;
    assert sections == [sections[0]] + [sections[1]];
    KeepAppend([sections[0]], [sections[1]], f);
    assert Keep([sections[1]], f) == (if f(sections[1]) then [sections[1]] else []);
    assert Keep([sections[0]], f) == (if f(sections[0]) then [sections[0]] else []);
  }
}
