/** The "you may also like" strip on a product page (src/components/product/RelatedProducts.tsx):
    up to four other products, those of the same category first. */
module RelatedProducts {
  import opened Seqs
  import opened Catalogue

  /** The most products the strip shows. */
  const MaxRelated: nat := 4

  /** `sameCategory`: the other products of the category, in catalogue order. */
  function SameCategory(catalogue: seq<Product>, currentSlug: string, category: string): seq<Product> {
    Keep(catalogue, (p: Product) => p.category == category && p.slug != currentSlug)
  }

  /** `others`: the other products of every other category, in catalogue order. */
  function Others(catalogue: seq<Product>, currentSlug: string, category: string): seq<Product> {
    Keep(catalogue, (p: Product) => p.category != category && p.slug != currentSlug)
  }

  /** `related`: the first four of the same-category products followed by the others. */
  function Related(catalogue: seq<Product>, currentSlug: string, category: string): (related: seq<Product>)
    ensures |related| <= MaxRelated
    ensures var candidates := |SameCategory(catalogue, currentSlug, category)| + |Others(catalogue, currentSlug, category)|;
      |related| == if candidates < MaxRelated then candidates else MaxRelated
    ensures related <= SameCategory(catalogue, currentSlug, category) + Others(catalogue, currentSlug, category)
    ensures forall p :: p in related ==> p in catalogue && p.slug != currentSlug
  {
    var same := SameCategory(catalogue, currentSlug, category);
    var others := Others(catalogue, currentSlug, category);
    var all := same + others;
    var n := if |all| < MaxRelated then |all| else MaxRelated;
    assert forall p :: p in all[..n] ==> p in same || p in others by {
      forall p | p in all[..n] ensures p in same || p in others {
        assert p in all;
      }
    }
    all[..n]
  }

  /** The strip is drawn only when something was picked. */
  predicate Renders(catalogue: seq<Product>, currentSlug: string, category: string) {
    |Related(catalogue, currentSlug, category)| > 0
  }

  // ---------------------------------------------------------------------------------------------
  // Lemmas

  /** Every same-category product in the strip comes before every product of another category. */
  lemma SameCategoryFirst(catalogue: seq<Product>, currentSlug: string, category: string, i: nat, j: nat)
    requires i < j < |Related(catalogue, currentSlug, category)|
    requires Related(catalogue, currentSlug, category)[j].category == category
    ensures Related(catalogue, currentSlug, category)[i].category == category
  {
    var same := SameCategory(catalogue, currentSlug, category);
    var others := Others(catalogue, currentSlug, category);
    var all := same + others;
    var r := Related(catalogue, currentSlug, category);
    assert r[j] == all[j] && r[i] == all[i];
    forall k | |same| <= k < |all| ensures all[k].category != category {
      assert all[k] == others[k - |same|];
      assert others[k - |same|] in others;
    }
    assert all[i] in same;
  }

  /** With four or more same-category candidates the strip is all of the same category: the first
      four of them. */
  lemma EnoughSameCategory(catalogue: seq<Product>, currentSlug: string, category: string)
    requires |SameCategory(catalogue, currentSlug, category)| >= MaxRelated
    ensures Related(catalogue, currentSlug, category) == SameCategory(catalogue, currentSlug, category)[..MaxRelated]
    ensures forall p :: p in Related(catalogue, currentSlug, category) ==> p.category == category
  {
    var same := SameCategory(catalogue, currentSlug, category);
    var r := Related(catalogue, currentSlug, category);
    assert r == same[..MaxRelated];
    forall p | p in r ensures p.category == category {
      assert p in same;
    }
  }

  /** The strip is empty (and nothing is drawn) exactly when the catalogue has no other product. */
  lemma EmptyIffNoOtherProduct(catalogue: seq<Product>, currentSlug: string, category: string)
    ensures !Renders(catalogue, currentSlug, category) <==> forall p :: p in catalogue ==> p.slug == currentSlug
  {
    var same := SameCategory(catalogue, currentSlug, category);
    var others := Others(catalogue, currentSlug, category);
    if exists p :: p in catalogue && p.slug != currentSlug {
      var p :| p in catalogue && p.slug != currentSlug;
      if p.category == category {
        assert p in same;
      } else {
        assert p in others;
      }
      assert |same + others| > 0;
    } else {
      KeepNone(catalogue, (p: Product) => p.category == category && p.slug != currentSlug);
      KeepNone(catalogue, (p: Product) => p.category != category && p.slug != currentSlug);
    }
  }

  /** Both groups keep catalogue order. */
  lemma GroupsKeepCatalogueOrder(catalogue: seq<Product>, currentSlug: string, category: string)
    ensures IsSubsequence(SameCategory(catalogue, currentSlug, category), catalogue)
    ensures IsSubsequence(Others(catalogue, currentSlug, category), catalogue)
  {
    KeepIsSubsequence(catalogue, (p: Product) => p.category == category && p.slug != currentSlug);
    KeepIsSubsequence(catalogue, (p: Product) => p.category != category && p.slug != currentSlug);
  }
}
