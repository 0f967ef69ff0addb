/** The fixed category table (src/constants/categories.ts) and its lookup by slug. */
module CategoryTable {
  import opened Wrappers
  import opened Seqs

  datatype CategoryEntry = CategoryEntry(slug: string, translationKey: string)

  const Categories: seq<CategoryEntry> := [
    CategoryEntry("clothing", "categories.clothing"),
    CategoryEntry("sewing-supplies", "categories.sewingSupplies"),
    CategoryEntry("accessories", "categories.accessories"),
    CategoryEntry("interior-gifts", "categories.interiorGifts")
  ]

  /** The four slugs, in table order. */
  function Slugs(): (slugs: seq<string>)
    ensures |slugs| == |Categories|
    ensures forall i :: 0 <= i < |slugs| ==> slugs[i] == Categories[i].slug
  {
    ["clothing", "sewing-supplies", "accessories", "interior-gifts"]
  }

  /** `getCategoryBySlug`: the first entry with that slug, or `undefined`. */
  function GetCategoryBySlug(slug: string): (r: Option<CategoryEntry>)
    ensures r.Some? <==> slug in Slugs()
    ensures r.Some? ==> r.value in Categories && r.value.slug == slug
  {
    Find(Categories, (c: CategoryEntry) => c.slug == slug)
  }

  /** The slugs are pairwise distinct, so a slug names one entry and the lookup returns it. */
  lemma LookupIsUnique(i: nat)
    requires i < |Categories|
    ensures forall j :: 0 <= j < |Categories| && j != i ==> Categories[j].slug != Categories[i].slug
    ensures GetCategoryBySlug(Categories[i].slug) == Some(Categories[i])
  {
    FindAt(Categories, (c: CategoryEntry) => c.slug == Categories[i].slug, i);
  }
}
