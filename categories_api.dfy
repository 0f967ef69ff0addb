/** The category fetch (src/lib/categories.ts): the root categories of the backend's tree, or the
    empty list when the fetch fails. The fetch itself is a parameter. */
module CategoriesApi {
  import opened Wrappers
  import opened Seqs
  import opened Medusa

  datatype MedusaCategory = MedusaCategory(
    id: string,
    name: string,
    handle: string,
    description: Option<string>,
    parentCategoryId: Option<string>,
    categoryChildren: seq<MedusaCategory>)

  /** A category is a root when its parent id is falsy (null or the empty string). */
  predicate IsRoot(c: MedusaCategory) {
    c.parentCategoryId.None? || c.parentCategoryId.value == ""
  }

  /** The path requested, with the backend locale. */
  function RequestPath(locale: string): (path: string)
    ensures path == "/store/product-categories?include_descendants_tree=true&locale=" + MedusaLocale(locale)
  {
    "/store/product-categories?include_descendants_tree=true&locale=" + MedusaLocale(locale)
  }

  /** `getCategories` given what the fetch produced: a failure (thrown, of any kind), or the
      `product_categories` field, absent or present. */
  function GetCategories(fetched: Result<Option<seq<MedusaCategory>>, string>): (roots: seq<MedusaCategory>)
    ensures fetched.Err? ==> roots == []
    ensures fetched == Ok(None) ==> roots == []
    ensures forall c :: c in roots ==> IsRoot(c)
    ensures fetched.Ok? && fetched.value.Some? ==>
      forall c :: c in fetched.value.value && IsRoot(c) ==> c in roots
  {
    match fetched
    case Err(_) => []
    case Ok(field) => Keep(field.GetOr([]), IsRoot)
  }

  /** The roots come back in the order the backend listed them. */
  lemma RootsInOrder(categories: seq<MedusaCategory>)
    ensures IsSubsequence(GetCategories(Ok(Some(categories))), categories)
  {
    KeepIsSubsequence(categories, IsRoot);
  }

  /** A list made of roots only comes back unchanged. */
  lemma AllRootsKept(categories: seq<MedusaCategory>)
    requires forall c :: c in categories ==> IsRoot(c)
    ensures GetCategories(Ok(Some(categories))) == categories
  {
    KeepAll(categories, IsRoot);
  }
}
