/** A catalogue entry as the shop listing (src/components/shop/ProductGrid.tsx) and the
    related-products strip (src/components/product/RelatedProducts.tsx) read it. Prices are whole
    cents and the creation time is a whole number of milliseconds. */
module Catalogue {
  import opened Wrappers

  datatype Product = Product(
    id: string,
    slug: string,
    category: string,
    price: int,
    originalPrice: Option<int>,
    createdAt: int,
    colors: Option<seq<string>>)
}
