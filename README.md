# EŽ Stilius storefront — a verified model of its client-side logic

EŽ Stilius is a small Lithuanian clothing and sewing-supplies shop built with Next.js. This
project models, in Dafny, the logic of its storefront:

- the shop listing (`ProductGrid`): filter state read from and written to the URL's query,
  category and colour filtering, the three sort orders, and the "load more" window;
- the filter bar and its parts: the category multi-select, the colour dropdown with swatches,
  the sort dropdown, the mobile filter drawer, the active-filter badge and the clear button;
- the search overlay in the header: the query debounce, the request it sends to the Medusa
  backend, the answers it accepts and what the panel shows;
- the mobile menu: its open/closed state, the shop and category accordions, its deferred reset
  and the category links it builds;
- the product page's purchase panel (initial colour, size and quantity, accordion sections,
  sale display), the quantity stepper and the related-products strip;
- the cart context, the category fetch and the static category and colour tables;
- the contact form's validation and submission and the contact endpoint that turns a request
  into a notification e-mail;
- the breadcrumb trail and the paragraphs and layout of the About page's story section.

Components whose state changes step by step are classes (`ProductGrid.Grid`,
`SearchOverlay.Overlay`, `MobileMenu.Menu`, `ContactForm.Form`, `ProductInfo.Panel`,
`CartContext.CartProvider`); each of their methods states its new state, for the overlay and
the menu as one step of a state-machine function (`Step`) whose properties are proved as
lemmas. Everything else is pure functions over datatypes. Strings are `seq<char>` with
JavaScript's `split`, `join`, `filter(Boolean)`, `trim`, `\s` and `length` (UTF-16 code units) semantics written out in the
`Text` module. Prices are integers. Timers, network answers and backend failures are events or
parameters chosen by the caller.

Modules: `Wrappers` (Option, Result), `Text`, `Seqs`, `UrlParams` (the ordered key/value pairs
of `URLSearchParams`), `Catalogue`, `ProductGrid`, `SelectionList`, `Options`, `ColorTable`,
`MultiSelectDropdown`, `ColorDropdown`, `CustomDropdown`, `MobileFilterDrawer`, `FilterBar`,
`Medusa`, `SearchOverlay`, `MobileMenu`, `RelatedProducts`, `QuantitySelector`,
`CartContext`, `CategoriesApi`, `CategoryTable`, `ProductInfo`, `ContactForm`, `ContactRoute`,
`Breadcrumb`, `AboutStory`.

Behaviours of the code worth noting:

- changing the sort does not reset the "load more" window in its handler (only the URL re-sync
  that follows does);
- the sort option "newest" is a non-empty sort string, so choosing it counts as an active filter
  and shows the clear button;
- the mobile filter drawer always shows its category section: `FilterBar` passes it
  `showCategoryFilter`, but the drawer does not read it.

## Model

| member | source | states |
|---|---|---|
| ProductGrid.ParseParam | src/components/shop/ProductGrid.tsx:15-18 | an absent or empty parameter gives no values; otherwise no value is empty or holds a comma |
| ProductGrid.ParseJoinedParam | src/components/shop/ProductGrid.tsx:15-18 | parsing the comma-joined form of a list of non-empty, comma-free values gives the list back |
| ProductGrid.ToQuery | src/components/shop/ProductGrid.tsx:62-67 | `category` is written iff not locked and some category is chosen, `color` iff some colour is chosen, `sort` iff the sort is non-empty; the query is empty iff no filter is active |
| ProductGrid.ToQueryValues | src/components/shop/ProductGrid.tsx:62-66 | the values written are the comma-joined lists and the sort string |
| ProductGrid.FromQuery | src/components/shop/ProductGrid.tsx:50-53 | the lists read are well-formed; on a locked page the category selection is left as it was |
| ProductGrid.HasActiveFilters | src/components/shop/ProductGrid.tsx:98-99 | a category counts only on an unlocked page, any colour, any non-empty sort; `ToQuery` is empty exactly when none holds |
| ProductGrid.UrlRoundTrip | src/components/shop/ProductGrid.tsx:50-66 | writing a filter state to the URL and reading it back gives the same state |
| ProductGrid.FilterPassesIsMatching | src/components/shop/ProductGrid.tsx:104-114 | the two filter passes keep exactly the products matching the category rule and the colour rule, in catalogue order |
| ProductGrid.FilterPasses | src/components/shop/ProductGrid.tsx:101-114 | the lock or the category selection, then the colour selection; `FilterPassesIsMatching` shows it keeps exactly the matching products in catalogue order |
| ProductGrid.Query | src/components/shop/ProductGrid.tsx:101-128 | the filter passes followed by the sort; `QueryContents` and `QueryOrder` state what the listing holds and its order |
| ProductGrid.SortBy | src/components/shop/ProductGrid.tsx:116-125 | the sort is a permutation and orders by the mode's key |
| ProductGrid.SortByIsStable | src/components/shop/ProductGrid.tsx:116-125 | products with equal keys keep their input order |
| ProductGrid.QueryContents | src/components/shop/ProductGrid.tsx:101-128 | the listing holds exactly the matching catalogue products, each as often as in the catalogue |
| ProductGrid.QueryOrder | src/components/shop/ProductGrid.tsx:116-125 | the listing is ordered by price ascending, price descending or newest first, and ties keep catalogue order |
| ProductGrid.LockedQueryIgnoresSelection | src/components/shop/ProductGrid.tsx:104-107 | on a locked page the category selection does not matter and every product listed is of the locked category |
| ProductGrid.ColorlessNeverMatches | src/components/shop/ProductGrid.tsx:110-114 | a product without colours is never listed under a colour selection |
| ProductGrid.WindowArithmetic | src/components/shop/ProductGrid.tsx:130-133 | shown plus remaining is the total; "more" iff something is hidden; the next batch is at most 4; loading more extends the shown prefix |
| ProductGrid.Visible | src/components/shop/ProductGrid.tsx:130 | the first `visibleCount` products, or all of them; related to the others by `WindowArithmetic` |
| ProductGrid.Remaining | src/components/shop/ProductGrid.tsx:131 | the hidden count, never negative; `WindowArithmetic`: shown plus remaining is the total |
| ProductGrid.HasMore | src/components/shop/ProductGrid.tsx:132 | something remains; `WindowArithmetic`: iff fewer than all are shown |
| ProductGrid.NextBatch | src/components/shop/ProductGrid.tsx:133 | the smaller of the remaining count and 4; `WindowArithmetic`: it is what the next "load more" adds |
| ProductGrid.Grid.constructor | src/components/shop/ProductGrid.tsx:41-48 | the initial state is read from the opening URL and 12 products are shown |
| ProductGrid.Grid.Resync | src/components/shop/ProductGrid.tsx:50-55 | on a URL change the state is re-read and the window reset to 12 |
| ProductGrid.Grid.UpdateUrl | src/components/shop/ProductGrid.tsx:57-71 | the router is given the path with the query of the next state |
| ProductGrid.Grid.HandleCategoriesChange | src/components/shop/ProductGrid.tsx:73-77 | only the categories change, the window resets, the URL follows |
| ProductGrid.Grid.HandleColorsChange | src/components/shop/ProductGrid.tsx:79-83 | only the colours change, the window resets, the URL follows |
| ProductGrid.Grid.HandleSortChange | src/components/shop/ProductGrid.tsx:85-88 | only the sort changes, the window is kept, the URL follows |
| ProductGrid.Grid.HandleClearFilters | src/components/shop/ProductGrid.tsx:90-96 | editable filters are emptied, the window resets, the URL is the bare path, and no filter is active afterwards |
| ProductGrid.Grid.LoadMore | src/components/shop/ProductGrid.tsx:177 | the window grows by 4 |
| FilterBar.SortOptions | src/components/shop/FilterBar.tsx:46-50 | three options, newest, price ascending and price descending, each recognised by the listing's sort |
| FilterBar.UnofferedSortIsNewest | src/components/shop/FilterBar.tsx:46-50 | a sort string no option offers shows no option and sorts newest first |
| FilterBar.CategoryLabelOf | src/components/shop/FilterBar.tsx:52-61 | the generic label for none (or an unknown single category), the option's caption for one, the count for two or more |
| FilterBar.SingleCategoryLabel | src/components/shop/FilterBar.tsx:54-58 | a single category shows the caption of the first option with its value |
| FilterBar.ColorLabelOf | src/components/shop/FilterBar.tsx:63-67 | generic label for none, the colour's name for one, the count for more |
| FilterBar.ActiveFilterCount | src/components/shop/FilterBar.tsx:69-70 | zero iff no shown category and no colour is selected |
| FilterBar.ShowsBadge | src/components/shop/FilterBar.tsx:135-139 | the count badge is drawn iff the active-filter count is positive; `BadgeAgreesWithClearButton` relates it to the clear button |
| FilterBar.ShowsCategoryDropdown | src/components/shop/FilterBar.tsx:79 | the category dropdown is drawn iff enabled and it has options |
| FilterBar.ShowsClearButton | src/components/shop/FilterBar.tsx:105 | the clear button is drawn iff the listing reports an active filter |
| FilterBar.BadgeAgreesWithClearButton | src/components/shop/FilterBar.tsx:105-139 | a badge implies the clear button; the button without a badge means only a sort is set |
| FilterBar.CategoryEffect | src/components/shop/FilterBar.tsx:80-86 | the category dropdown's clear asks for no categories, a row for the toggled list |
| FilterBar.ColorEffect | src/components/shop/FilterBar.tsx:90-95 | the colour dropdown's clear asks for no colours, a row for the toggled list |
| FilterBar.DrawerEffect | src/components/shop/FilterBar.tsx:157-168 | the drawer's clear clears every filter and closes it; close only closes; rows forward their lists |
| SelectionList.Remove | src/components/ui/MultiSelectDropdown.tsx:45 | the value is gone and every other value is kept |
| SelectionList.Toggle | src/components/ui/MultiSelectDropdown.tsx:43-49 | the value's membership flips, others are unaffected, a new value is appended at the end |
| SelectionList.RemoveKeepsOthersInOrder | src/components/ui/MultiSelectDropdown.tsx:45 | removal keeps the order and the multiplicity of other values |
| SelectionList.ToggleTwiceRestores | src/components/ui/MultiSelectDropdown.tsx:43-49 | toggling an absent value twice restores the list |
| SelectionList.ToggleTwiceMovesToEnd | src/components/ui/MultiSelectDropdown.tsx:43-49 | toggling a present value twice moves it to the end |
| MultiSelectDropdown.Rows | src/components/ui/MultiSelectDropdown.tsx:79-80 | one row per option, in order, checked iff its value is selected |
| MultiSelectDropdown.Step | src/components/ui/MultiSelectDropdown.tsx:53-85 | the trigger flips the panel; the clear icon clears and closes only when shown; a row toggles its value and keeps the panel open; nothing happens on a closed panel's rows |
| MultiSelectDropdown.TriggerTwice | src/components/ui/MultiSelectDropdown.tsx:55 | two trigger clicks restore the panel |
| ColorTable.KeysOf | src/constants/colors.ts:1-9 | the keys of a colour table, one per entry, in table order |
| ColorTable.Lookup | src/components/ui/ColorDropdown.tsx:57 | a key is found iff it is in the table, and the entry found is a table entry with that key |
| ColorTable.KeyInKeysOf | src/components/ui/ColorDropdown.tsx:57 | a key is among the table's keys iff some entry carries it |
| ColorTable.KeysDistinct | src/constants/colors.ts:1-9 | no two colours share a key |
| ColorDropdown.Swatches | src/components/ui/ColorDropdown.tsx:54-65 | at most three swatches, only of known colours among the first three selected keys |
| ColorDropdown.Known | src/components/ui/ColorDropdown.tsx:56-64 | no more entries than keys, each a table entry whose key was asked for |
| ColorDropdown.KnownKeysGiveSwatches | src/components/ui/ColorDropdown.tsx:56-64 | known keys give one entry each, in order |
| ColorDropdown.UnknownKeysSkipped | src/components/ui/ColorDropdown.tsx:57-64 | a list of unknown keys draws no swatch |
| ColorDropdown.KnownAppend | src/components/ui/ColorDropdown.tsx:56-64 | the swatches of a selection are those of its parts in order; with `KnownSingle` this fixes them for every mix of known and unknown keys |
| ColorDropdown.KnownSingle | src/components/ui/ColorDropdown.tsx:57-63 | one key draws its table entry when found and nothing otherwise |
| ColorDropdown.MixedSelection | src/components/ui/ColorDropdown.tsx:54-64 | an unknown key before "olive" draws olive's swatch alone |
| ColorDropdown.Rows | src/components/ui/ColorDropdown.tsx:89-90 | one row per table colour, checked iff selected |
| ColorDropdown.RowsOf | src/components/ui/ColorDropdown.tsx:89-90 | one row per given entry, checked iff selected |
| ColorDropdown.Step | src/components/ui/ColorDropdown.tsx:39-95 | as the multi-select, over the colour table's keys |
| Options.FindOption | src/components/shop/FilterBar.tsx:56 | an option is found iff one has the value, and it has that value |
| Options.FindOptionIsFirst | src/components/ui/CustomDropdown.tsx:41 | the option found is the first with the value |
| CustomDropdown.Selected | src/components/ui/CustomDropdown.tsx:41 | the selected option exists iff some option has the value |
| CustomDropdown.ButtonText | src/components/ui/CustomDropdown.tsx:50-52 | the selected option's caption, else the placeholder |
| CustomDropdown.Step | src/components/ui/CustomDropdown.tsx:45-80 | the trigger flips the panel; the clear icon, when shown, emits the empty value; choosing emits the value and closes |
| CustomDropdown.EmptyValueShowsPlaceholder | src/components/ui/CustomDropdown.tsx:41-53 | with no empty option value, the empty value shows the placeholder and no clear icon |
| CustomDropdown.ChooseThenShow | src/components/ui/CustomDropdown.tsx:41-52 | after choosing an option with a unique value its caption is shown |
| MobileFilterDrawer.Render | src/components/shop/MobileFilterDrawer.tsx:60-160 | nothing is drawn when closed; otherwise one row per category option and per colour, checked iff selected |
| MobileFilterDrawer.CategoryRows | src/components/shop/MobileFilterDrawer.tsx:109-110 | one row per option, checked iff selected |
| MobileFilterDrawer.ColorRows | src/components/shop/MobileFilterDrawer.tsx:128-129 | one row per colour, checked iff selected |
| MobileFilterDrawer.Step | src/components/shop/MobileFilterDrawer.tsx:62-76 | rows emit the toggled lists, clear and close emit their events, a closed drawer emits nothing |
| Medusa.MedusaLocale | src/components/layout/Header/SearchOverlay.tsx:71 | "lt-LT" exactly for Lithuanian, else "en-GB" |
| SearchOverlay.ProductPrice | src/components/layout/Header/SearchOverlay.tsx:38-56 | no variant gives none; a calculated amount wins; else the first euro price, else the first price |
| SearchOverlay.ImageUrl | src/components/layout/Header/SearchOverlay.tsx:58-60 | a non-empty thumbnail, else the first image's non-empty URL, else none |
| SearchOverlay.RequestParams | src/components/layout/Header/SearchOverlay.tsx:121-123 | `q`, `limit` 6, `region_id` iff a region id is set, and the backend locale last |
| SearchOverlay.RowOf | src/components/layout/Header/SearchOverlay.tsx:245-289 | the product's link, title, image and price |
| SearchOverlay.Rows | src/components/layout/Header/SearchOverlay.tsx:245-292 | one row per result, in order |
| SearchOverlay.ContentArea | src/components/layout/Header/SearchOverlay.tsx:196-326 | spinner iff loading; error iff not loading and failed; no-results iff a settled query of two or more UTF-16 units found nothing; results iff there are any; popular terms otherwise |
| SearchOverlay.Initial | src/components/layout/Header/SearchOverlay.tsx:73-78 | closed, empty query and results, nothing requested |
| SearchOverlay.SearchEffectAsWritten | src/components/layout/Header/SearchOverlay.tsx:107-148 | the search effect as written: a short query clears the panel but leaves the request in flight |
| SearchOverlay.SearchEffect | src/components/layout/Header/SearchOverlay.tsx:107-148 | the corrected effect: a short query also drops the request in flight; long queries as written |
| SearchOverlay.Apply | src/components/layout/Header/SearchOverlay.tsx:95-191 | every event keeps the locale and only appends to the requests sent |
| SearchOverlay.StepAsWritten | src/components/layout/Header/SearchOverlay.tsx:95-191 | one event with the search effect as written; `AsWrittenShowsStaleResults` exhibits the stale answer it lets through |
| SearchOverlay.Step | src/components/layout/Header/SearchOverlay.tsx:95-191 | one event with the corrected search effect; `StepKeepsConsistent` shows it keeps the overlay consistent |
| SearchOverlay.ShortQueryGate | src/components/layout/Header/SearchOverlay.tsx:108-114 | settling a short query sends nothing and clears the panel |
| SearchOverlay.LongQuerySends | src/components/layout/Header/SearchOverlay.tsx:116-125 | settling a long query sends one request with its parameters and starts loading |
| SearchOverlay.AstralQuerySends | src/components/layout/Header/SearchOverlay.tsx:108 | the gate counts UTF-16 units: one emoji is two units, so it is searched for |
| Text.Utf16Length | src/components/layout/Header/SearchOverlay.tsx:108 | `length` counts UTF-16 units: between the character count and twice it, equal to it iff no character is astral |
| SearchOverlay.StaleAnswersIgnored | src/components/layout/Header/SearchOverlay.tsx:116-143 | an answer to any request but the live one changes nothing |
| SearchOverlay.LiveAnswerOutcome | src/components/layout/Header/SearchOverlay.tsx:136-146 | the live answer sets results to `products \|\| []` and the count to `count \|\| 0`, or on failure raises the error; loading stops and the request ends; both versions agree |
| SearchOverlay.CloseResets | src/components/layout/Header/SearchOverlay.tsx:159-167 | closing clears query, results and flags and aborts the request, so no later answer shows |
| SearchOverlay.StepKeepsConsistent | src/components/layout/Header/SearchOverlay.tsx:107-171 | every event keeps the corrected overlay consistent |
| SearchOverlay.ShortQueryShowsPopular | src/components/layout/Header/SearchOverlay.tsx:306-325 | in the corrected overlay, a short settled query always shows the popular terms |
| SearchOverlay.AsWrittenShowsStaleResults | src/components/layout/Header/SearchOverlay.tsx:108-114 | as written, a late answer for an older long query shows results under a short query |
| SearchOverlay.Overlay.constructor | src/components/layout/Header/SearchOverlay.tsx:73-79 | the initial state |
| SearchOverlay.Overlay.Search | src/components/layout/Header/SearchOverlay.tsx:107-148 | the corrected search effect |
| SearchOverlay.Overlay.Settle | src/components/layout/Header/SearchOverlay.tsx:88 | the debounced query catches up and the effect runs when it changed |
| SearchOverlay.Overlay.RegionLoaded | src/components/layout/Header/SearchOverlay.tsx:95-104 | the region id is stored and the search re-runs |
| SearchOverlay.Overlay.Respond | src/components/layout/Header/SearchOverlay.tsx:133-147 | the live request's answer fills results or the error flag; others are ignored |
| SearchOverlay.Overlay.SetOpen | src/components/layout/Header/SearchOverlay.tsx:151-171 | opening changes nothing else; closing resets and aborts |
| SearchOverlay.Overlay.Type | src/components/layout/Header/SearchOverlay.tsx:365 | only the typed query changes |
| SearchOverlay.Overlay.PopularClick | src/components/layout/Header/SearchOverlay.tsx:187-191 | the term becomes the typed query |
| MobileMenu.SetOpen | src/components/layout/Header/MobileMenu.tsx:171-180 | opening starts the fade-in timer, closing cancels it, an unchanged value changes nothing |
| MobileMenu.CloseMenu | src/components/layout/Header/MobileMenu.tsx:157-164 | the panel hides at once and one more reset is pending; accordions are kept until it runs |
| MobileMenu.ToggledCategory | src/components/layout/Header/MobileMenu.tsx:270-273 | the toggled category is open iff it was not, and nothing else can be open |
| MobileMenu.Step | src/components/layout/Header/MobileMenu.tsx:146-180 | every handler and timer as one event; the `Menu` methods each perform one event and the lemmas below are stated on it |
| MobileMenu.ParentHref | src/components/layout/Header/MobileMenu.tsx:262 | `/shop/{parent}` as the slash-joined path |
| MobileMenu.ChildHref | src/components/layout/Header/MobileMenu.tsx:280 | `/shop/{parent}/{child}`, the parent's link extended by the child |
| MobileMenu.ChildHrefSplits | src/components/layout/Header/MobileMenu.tsx:280 | a child link splits back into its two handles |
| MobileMenu.EntryOf | src/components/layout/Header/MobileMenu.tsx:257-292 | an accordion iff the category has children, expanded iff it is the open one, with one child link per child |
| MobileMenu.Entries | src/components/layout/Header/MobileMenu.tsx:256-296 | one entry per root category, in order |
| MobileMenu.ToggleCategoryRules | src/components/layout/Header/MobileMenu.tsx:270-273 | toggling twice keeps the category open if it was and otherwise collapses all; toggling moves the expansion |
| MobileMenu.AtMostOneExpanded | src/components/layout/Header/MobileMenu.tsx:269 | every expanded entry has the open category's handle |
| MobileMenu.TogglesUndo | src/components/layout/Header/MobileMenu.tsx:252 | the shop toggle and the menu button undo themselves |
| MobileMenu.CloseThenResetCollapses | src/components/layout/Header/MobileMenu.tsx:157-164 | closing hides the panel; after the reset the accordions are collapsed and items hidden |
| MobileMenu.OpeningShowsItems | src/components/layout/Header/MobileMenu.tsx:171-175 | opening with no reset pending shows the items once the fade-in timer runs |
| MobileMenu.CartButtonClosesThenOpensCart | src/components/layout/Header/MobileMenu.tsx:166-168 | the panel's cart button closes the menu and later opens the cart |
| MobileMenu.AnimateOnlyWhileOpen | src/components/layout/Header/MobileMenu.tsx:171-180 | the fade-in timer only runs while the panel is open |
| MobileMenu.ReopenBeforeResetHidesItems | src/components/layout/Header/MobileMenu.tsx:157-175 | reopening before the pending reset runs leaves the panel open with its items hidden |
| MobileMenu.Menu.constructor | src/components/layout/Header/MobileMenu.tsx:146-151 | everything closed, nothing pending |
| MobileMenu.Menu.SetIsOpen | src/components/layout/Header/MobileMenu.tsx:171-180 | `setIsOpen` with its effect |
| MobileMenu.Menu.MenuButton | src/components/layout/Header/MobileMenu.tsx:367 | the panel flips |
| MobileMenu.Menu.Close | src/components/layout/Header/MobileMenu.tsx:157-164 | `close` |
| MobileMenu.Menu.PanelCartButton | src/components/layout/Header/MobileMenu.tsx:166-169 | close and schedule the cart's opening |
| MobileMenu.Menu.HeaderCartButton | src/components/layout/Header/MobileMenu.tsx:365 | the cart opens |
| MobileMenu.Menu.ResetTimerFires | src/components/layout/Header/MobileMenu.tsx:159-163 | a pending reset collapses the accordions and hides the items |
| MobileMenu.Menu.AnimateTimerFires | src/components/layout/Header/MobileMenu.tsx:174 | a running fade-in shows the items |
| MobileMenu.Menu.CartTimerFires | src/components/layout/Header/MobileMenu.tsx:168 | a pending cart opening opens the cart, and only then |
| MobileMenu.Menu.ToggleShop | src/components/layout/Header/MobileMenu.tsx:252 | the shop accordion flips |
| MobileMenu.Menu.ToggleCategory | src/components/layout/Header/MobileMenu.tsx:270-273 | the category accordion toggles |
| MobileMenu.Menu.OpenSearch | src/components/layout/Header/MobileMenu.tsx:359 | the search overlay opens |
| MobileMenu.Menu.CloseSearch | src/components/layout/Header/MobileMenu.tsx:376 | the search overlay closes |
| RelatedProducts.Related | src/components/product/RelatedProducts.tsx:20-26 | a prefix of same-category then other products of length min(4, number of candidates), never the current one |
| RelatedProducts.SameCategoryFirst | src/components/product/RelatedProducts.tsx:26 | no other-category product comes before a same-category one |
| RelatedProducts.EnoughSameCategory | src/components/product/RelatedProducts.tsx:20-26 | with four or more same-category products only they are shown |
| RelatedProducts.EmptyIffNoOtherProduct | src/components/product/RelatedProducts.tsx:55 | the strip is hidden iff the catalogue holds no other product |
| RelatedProducts.GroupsKeepCatalogueOrder | src/components/product/RelatedProducts.tsx:20-25 | both groups keep catalogue order |
| RelatedProducts.SameCategory | src/components/product/RelatedProducts.tsx:20-22 | the other products of the category; `GroupsKeepCatalogueOrder`: in catalogue order |
| RelatedProducts.Others | src/components/product/RelatedProducts.tsx:23-25 | the other products of other categories; `GroupsKeepCatalogueOrder`: in catalogue order |
| RelatedProducts.Renders | src/components/product/RelatedProducts.tsx:55 | the strip is drawn iff something was picked; `EmptyIffNoOtherProduct` says when |
| QuantitySelector.Decrement | src/components/product/QuantitySelector.tsx:22 | one less, never below the minimum |
| QuantitySelector.Increment | src/components/product/QuantitySelector.tsx:31 | one more, never above the maximum |
| QuantitySelector.StaysInRange | src/components/product/QuantitySelector.tsx:15-31 | both buttons keep a value in range |
| QuantitySelector.DisabledIffNoEffect | src/components/product/QuantitySelector.tsx:22-32 | a button is disabled iff pressing it would change nothing |
| QuantitySelector.StepsUndo | src/components/product/QuantitySelector.tsx:22-31 | plus then minus, or minus then plus, restore the value away from the bounds |
| CartContext.UseCart | src/context/CartContext.tsx:39-45 | outside a provider the hook fails with its message; inside it returns the context |
| CartContext.CartProvider.constructor | src/context/CartContext.tsx:24-25 | closed, no items |
| CartContext.CartProvider.OpenCart | src/context/CartContext.tsx:27 | the cart is open |
| CartContext.CartProvider.CloseCart | src/context/CartContext.tsx:28 | the cart is closed |
| CartContext.CartProvider.View | src/context/CartContext.tsx:30-33 | the context value, with the count as the sum of quantities |
| CartContext.CartCount | src/context/CartContext.tsx:30 | the sum of the quantities, folded from the left as `reduce` does; see the three lemmas below |
| CartContext.CartCountAppend | src/context/CartContext.tsx:30 | the count of two lists is the sum of their counts |
| CartContext.CartCountFromFront | src/context/CartContext.tsx:30 | the count read from the front or extended at the back |
| CartContext.CartCountNonNegative | src/context/CartContext.tsx:30 | non-negative quantities give a non-negative count; no items count zero |
| CategoriesApi.RequestPath | src/lib/categories.ts:15 | the path with the backend locale |
| CategoriesApi.GetCategories | src/lib/categories.ts:12-23 | a failed fetch or a missing field gives none; every root category and only roots are kept |
| CategoriesApi.IsRoot | src/lib/categories.ts:18 | a falsy parent id, absent or empty: the test `GetCategories` filters by |
| CategoriesApi.RootsInOrder | src/lib/categories.ts:18 | roots keep the backend's order |
| CategoriesApi.AllRootsKept | src/lib/categories.ts:18 | a list of roots is returned unchanged |
| CategoryTable.Slugs | src/constants/categories.ts:1-6 | the four slugs in table order |
| CategoryTable.GetCategoryBySlug | src/constants/categories.ts:10-12 | found iff the slug is in the table, and the entry has that slug |
| CategoryTable.LookupIsUnique | src/constants/categories.ts:1-12 | slugs are distinct, so every entry is found by its slug |
| ProductInfo.FirstOf | src/components/product/ProductInfo.tsx:24-29 | the first entry iff the list is present and non-empty |
| ProductInfo.MaterialContent | src/components/product/ProductInfo.tsx:35-40 | never the empty text |
| ProductInfo.MaterialContentCases | src/components/product/ProductInfo.tsx:35-40 | both texts on two lines, one alone, or none iff neither has text |
| ProductInfo.Sections | src/components/product/ProductInfo.tsx:42-55 | description (open) then material and care (closed) |
| ProductInfo.VisibleSections | src/components/product/ProductInfo.tsx:57 | exactly the sections with content, in order |
| ProductInfo.VisibleSectionsExactly | src/components/product/ProductInfo.tsx:42-57 | description shown iff present, material and care iff it has text, description first |
| ProductInfo.ShowsSale | src/components/product/ProductInfo.tsx:71 | the sale layout needs a truthy original price: present and not zero |
| ProductInfo.ShowsColorSelector | src/components/product/ProductInfo.tsx:89 | the colour picker is drawn iff the product has colours |
| ProductInfo.ShowsSizeSelector | src/components/product/ProductInfo.tsx:104 | the size picker is drawn iff the product has sizes |
| ProductInfo.Panel.constructor | src/components/product/ProductInfo.tsx:24-30 | first colour, first size, quantity 1 |
| ProductInfo.Panel.SelectColor | src/components/product/ProductInfo.tsx:98 | the colour chosen |
| ProductInfo.Panel.SelectSize | src/components/product/ProductInfo.tsx:110 | the size chosen |
| ProductInfo.Panel.DecrementQuantity | src/components/product/ProductInfo.tsx:118 | the stepper's minus, keeping 1..10 |
| ProductInfo.Panel.IncrementQuantity | src/components/product/ProductInfo.tsx:118 | the stepper's plus, keeping 1..10 |
| ProductInfo.Panel.AddToCart | src/components/product/ProductInfo.tsx:124 | the cart opens |
| ContactForm.EmailError | src/components/contacts/ContactForm.tsx:60-61 | no error iff the e-mail is not blank and passes the check |
| ContactForm.EmailCheckMatchesShape | src/components/contacts/ContactForm.tsx:61 | the check holds iff the e-mail has the shape A@B.C the pattern accepts |
| ContactForm.ShapePassesCheck | src/components/contacts/ContactForm.tsx:61 | every e-mail of the pattern's shape passes the check |
| ContactForm.CheckGivesShape | src/components/contacts/ContactForm.tsx:61 | every e-mail passing the check has the pattern's shape |
| ContactForm.ValidIff | src/components/contacts/ContactForm.tsx:57-64 | no errors iff name and message are not blank and the e-mail has the shape; the subject plays no part |
| ContactForm.Form.constructor | src/components/contacts/ContactForm.tsx:28-35 | empty data, no errors, idle |
| ContactForm.Form.Validate | src/components/contacts/ContactForm.tsx:57-64 | required for blank fields, invalid for an e-mail without the shape |
| ContactForm.Form.Submit | src/components/contacts/ContactForm.tsx:66-74 | with errors: stored, nothing sent; without: cleared, loading, the data sent |
| ContactForm.Form.Complete | src/components/contacts/ContactForm.tsx:75-85 | success for an OK answer, error otherwise |
| ContactForm.Form.Reset | src/components/contacts/ContactForm.tsx:88-92 | back to empty, no errors, idle |
| ContactForm.Form.EditName | src/components/contacts/ContactForm.tsx:121 | only the name changes |
| ContactForm.Form.EditEmail | src/components/contacts/ContactForm.tsx:135 | only the e-mail changes |
| ContactForm.Form.EditMessage | src/components/contacts/ContactForm.tsx:188 | only the message changes |
| ContactForm.Form.ChooseSubject | src/components/contacts/ContactForm.tsx:165-168 | only the subject changes |
| ContactRoute.MessageHtml | src/app/api/contact/route.ts:25 | no newline is left; the lines are joined by line-break tags |
| ContactRoute.MessageLinesKept | src/app/api/contact/route.ts:25 | no newline in the message section; a one-line message is copied unchanged |
| ContactRoute.Compose | src/app/api/contact/route.ts:14-27 | from the shop's sender, to its inbox, reply to the visitor, with the subject line and body |
| ContactRoute.SubjectLine | src/app/api/contact/route.ts:18 | the site tag, the subject or "Nauja žinutė", and the name; `EmptySubjectFallbacks` states the fallback |
| ContactRoute.HtmlBody | src/app/api/contact/route.ts:19-27 | the template with name, e-mail, subject or "Nenurodyta" and the message; `MessageLinesKept` and `EmptySubjectFallbacks` state its parts |
| ContactRoute.Post | src/app/api/contact/route.ts:6-33 | unreadable body: 500; a missing name, e-mail or message: 400 and no e-mail; otherwise the e-mail is sent and the answer is 200, or 500 when sending fails |
| ContactRoute.ValidFormIsAccepted | src/app/api/contact/route.ts:10-12 | data that passes the form's validation is never refused as missing fields |
| ContactRoute.EmptySubjectFallbacks | src/app/api/contact/route.ts:18-23 | an empty subject reads "Nauja žinutė" in the subject line and "Nenurodyta" in the body |
| Breadcrumb.Render | src/components/ui/Breadcrumb.tsx:31-48 | one cell per item with its label, a separator iff not first |
| Breadcrumb.CellAt | src/components/ui/Breadcrumb.tsx:32-46 | the cell of one item; `LinkRule`: a link iff it has an href and is not last |
| Breadcrumb.SeparatorCount | src/components/ui/Breadcrumb.tsx:36 | n items have n - 1 separators |
| Breadcrumb.LinkRule | src/components/ui/Breadcrumb.tsx:37-45 | a cell links iff its item is not last and has a destination, and links to it |
| Breadcrumb.LastNeverLinks | src/components/ui/Breadcrumb.tsx:32-37 | the last item is never a link |
| Breadcrumb.NoHrefNeverLinks | src/components/ui/Breadcrumb.tsx:37 | an item without a destination is never a link |
| AboutStory.Paragraphs | src/components/sections/AboutStory.tsx:24 | no paragraph is empty; the paragraphs are the non-empty parts of the split |
| AboutStory.ParagraphsAvoidBreak | src/components/sections/AboutStory.tsx:24 | no paragraph contains a blank line |
| AboutStory.ParagraphsInOrder | src/components/sections/AboutStory.tsx:24 | paragraphs keep text order |
| AboutStory.SingleParagraph | src/components/sections/AboutStory.tsx:24 | a non-empty text without a blank line is one paragraph, itself |
| AboutStory.LayoutOf | src/components/sections/AboutStory.tsx:27-66 | reversed: row, image delayed 150; otherwise row-reverse, text delayed 100 |
| AboutStory.RightColumnFadesInLater | src/components/sections/AboutStory.tsx:27-66 | the image is on the left iff not reversed, and the right column fades in after the left |

## Left out

- Rendering, styling, translations and icons: texts are given already translated, and markup is reduced to what the logic decides.
- Browser side effects: body scroll locking, focus, outside-click and Escape-key listeners, smooth scrolling, the related strip's scroll arrows, and the breadcrumb's auto-scroll.
- Real time: the 300 ms search debounce and the menu's 50, 300 and 350 ms timers are events the caller orders freely.
- Percent-encoding of `URLSearchParams` and of the search overlay's "view all" link; query pairs are kept decoded.
- Price formatting (`toFixed(2)` with a euro sign) and `Date` parsing: prices and creation times are integers.
- The network: the Medusa product search, region and category fetches and the Resend e-mail service are answers or failures passed in.
- The search overlay's region fetch picks the first region's id; the model takes that id as an event.
- The product card, gallery, colour and size selector widgets are not part of this model.
- ProductGrid.SortBy: the source's comparator subtracts dates in milliseconds; the model compares integer timestamps.
- SearchOverlay.ProductPrice: returns the amount, not the formatted euro string.
- ContactForm.Form.Submit: the button is disabled while loading, but the handler itself has no guard, so the model has none either.
- ContactRoute.Post: fields that are JSON values other than strings are not modelled.
- Strings are sequences of Unicode scalar values, so a JavaScript string holding an unpaired surrogate cannot be written; `Text.Utf16Length` gives JavaScript's `length` for every other string.

## Findings

| source | as written | input that shows it | evidently intended | confidence | as-written member | corrected member |
|---|---|---|---|---|---|---|
| src/components/layout/Header/SearchOverlay.tsx:108-114 | a settled query shorter than two characters clears the results but leaves the previous request in flight | type "sca", let it settle (request sent), delete to "s", let it settle, then the "sca" answer arrives: its products are shown under the query "s" | a short query also aborts the request in flight, so the popular terms stay shown | medium, not executed | SearchOverlay.AsWrittenShowsStaleResults | SearchOverlay.ShortQueryShowsPopular |
