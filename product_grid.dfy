/** The shop listing's query engine (src/components/shop/ProductGrid.tsx): filter state read from
    and written to the URL, category/colour filtering, three sort orders, and the "load more"
    window over the result. */
module ProductGrid {
  import opened Wrappers
  import opened Seqs
  import opened Text
  import opened Catalogue
  import opened UrlParams

  /** Products shown before the first "load more". */
  const InitialVisible: nat := 12
  /** Products added by each "load more". */
  const BatchSize: nat := 4

  function Min(a: int, b: int): int {
    if a <= b then a else b
  }

  // ---------------------------------------------------------------------------------------------
  // The URL representation

  /** The page's address: the path and its query parameters. */
  datatype Location = Location(pathname: string, query: Params)

  /** What the user has chosen: category handles, colour keys and the sort string. */
  datatype FilterState = FilterState(categories: seq<string>, colors: seq<string>, sort: string)

  /** A list that survives the comma-joined URL form: no empty element and no comma. */
  predicate ParamList(values: seq<string>) {
    forall v :: v in values ==> v != "" && ',' !in v
  }

  /** `parseParam`: an absent or empty parameter is the empty list; otherwise the comma-separated
      parts with empty parts dropped. */
  function ParseParam(param: Option<string>): (values: seq<string>)
    ensures ParamList(values)
    ensures param.None? || param == Some("") ==> values == []
  {
    if param.None? || param.value == "" then []
    else
      var parts := Split(param.value, ",");
      SplitPartsAvoidSeparator(param.value, ",");
      assert forall p :: p in parts ==> ',' !in p by {
        forall p | p in parts ensures ',' !in p {
          ContainsChar(p, ',');
        }
      }
      NonEmpty(parts)
  }

  /** Whether any filter is in force (the "clear filters" button is shown exactly then). */
  predicate HasActiveFilters(locked: string, st: FilterState) {
    (locked == "" && st.categories != []) || st.colors != [] || st.sort != ""
  }

  /** The query `updateUrl` builds: each key only when it carries something, lists comma-joined,
      and no category key on a page locked to a category. */
  function ToQuery(locked: string, st: FilterState): (q: Params)
    ensures Get(q, "category").Some? <==> locked == "" && st.categories != []
    ensures Get(q, "color").Some? <==> st.colors != []
    ensures Get(q, "sort").Some? <==> st.sort != ""
    ensures q == [] <==> !HasActiveFilters(locked, st)
  {
    var cat := Entry(locked == "" && st.categories != [], "category", Join(st.categories, ","));
    var col := Entry(st.colors != [], "color", Join(st.colors, ","));
    var sort := Entry(st.sort != "", "sort", st.sort);
    GetFromEntries(cat, col, sort, locked == "" && st.categories != [], "category", Join(st.categories, ","),
                   st.colors != [], "color", Join(st.colors, ","), st.sort != "", "sort", st.sort);
    cat + col + sort
  }

  /** The filter state read from the URL by the initial state and by the re-sync effect. On a
      locked page the categories are not read: they keep `previous`. */
  function FromQuery(query: Params, locked: string, previous: seq<string>): (st: FilterState)
    ensures ParamList(st.colors)
    ensures locked == "" ==> ParamList(st.categories)
    ensures locked != "" ==> st.categories == previous
  {
    FilterState(
      if locked != "" then previous else ParseParam(Get(query, "category")),
      ParseParam(Get(query, "color")),
      Get(query, "sort").GetOr(""))
  }

  // ---------------------------------------------------------------------------------------------
  // Filtering

  /** The category rule: the lock if there is one, else membership in a non-empty selection. */
  predicate InCategory(p: Product, locked: string, categories: seq<string>) {
    if locked != "" then p.category == locked
    else categories == [] || p.category in categories
  }

  /** `p.colors && p.colors.some((c) => colors.includes(c))`. */
  predicate HasColorIn(p: Product, colors: seq<string>) {
    p.colors.Some? && exists c :: c in p.colors.value && c in colors
  }

  /** The colour rule: no selection, or at least one shared colour. */
  predicate ColorMatches(p: Product, colors: seq<string>) {
    colors == [] || HasColorIn(p, colors)
  }

  predicate Matches(p: Product, locked: string, st: FilterState) {
    InCategory(p, locked, st.categories) && ColorMatches(p, st.colors)
  }

  /** The memo's two filter passes, category then colour, over a copy of the catalogue. */
  function FilterPasses(catalogue: seq<Product>, locked: string, st: FilterState): seq<Product> {
    var byCategory :=
      if locked != "" then Keep(catalogue, (p: Product) => p.category == locked)
      else if st.categories != [] then Keep(catalogue, (p: Product) => p.category in st.categories)
      else catalogue;
    if st.colors != [] then Keep(byCategory, (p: Product) => HasColorIn(p, st.colors))
    else byCategory
  }

  // ---------------------------------------------------------------------------------------------
  // Sorting

  datatype SortMode = PriceAsc | PriceDesc | Newest

  /** "price-asc" and "price-desc" are recognised; every other string, "" included, sorts newest first. */
  function ModeOf(sort: string): SortMode {
    if sort == "price-asc" then PriceAsc
    else if sort == "price-desc" then PriceDesc
    else Newest
  }

  /** Each comparator is `key(a) - key(b)` for this key. */
  function Key(mode: SortMode, p: Product): int {
    match mode
    case PriceAsc => p.price
    case PriceDesc => -p.price
    case Newest => -p.createdAt
  }

  ghost predicate SortedBy(s: seq<Product>, mode: SortMode) {
    forall i, j :: 0 <= i < j < |s| ==> Key(mode, s[i]) <= Key(mode, s[j])
  }

  /** Inserts `x` before the first element whose key is not smaller, so it stays ahead of the
      elements it compares equal to. */
  function Insert(x: Product, s: seq<Product>, mode: SortMode): (r: seq<Product>)
    ensures multiset(r) == multiset(s) + multiset{x}
  {
    if s == [] then [x]
    else if Key(mode, x) <= Key(mode, s[0]) then [x] + s
    else
      assert s == [s[0]] + s[1..];
      [s[0]] + Insert(x, s[1..], mode)
  }

  /** `Array.prototype.sort` with the comparator for `mode`: a stable sort. */
  function SortBy(s: seq<Product>, mode: SortMode): (r: seq<Product>)
    ensures multiset(r) == multiset(s)
    ensures SortedBy(r, mode)
  {
    if s == [] then []
    else
      assert s == [s[0]] + s[1..];
      var rest := SortBy(s[1..], mode);
      InsertSorted(s[0], rest, mode);
      Insert(s[0], rest, mode)
  }

  /** Insertion adds `x` and nothing else. */
  lemma {:induction false} InsertMembers(x: Product, s: seq<Product>, mode: SortMode)
    ensures forall y :: y in Insert(x, s, mode) <==> y == x || y in s
  {
    if s != [] && Key(mode, x) > Key(mode, s[0]) {
      InsertMembers(x, s[1..], mode);
      assert s == [s[0]] + s[1..];
    }
  }

  /** Insertion keeps a sorted list sorted. */
  lemma {:induction false} InsertSorted(x: Product, s: seq<Product>, mode: SortMode)
    requires SortedBy(s, mode)
    ensures SortedBy(Insert(x, s, mode), mode)
  {
    if s != [] && Key(mode, x) > Key(mode, s[0]) {
      var rest := Insert(x, s[1..], mode);
      InsertSorted(x, s[1..], mode);
      InsertMembers(x, s[1..], mode);
      assert forall y :: y in s[1..] ==> Key(mode, s[0]) <= Key(mode, y);
      HeadBelowSorted(s[0], rest, mode);
    }
  }

  /** A sorted list stays sorted under a new head that is not above any of its elements. */
  lemma HeadBelowSorted(h: Product, s: seq<Product>, mode: SortMode)
    requires SortedBy(s, mode)
    requires forall y :: y in s ==> Key(mode, h) <= Key(mode, y)
    ensures SortedBy([h] + s, mode)
  {
    var r := [h] + s;
    forall i, j | 0 <= i < j < |r| ensures Key(mode, r[i]) <= Key(mode, r[j]) {
      if i == 0 {
        assert r[j] == s[j - 1];
      } else {
        assert r[i] == s[i - 1] && r[j] == s[j - 1];
      }
    }
  }

  /** The elements whose sort key is `k`, in order. */
  function WithKey(s: seq<Product>, mode: SortMode, k: int): seq<Product> {
    Keep(s, (p: Product) => Key(mode, p) == k)
  }

  /** The listing: the filtered products, sorted. */
  function Query(catalogue: seq<Product>, locked: string, st: FilterState): seq<Product> {
    SortBy(FilterPasses(catalogue, locked, st), ModeOf(st.sort))
  }

  // ---------------------------------------------------------------------------------------------
  // The reveal window

  /** `filtered.slice(0, visibleCount)`. */
  function Visible(filtered: seq<Product>, visibleCount: nat): seq<Product> {
    filtered[..Min(|filtered|, visibleCount)]
  }

  /** `Math.max(filtered.length - visibleCount, 0)`. */
  function Remaining(n: nat, visibleCount: nat): nat {
    if n > visibleCount then n - visibleCount else 0
  }

  predicate HasMore(n: nat, visibleCount: nat) {
    Remaining(n, visibleCount) > 0
  }

  /** The count on the "load more" button: `Math.min(remaining, BATCH_SIZE)`. */
  function NextBatch(n: nat, visibleCount: nat): nat {
    Min(Remaining(n, visibleCount), BatchSize)
  }

  // ---------------------------------------------------------------------------------------------
  // The component's state

  class Grid {
    const lockedCategory: string
    const pathname: string
    var categories: seq<string>
    var colors: seq<string>
    var sort: string
    var visibleCount: nat
    /** The address last handed to the router. */
    var location: Location

    function State(): FilterState
      reads this
    {
      FilterState(categories, colors, sort)
    }

    /** The initial state (lines 41-48), read from the address the page was opened with. */
    constructor(lockedCategory: string, pathname: string, search: Params)
      ensures this.lockedCategory == lockedCategory && this.pathname == pathname
      ensures State() == FromQuery(search, lockedCategory, [])
      ensures visibleCount == InitialVisible
      ensures location == Location(pathname, search)
    {
      this.lockedCategory := lockedCategory;
      this.pathname := pathname;
      categories := if lockedCategory != "" then [] else ParseParam(Get(search, "category"));
      colors := ParseParam(Get(search, "color"));
      sort := Get(search, "sort").GetOr("");
      visibleCount := InitialVisible;
      location := Location(pathname, search);
    }

    /** The effect run whenever the address's search parameters change (lines 50-55). */
    method Resync(search: Params)
      modifies this
      ensures State() == FromQuery(search, lockedCategory, old(categories))
      ensures visibleCount == InitialVisible
      ensures location == Location(pathname, search)
    {
      if lockedCategory == "" {
        categories := ParseParam(Get(search, "category"));
      }
      colors := ParseParam(Get(search, "color"));
      sort := Get(search, "sort").GetOr("");
      visibleCount := InitialVisible;
      location := Location(pathname, search);
    }

    /** `updateUrl`: hands the router the address for a filter state. */
    method UpdateUrl(next: FilterState)
      modifies this`location
      ensures location == Location(pathname, ToQuery(lockedCategory, next))
    {
      location := Location(pathname, ToQuery(lockedCategory, next));
    }

    method HandleCategoriesChange(values: seq<string>)
      modifies this
      ensures State() == old(State()).(categories := values)
      ensures visibleCount == InitialVisible
      ensures location == Location(pathname, ToQuery(lockedCategory, State()))
    {
      categories := values;
      visibleCount := InitialVisible;
      UpdateUrl(FilterState(values, colors, sort));
    }

    method HandleColorsChange(values: seq<string>)
      modifies this
      ensures State() == old(State()).(colors := values)
      ensures visibleCount == InitialVisible
      ensures location == Location(pathname, ToQuery(lockedCategory, State()))
    {
      colors := values;
      visibleCount := InitialVisible;
      UpdateUrl(FilterState(categories, values, sort));
    }

    /** Changing the sort does not reset the window itself; the re-sync that follows the new
        address does. */
    method HandleSortChange(value: string)
      modifies this
      ensures State() == old(State()).(sort := value)
      ensures visibleCount == old(visibleCount)
      ensures location == Location(pathname, ToQuery(lockedCategory, State()))
    {
      sort := value;
      UpdateUrl(FilterState(categories, colors, value));
    }

    /** Clears every filter the user can edit and goes to the bare path. */
    method HandleClearFilters()
      modifies this
      ensures categories == (if lockedCategory != "" then old(categories) else [])
      ensures colors == [] && sort == ""
      ensures visibleCount == InitialVisible
      ensures location == Location(pathname, [])
      ensures !HasActiveFilters(lockedCategory, State())
    {
      if lockedCategory == "" {
        categories := [];
      }
      colors := [];
      sort := "";
      visibleCount := InitialVisible;
      location := Location(pathname, []);
    }

    /** The "load more" button (line 177). */
    method LoadMore()
      modifies this`visibleCount
      ensures visibleCount == old(visibleCount) + BatchSize
    {
      visibleCount := visibleCount + BatchSize;
    }

    /** The memoised listing for the current state. */
    function Filtered(catalogue: seq<Product>): seq<Product>
      reads this
    {
      Query(catalogue, lockedCategory, State())
    }
  }

  // ---------------------------------------------------------------------------------------------
  // Lemmas: the URL representation

  /** A comma-joined list of non-empty, comma-free strings parses back to itself; the empty list
      joins to "" and parses to the empty list. */
  lemma ParseJoinedParam(values: seq<string>)
    requires ParamList(values)
    ensures ParseParam(Some(Join(values, ","))) == values
  {
    if values != [] {
      SplitJoin(values, ",");
      NonEmptyKeepsNonEmptyList(values);
      assert values[0] in values;
      if |values| == 1 {
        assert Join(values, ",") == values[0];
      } else {
        assert |Join(values, ",")| > 0 by {
          assert Join(values, ",") == values[0] + "," + Join(values[1..], ",");
        }
      }
    }
  }

  /** The values `updateUrl` writes: the comma-joined lists and the sort string, each under its
      own key. */
  lemma ToQueryValues(locked: string, st: FilterState)
    ensures Get(ToQuery(locked, st), "category")
         == (if locked == "" && st.categories != [] then Some(Join(st.categories, ",")) else None)
    ensures Get(ToQuery(locked, st), "color") == (if st.colors != [] then Some(Join(st.colors, ",")) else None)
    ensures Get(ToQuery(locked, st), "sort") == (if st.sort != "" then Some(st.sort) else None)
  {
    var cat := Entry(locked == "" && st.categories != [], "category", Join(st.categories, ","));
    var col := Entry(st.colors != [], "color", Join(st.colors, ","));
    var sort := Entry(st.sort != "", "sort", st.sort);
    GetFromEntries(cat, col, sort, locked == "" && st.categories != [], "category", Join(st.categories, ","),
                   st.colors != [], "color", Join(st.colors, ","), st.sort != "", "sort", st.sort);
  }

  /** Writing a filter state to the URL and reading it back gives the same state, for lists that
      survive the comma-joined form; on a locked page the categories are kept as they were. */
  lemma UrlRoundTrip(locked: string, st: FilterState)
    requires ParamList(st.categories) && ParamList(st.colors)
    ensures FromQuery(ToQuery(locked, st), locked, st.categories) == st
  {
    ToQueryValues(locked, st);
    ParseJoinedParam(st.categories);
    ParseJoinedParam(st.colors);
  }

  // ---------------------------------------------------------------------------------------------
  // Lemmas: filtering and sorting

  /** The two filter passes select exactly the matching products, in catalogue order. */
  lemma FilterPassesIsMatching(catalogue: seq<Product>, locked: string, st: FilterState)
    ensures FilterPasses(catalogue, locked, st) == Keep(catalogue, (p: Product) => Matches(p, locked, st))
  {
    var matching := (p: Product) => Matches(p, locked, st);
    var byColor := (p: Product) => HasColorIn(p, st.colors);
    if locked != "" {
      var byLock := (p: Product) => p.category == locked;
      if st.colors != [] {
        KeepKeep(catalogue, byLock, byColor, matching);
      } else {
        assert forall p :: matching(p) == byLock(p);
        KeepSame(catalogue, byLock, matching);
      }
    } else if st.categories != [] {
      var bySelection := (p: Product) => p.category in st.categories;
      if st.colors != [] {
        KeepKeep(catalogue, bySelection, byColor, matching);
      } else {
        KeepSame(catalogue, bySelection, matching);
      }
    } else if st.colors != [] {
      KeepSame(catalogue, byColor, matching);
    } else {
      KeepAll(catalogue, matching);
    }
  }

  /** Filtering by two predicates that agree everywhere gives the same list. */
  lemma {:induction false} KeepSame(s: seq<Product>, f: Product -> bool, g: Product -> bool)
    requires forall p :: f(p) == g(p)
    ensures Keep(s, f) == Keep(s, g)
  {
    if s != [] {
      KeepSame(s[1..], f, g);
    }
  }

  /** The elements of key `k` in a list with a given head. */
  lemma WithKeyCons(h: Product, t: seq<Product>, mode: SortMode, k: int)
    ensures WithKey([h] + t, mode, k) == (if Key(mode, h) == k then [h] else []) + WithKey(t, mode, k)
  {
    assert ([h] + t)[1..] == t;
  }

  /** Inserting `x` changes the elements of key `k` only by placing `x` in front of them. */
  lemma {:induction false} InsertWithKey(x: Product, s: seq<Product>, mode: SortMode, k: int)
    ensures WithKey(Insert(x, s, mode), mode, k)
         == (if Key(mode, x) == k then [x] else []) + WithKey(s, mode, k)
  {
    if s == [] {
      WithKeyCons(x, [], mode, k);
    } else if Key(mode, x) <= Key(mode, s[0]) {
      WithKeyCons(x, s, mode, k);
    } else {
      var rest := Insert(x, s[1..], mode);
      InsertWithKey(x, s[1..], mode, k);
      WithKeyCons(s[0], rest, mode, k);
      WithKeyCons(s[0], s[1..], mode, k);
      assert s == [s[0]] + s[1..];
      if Key(mode, x) == k {
        assert Key(mode, s[0]) != k;
      }
    }
  }

  /** The sort is stable: among products with equal keys, the input order is kept. */
  lemma {:induction false} SortByIsStable(s: seq<Product>, mode: SortMode, k: int)
    ensures WithKey(SortBy(s, mode), mode, k) == WithKey(s, mode, k)
  {
    if s != [] {
      SortByIsStable(s[1..], mode, k);
      InsertWithKey(s[0], SortBy(s[1..], mode), mode, k);
      WithKeyCons(s[0], s[1..], mode, k);
      assert s == [s[0]] + s[1..];
    }
  }

  /** What the listing contains: exactly the catalogue products that pass the category and colour
      rules, each as often as in the catalogue. */
  lemma QueryContents(catalogue: seq<Product>, locked: string, st: FilterState)
    ensures multiset(Query(catalogue, locked, st))
         == multiset(Keep(catalogue, (p: Product) => Matches(p, locked, st)))
    ensures forall p :: p in Query(catalogue, locked, st) <==> p in catalogue && Matches(p, locked, st)
  {
    FilterPassesIsMatching(catalogue, locked, st);
    var r := Query(catalogue, locked, st);
    forall p ensures p in r <==> p in catalogue && Matches(p, locked, st) {
      assert p in r <==> p in multiset(r);
    }
  }

  /** The order of the listing: price ascending, price descending, or newest first; products that
      compare equal keep their catalogue order. */
  lemma QueryOrder(catalogue: seq<Product>, locked: string, st: FilterState)
    ensures var r := Query(catalogue, locked, st);
      && (ModeOf(st.sort) == PriceAsc ==> forall i, j :: 0 <= i < j < |r| ==> r[i].price <= r[j].price)
      && (ModeOf(st.sort) == PriceDesc ==> forall i, j :: 0 <= i < j < |r| ==> r[i].price >= r[j].price)
      && (ModeOf(st.sort) == Newest ==> forall i, j :: 0 <= i < j < |r| ==> r[i].createdAt >= r[j].createdAt)
    ensures forall k :: WithKey(Query(catalogue, locked, st), ModeOf(st.sort), k)
                     == WithKey(Keep(catalogue, (p: Product) => Matches(p, locked, st)), ModeOf(st.sort), k)
  {
    var mode := ModeOf(st.sort);
    var r := Query(catalogue, locked, st);
    assert SortedBy(r, mode);
    FilterPassesIsMatching(catalogue, locked, st);
    forall k ensures WithKey(r, mode, k) == WithKey(Keep(catalogue, (p: Product) => Matches(p, locked, st)), mode, k) {
      SortByIsStable(FilterPasses(catalogue, locked, st), mode, k);
    }
  }

  /** On a locked page the listing is exactly the products of the locked category (with the
      colour rule), whatever category selection the state holds. */
  lemma LockedQueryIgnoresSelection(catalogue: seq<Product>, locked: string, st: FilterState, other: seq<string>)
    requires locked != ""
    ensures Query(catalogue, locked, st) == Query(catalogue, locked, st.(categories := other))
    ensures forall p :: p in Query(catalogue, locked, st)
                    <==> p in catalogue && p.category == locked && ColorMatches(p, st.colors)
  {
    QueryContents(catalogue, locked, st);
  }

  /** A product without colours never passes a non-empty colour selection. */
  lemma ColorlessNeverMatches(catalogue: seq<Product>, locked: string, st: FilterState, p: Product)
    requires st.colors != [] && p.colors.None?
    ensures p !in Query(catalogue, locked, st)
  {
    QueryContents(catalogue, locked, st);
  }

  // ---------------------------------------------------------------------------------------------
  // Lemmas: the reveal window

  /** The window shows the first min(n, visibleCount) products, the rest are "remaining", the
      button is shown exactly when some remain, and pressing it reveals exactly the number it
      announces (at most one batch). */
  lemma WindowArithmetic(filtered: seq<Product>, visibleCount: nat)
    ensures |Visible(filtered, visibleCount)| + Remaining(|filtered|, visibleCount) == |filtered|
    ensures HasMore(|filtered|, visibleCount) <==> |Visible(filtered, visibleCount)| < |filtered|
    ensures NextBatch(|filtered|, visibleCount) <= BatchSize
    ensures Visible(filtered, visibleCount) <= Visible(filtered, visibleCount + BatchSize)
    ensures |Visible(filtered, visibleCount + BatchSize)|
         == |Visible(filtered, visibleCount)| + NextBatch(|filtered|, visibleCount)
  {
  }
}
