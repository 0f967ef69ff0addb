/** The header's product search (src/components/layout/Header/SearchOverlay.tsx): the settled
    query either clears the panel (fewer than two characters) or starts a backend search; its
    answer, its failure or the closing of the overlay move the panel between loading, error,
    no-results, results and the popular-searches default. Timers, the network and the focus calls
    are events and parameters here. */
module SearchOverlay {
  import opened Wrappers
  import opened Seqs
  import opened UrlParams
  import opened Medusa
  import opened Text

  /** The shortest settled query that is sent to the backend, in UTF-16 code units (JavaScript's
      `length`). */
  const MinQueryLength: nat := 2
  /** The number of products asked for. */
  const ResultLimit: string := "6"

  // ---------------------------------------------------------------------------------------------
  // Products as the backend returns them

  datatype PriceEntry = PriceEntry(amount: int, currencyCode: string)

  /** A variant: `calculated_price?.calculated_amount` (absent or null is `None`) and its list of
      prices. */
  datatype Variant = Variant(calculatedAmount: Option<int>, prices: seq<PriceEntry>)

  /** A search hit. `thumbnail` is `None` for null; `images` holds the image URLs in order. */
  datatype Hit = Hit(
    id: string,
    title: string,
    handle: string,
    thumbnail: Option<string>,
    images: seq<string>,
    variants: seq<Variant>,
    categoryNames: seq<string>)

  /** Whether `p` is the first euro price of `prices`. */
  predicate FirstEuro(prices: seq<PriceEntry>, p: PriceEntry) {
    exists i :: 0 <= i < |prices| && prices[i] == p && prices[i].currencyCode == "eur"
      && forall j :: 0 <= j < i ==> prices[j].currencyCode != "eur"
  }

  /** `getProductPrice`, the amount only (its euro formatting is not modelled): none without a
      first variant; else the calculated amount when there is one (zero included); else the first
      euro price; else the first price; else none. */
  function ProductPrice(hit: Hit): (r: Option<int>)
    ensures hit.variants == [] ==> r == None
    ensures hit.variants != [] && hit.variants[0].calculatedAmount.Some? ==> r == hit.variants[0].calculatedAmount
    ensures hit.variants != [] && hit.variants[0].calculatedAmount.None? ==>
      var prices := hit.variants[0].prices;
      && (forall p :: FirstEuro(prices, p) ==> r == Some(p.amount))
      && ((forall p :: p in prices ==> p.currencyCode != "eur") && prices != [] ==> r == Some(prices[0].amount))
      && (prices == [] ==> r == None)
  {
    if hit.variants == [] then None
    else
      var v := hit.variants[0];
      if v.calculatedAmount.Some? then v.calculatedAmount
      else
        var i := FirstWhere(v.prices, (p: PriceEntry) => p.currencyCode == "eur");
        assert forall p :: FirstEuro(v.prices, p) ==> p == v.prices[i] by {
          forall p | FirstEuro(v.prices, p) ensures p == v.prices[i] {
            var k :| 0 <= k < |v.prices| && v.prices[k] == p && v.prices[k].currencyCode == "eur"
              && forall j :: 0 <= j < k ==> v.prices[j].currencyCode != "eur";
            if i < k {
            } else if k < i {
            }
          }
        }
        if i < |v.prices| then Some(v.prices[i].amount)
        else if v.prices != [] then Some(v.prices[0].amount)
        else None
  }

  /** `getImageUrl`: the thumbnail when it is a non-empty string, else the first image's URL when
      non-empty, else none. */
  function ImageUrl(hit: Hit): (r: Option<string>)
    ensures r.Some? ==> r.value != ""
    ensures hit.thumbnail.Some? && hit.thumbnail.value != "" ==> r == hit.thumbnail
    ensures !(hit.thumbnail.Some? && hit.thumbnail.value != "") ==>
      r == (if hit.images != [] && hit.images[0] != "" then Some(hit.images[0]) else None)
  {
    if hit.thumbnail.Some? && hit.thumbnail.value != "" then hit.thumbnail
    else if hit.images != [] && hit.images[0] != "" then Some(hit.images[0])
    else None
  }

  /** The query string of a search request: `q` and `limit` first, `region_id` only when a region
      is known, and the backend locale last. */
  function RequestParams(query: string, regionId: Option<string>, locale: string): (params: Params)
    ensures |params| >= 3 && params[0] == ("q", query) && params[1] == ("limit", ResultLimit)
    ensures params[|params| - 1] == ("locale", MedusaLocale(locale))
    ensures Get(params, "region_id").Some? <==> regionId.Some? && regionId.value != ""
    ensures regionId.Some? && regionId.value != "" ==> |params| == 4 && params[2] == ("region_id", regionId.value)
    ensures !(regionId.Some? && regionId.value != "") ==> |params| == 3
  {
    [("q", query), ("limit", ResultLimit)]
    + (if regionId.Some? && regionId.value != "" then [("region_id", regionId.value)] else [])
    + [("locale", MedusaLocale(locale))]
  }

  // ---------------------------------------------------------------------------------------------
  // The content area

  /** One row of the result list. */
  datatype Row = Row(href: string, title: string, image: Option<string>, price: Option<int>, category: Option<string>)

  /** What `contentArea` draws. The "view all" link carries the typed (not the settled) query. */
  datatype Content =
    | Spinner
    | ErrorMessage
    | NoResults(terms: seq<string>)
    | ResultList(rows: seq<Row>, viewAllQuery: string, totalCount: int)
    | Popular(terms: seq<string>)

  function RowOf(hit: Hit): (r: Row)
    ensures r.href == "/shop/product/" + hit.handle && r.title == hit.title
    ensures r.image == ImageUrl(hit) && r.price == ProductPrice(hit)
  {
    Row("/shop/product/" + hit.handle, hit.title, ImageUrl(hit), ProductPrice(hit),
      if hit.categoryNames != [] && hit.categoryNames[0] != "" then Some(hit.categoryNames[0]) else None)
  }

  function Rows(hits: seq<Hit>): (rows: seq<Row>)
    ensures |rows| == |hits|
    ensures forall i :: 0 <= i < |hits| ==> rows[i] == RowOf(hits[i])
  {
    if hits == [] then [] else [RowOf(hits[0])] + Rows(hits[1..])
  }

  /** `contentArea`: loading wins over error, error over no-results, no-results (a settled query
      of two or more characters with nothing found) over the list, and the popular searches are
      the default. */
  function ContentArea(isLoading: bool, hasError: bool, debouncedQuery: string, query: string,
                       results: seq<Hit>, totalCount: int, popular: seq<string>): (c: Content)
    ensures c.Spinner? <==> isLoading
    ensures c.ErrorMessage? <==> !isLoading && hasError
    ensures c.NoResults? <==> !isLoading && !hasError && Utf16Length(debouncedQuery) >= MinQueryLength && results == []
    ensures c.ResultList? <==> !isLoading && !hasError && results != []
    ensures c.ResultList? ==> c == ResultList(Rows(results), query, totalCount)
    ensures c.Popular? <==> !isLoading && !hasError && Utf16Length(debouncedQuery) < MinQueryLength && results == []
    ensures (c.NoResults? || c.Popular?) ==> c.terms == popular
  {
    if isLoading then Spinner
    else if hasError then ErrorMessage
    else if Utf16Length(debouncedQuery) >= MinQueryLength && results == [] then NoResults(popular)
    else if results != [] then ResultList(Rows(results), query, totalCount)
    else Popular(popular)
  }

  // ---------------------------------------------------------------------------------------------
  // The search state machine

  /** What a request ends in: a parsed answer (`products` and `count` absent are `None`), or a
      failure (a non-OK status, a network error or an unreadable body). An aborted request ends
      in nothing: its handlers return early. */
  datatype Answer = Answered(products: Option<seq<Hit>>, count: Option<int>) | Failed

  /** The overlay's state. `requests` lists every request sent, by number; `live` is the request
      whose handlers can still change the state (the one in `abortRef` while it is neither aborted
      nor finished). */
  datatype State = State(
    isOpen: bool,
    locale: string,
    query: string,
    debouncedQuery: string,
    results: seq<Hit>,
    totalCount: int,
    isLoading: bool,
    hasError: bool,
    regionId: Option<string>,
    requests: seq<Params>,
    live: Option<nat>)

  datatype Event =
    | Open
    | Close
    | Type(text: string)            // the input's new value
    | Settle                        // the 300 ms debounce timer fires
    | RegionLoaded(id: string)      // the region request answers with a first region id
    | Respond(request: nat, answer: Answer)
    | PopularClick(term: string)

  /** The state when the overlay is mounted. */
  function Initial(locale: string): (s: State)
    ensures !s.isOpen && s.query == "" && s.results == [] && s.requests == [] && s.live == None
  {
    State(false, locale, "", "", [], 0, false, false, None, [], None)
  }

  /** The search effect as written: a short settled query clears the panel and returns, leaving
      any request in flight; otherwise the previous request is aborted and a new one is sent. */
  function SearchEffectAsWritten(s: State): (t: State)
    ensures Utf16Length(s.debouncedQuery) < MinQueryLength ==>
      t == s.(results := [], totalCount := 0, isLoading := false, hasError := false)
    ensures Utf16Length(s.debouncedQuery) >= MinQueryLength ==>
      t == s.(isLoading := true, hasError := false,
              requests := s.requests + [RequestParams(s.debouncedQuery, s.regionId, s.locale)],
              live := Some(|s.requests|))
  {
    if Utf16Length(s.debouncedQuery) < MinQueryLength then
      s.(results := [], totalCount := 0, isLoading := false, hasError := false)
    else
      s.(isLoading := true, hasError := false,
         requests := s.requests + [RequestParams(s.debouncedQuery, s.regionId, s.locale)],
         live := Some(|s.requests|))
  }

  /** The search effect with the short-query branch also aborting the request in flight, so that
      its answer can no longer fill the cleared panel. */
  function SearchEffect(s: State): (t: State)
    ensures Utf16Length(s.debouncedQuery) < MinQueryLength ==>
      t == s.(results := [], totalCount := 0, isLoading := false, hasError := false, live := None)
    ensures Utf16Length(s.debouncedQuery) >= MinQueryLength ==> t == SearchEffectAsWritten(s)
  {
    if Utf16Length(s.debouncedQuery) < MinQueryLength then SearchEffectAsWritten(s).(live := None)
    else SearchEffectAsWritten(s)
  }

  /** The search effect `fixShortBranch` selects: it keeps the locale and only ever appends to the
      requests sent. */
  function Effect(s: State, fixShortBranch: bool): (t: State)
    ensures t.locale == s.locale
    ensures |t.requests| >= |s.requests| && t.requests[..|s.requests|] == s.requests
  {
    if fixShortBranch then SearchEffect(s) else SearchEffectAsWritten(s)
  }

  /** One event, with the search effect given as `fixShortBranch` selects. The effect runs again
      whenever one of its inputs (the settled query, the region id) changes. */
  function Apply(s: State, e: Event, fixShortBranch: bool): (t: State)
    ensures t.locale == s.locale
    ensures |t.requests| >= |s.requests| && t.requests[..|s.requests|] == s.requests
  {
    match e
    case Open => s.(isOpen := true)
    case Close =>
      if s.isOpen then
        s.(isOpen := false, query := "", results := [], totalCount := 0, isLoading := false,
           hasError := false, live := None)
      else s
    case Type(text) => s.(query := text)
    case Settle =>
      if s.query == s.debouncedQuery then s else Effect(s.(debouncedQuery := s.query), fixShortBranch)
    case RegionLoaded(id) =>
      if id == "" || s.regionId == Some(id) then s else Effect(s.(regionId := Some(id)), fixShortBranch)
    case Respond(request, answer) =>
      if s.live != Some(request) then s
      else
        (match answer
         case Answered(products, count) =>
           s.(results := products.GetOr([]),
              totalCount := if count.Some? && count.value != 0 then count.value else 0,
              isLoading := false, live := None)
         case Failed => s.(hasError := true, isLoading := false, live := None))
    case PopularClick(term) => s.(query := term)
  }

  /** The overlay as written. */
  function StepAsWritten(s: State, e: Event): State {
    Apply(s, e, false)
  }

  /** The overlay with the short-query branch aborting the request in flight. */
  function Step(s: State, e: Event): State {
    Apply(s, e, true)
  }

  function Run(s: State, events: seq<Event>): State
    decreases |events|
  {
    if events == [] then s else Run(Step(s, events[0]), events[1..])
  }

  /** What the panel draws in a state. */
  function Shown(s: State, popular: seq<string>): Content {
    ContentArea(s.isLoading, s.hasError, s.debouncedQuery, s.query, s.results, s.totalCount, popular)
  }

  /** The consistency the corrected overlay keeps: a request is live exactly while the panel is
      loading; a settled query that is too short shows neither results, an error nor a spinner. */
  ghost predicate Consistent(s: State) {
    && (s.live.Some? ==> s.live.value < |s.requests| && Utf16Length(s.debouncedQuery) >= MinQueryLength)
    && (s.isLoading <==> s.live.Some?)
    && (Utf16Length(s.debouncedQuery) < MinQueryLength ==> s.results == [] && !s.hasError)
  }

  // ---------------------------------------------------------------------------------------------
  // Lemmas

  /** A short settled query sends nothing and clears the panel, in both versions. */
  lemma ShortQueryGate(s: State)
    requires s.query != s.debouncedQuery && Utf16Length(s.query) < MinQueryLength
    ensures var t := StepAsWritten(s, Settle);
      t.requests == s.requests && t.results == [] && t.totalCount == 0 && !t.isLoading && !t.hasError
    ensures var t := Step(s, Settle);
      t.requests == s.requests && t.results == [] && t.totalCount == 0 && !t.isLoading && !t.hasError
      && t.live == None
  {
  }

  /** A new settled query of two or more characters sends exactly one request, with the query,
      the limit, the region when known and the backend locale, and it is the one that may answer. */
  lemma LongQuerySends(s: State)
    requires s.query != s.debouncedQuery && Utf16Length(s.query) >= MinQueryLength
    ensures Step(s, Settle).requests == s.requests + [RequestParams(s.query, s.regionId, s.locale)]
    ensures Step(s, Settle).live == Some(|s.requests|)
    ensures Step(s, Settle).isLoading && !Step(s, Settle).hasError
  {
  }

  /** Only the live request's answer is used; any other (an aborted one) changes nothing. */
  lemma StaleAnswersIgnored(s: State, request: nat, answer: Answer)
    requires s.live != Some(request)
    ensures Step(s, Respond(request, answer)) == s
  {
  }

  /** The live request's answer: a parsed one fills the results with `products || []` and the count
      with `count || 0`; a failure raises the error flag and keeps the results. Either way the
      spinner stops, the request is finished, and nothing else changes; both versions agree. */
  lemma LiveAnswerOutcome(s: State, request: nat, answer: Answer)
    requires s.live == Some(request)
    ensures Step(s, Respond(request, answer)) == StepAsWritten(s, Respond(request, answer))
    ensures var t := Step(s, Respond(request, answer));
      && t.live == None && !t.isLoading
      && t.isOpen == s.isOpen && t.query == s.query && t.debouncedQuery == s.debouncedQuery
      && t.regionId == s.regionId && t.requests == s.requests
      && (answer.Answered? ==>
            && t.results == (if answer.products.Some? then answer.products.value else [])
            && t.totalCount == (if answer.count.Some? && answer.count.value != 0 then answer.count.value else 0)
            && t.hasError == s.hasError)
      && (answer.Failed? ==> t.hasError && t.results == s.results && t.totalCount == s.totalCount)
  {
  }

  /** The gate counts UTF-16 code units: a single emoji is two units long, so settling on it sends
      a search although it is one character. */
  lemma AstralQuerySends(s: State)
    requires s.query == "\U{1F600}" && s.debouncedQuery != s.query
    ensures |s.query| == 1 && Utf16Length(s.query) == MinQueryLength
    ensures Step(s, Settle).requests == s.requests + [RequestParams(s.query, s.regionId, s.locale)]
    ensures Step(s, Settle).isLoading
  {
    assert IsAstral(s.query[0]);
    assert s.query[1..] == "";
  }

  /** Closing clears the query, the results, the count and both flags, and no request can answer
      afterwards. */
  lemma CloseResets(s: State)
    requires s.isOpen
    ensures var t := Step(s, Close);
      !t.isOpen && t.query == "" && t.results == [] && t.totalCount == 0 && !t.isLoading
      && !t.hasError && t.live == None
    ensures forall r: nat, a :: Step(Step(s, Close), Respond(r, a)) == Step(s, Close)
  {
  }

  /** The corrected overlay keeps its consistency through every event. */
  lemma StepKeepsConsistent(s: State, e: Event)
    requires Consistent(s)
    ensures Consistent(Step(s, e))
  {
  }

  /** Consequently a short settled query never shows results, a spinner or an error: the panel
      falls back to the popular searches. */
  lemma {:induction false} ShortQueryShowsPopular(s: State, events: seq<Event>, popular: seq<string>)
    requires Consistent(s)
    ensures Consistent(Run(s, events))
    ensures Utf16Length(Run(s, events).debouncedQuery) < MinQueryLength ==> Shown(Run(s, events), popular) == Popular(popular)
    decreases |events|
  {
    if events != [] {
      StepKeepsConsistent(s, events[0]);
      ShortQueryShowsPopular(Step(s, events[0]), events[1..], popular);
    }
  }

  /** The overlay as written does not keep it: a search for "sca" still in flight when the query
      is shortened to "s" answers after the panel was cleared and fills it with the results for
      "sca", shown under a query the gate says must not search. */
  lemma AsWrittenShowsStaleResults(hit: Hit, popular: seq<string>)
    ensures var s0 := Initial("lt");
      var s1 := StepAsWritten(StepAsWritten(StepAsWritten(s0, Open), Type("sca")), Settle);
      var s2 := StepAsWritten(StepAsWritten(s1, Type("s")), Settle);
      var s3 := StepAsWritten(s2, Respond(0, Answered(Some([hit]), Some(1))));
      && Consistent(s0)
      && s2.results == [] && s2.live == Some(0)
      && s3.debouncedQuery == "s" && s3.results == [hit]
      && Shown(s3, popular) == ResultList([RowOf(hit)], "s", 1)
  {
    var s0 := Initial("lt");
    var typed := StepAsWritten(StepAsWritten(s0, Open), Type("sca"));
    assert typed == s0.(isOpen := true, query := "sca");
    var s1 := StepAsWritten(typed, Settle);
    assert s1.live == Some(0) && |s1.requests| == 1 && s1.debouncedQuery == "sca";
    var shortened := StepAsWritten(s1, Type("s"));
    assert shortened == s1.(query := "s");
    assert Utf16Length("s") == 1 by {
      assert !IsAstral("s"[0]) && "s"[1..] == "";
    }
    var s2 := StepAsWritten(shortened, Settle);
    assert s2 == shortened.(debouncedQuery := "s", results := [], totalCount := 0, isLoading := false, hasError := false);
    var s3 := StepAsWritten(s2, Respond(0, Answered(Some([hit]), Some(1))));
    assert s3 == s2.(results := [hit], totalCount := 1, isLoading := false, live := None);
  }

  // ---------------------------------------------------------------------------------------------
  // The component

  /** The overlay's state as the component holds it; each handler performs one event of `Step`. */
  class Overlay {
    var isOpen: bool
    const locale: string
    var query: string
    var debouncedQuery: string
    var results: seq<Hit>
    var totalCount: int
    var isLoading: bool
    var hasError: bool
    var regionId: Option<string>
    var requests: seq<Params>
    var live: Option<nat>

    function Snapshot(): State
      reads this
    {
      State(isOpen, locale, query, debouncedQuery, results, totalCount, isLoading, hasError, regionId, requests, live)
    }

    constructor(locale: string)
      ensures Snapshot() == Initial(locale)
    {
      isOpen := false;
      this.locale := locale;
      query := "";
      debouncedQuery := "";
      results := [];
      totalCount := 0;
      isLoading := false;
      hasError := false;
      regionId := None;
      requests := [];
      live := None;
    }

    /** The search effect (lines 107-148), with the short branch aborting the request in flight. */
    method Search()
      modifies this
      ensures Snapshot() == SearchEffect(old(Snapshot()))
    {
      if Utf16Length(debouncedQuery) < MinQueryLength {
        results := [];
        totalCount := 0;
        isLoading := false;
        hasError := false;
        live := None;
        return;
      }
      live := Some(|requests|);
      requests := requests + [RequestParams(debouncedQuery, regionId, locale)];
      isLoading := true;
      hasError := false;
    }

    /** The debounce timer fires: the settled query catches up with the typed one. */
    method Settle()
      modifies this
      ensures Snapshot() == Step(old(Snapshot()), Event.Settle)
    {
      if query != debouncedQuery {
        debouncedQuery := query;
        Search();
      }
    }

    method RegionLoaded(id: string)
      modifies this
      ensures Snapshot() == Step(old(Snapshot()), Event.RegionLoaded(id))
    {
      if id != "" && regionId != Some(id) {
        regionId := Some(id);
        Search();
      }
    }

    /** The handlers of request `request` (lines 133-147). */
    method Respond(request: nat, answer: Answer)
      modifies this
      ensures Snapshot() == Step(old(Snapshot()), Event.Respond(request, answer))
    {
      if live != Some(request) {
        return;
      }
      match answer {
        case Answered(products, count) =>
          results := products.GetOr([]);
          totalCount := if count.Some? && count.value != 0 then count.value else 0;
          isLoading := false;
        case Failed =>
          hasError := true;
          isLoading := false;
      }
      live := None;
    }

    /** The open/close effect (lines 151-171). */
    method SetOpen(open: bool)
      modifies this
      ensures Snapshot() == Step(old(Snapshot()), if open then Event.Open else Event.Close)
    {
      if open {
        isOpen := true;
      } else if isOpen {
        isOpen := false;
        query := "";
        results := [];
        totalCount := 0;
        isLoading := false;
        hasError := false;
        live := None;
      }
    }

    method Type(text: string)
      modifies this`query
      ensures Snapshot() == Step(old(Snapshot()), Event.Type(text))
    {
      query := text;
    }

    /** `handlePopularClick`: the query becomes exactly the term. */
    method PopularClick(term: string)
      modifies this`query
      ensures Snapshot() == Step(old(Snapshot()), Event.PopularClick(term))
    {
      query := term;
    }
  }
}
