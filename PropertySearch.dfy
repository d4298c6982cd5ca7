/**
 * The search-and-filter panel (src/components/PropertSearchComponent.tsx):
 * its filter state, read from the URL when the panel opens; applying the
 * filters, either by pushing a new query string or by handing a payload to
 * the parent's callback; clearing them; and the "active filters" flag.
 */
module PropertySearch {
  import opened Common
  import opened SearchParams

  /** The seven filter fields the panel keeps in React state. */
  datatype Filters = Filters(
    query: string, propertyType: string, listingFor: string,
    priceMin: string, priceMax: string, sort: string, order: string)

  /** What the panel sends to `onFiltersChange`; None is `undefined`. */
  datatype CallbackFilters = CallbackFilters(
    query: Option<string>, propertyType: Option<string>, listingFor: Option<string>,
    priceMin: Option<string>, priceMax: Option<string>, sort: string, order: string)

  /** The effect of applying or clearing: a router push, or a call of the parent's callback. */
  datatype Navigation = Push(path: string, query: Params) | Notify(filters: CallbackFilters)

  /** The initial state: each field from the URL, or its default when missing or empty. */
  function InitialFilters(url: Params): Filters
  {
    Filters(
      OrElse(Get(url, "query"), ""),
      OrElse(Get(url, "type"), "all"),
      OrElse(Get(url, "for"), "all"),
      OrElse(Get(url, "priceMin"), ""),
      OrElse(Get(url, "priceMax"), ""),
      OrElse(Get(url, "sort"), "createdAt"),
      OrElse(Get(url, "order"), "desc"))
  }

  /** The state clearFilters sets. */
  const Cleared := Filters("", "all", "all", "", "", "createdAt", "desc")

  /** The update record applyFilters hands to createQueryString; `page` is always reset to "1". */
  function FilterUpdates(f: Filters): (u: seq<(string, string)>)
    ensures DistinctKeys(u)
  {
    [("query", f.query), ("type", f.propertyType), ("for", f.listingFor),
     ("priceMin", f.priceMin), ("priceMax", f.priceMax), ("sort", f.sort),
     ("order", f.order), ("page", "1")]
  }

  /** The callback payload of applyFilters: empty text and "all" become undefined. */
  function CallbackPayload(f: Filters): CallbackFilters
  {
    CallbackFilters(
      if f.query != "" then Some(f.query) else None,
      if f.propertyType != "all" then Some(f.propertyType) else None,
      if f.listingFor != "all" then Some(f.listingFor) else None,
      if f.priceMin != "" then Some(f.priceMin) else None,
      if f.priceMax != "" then Some(f.priceMax) else None,
      f.sort, f.order)
  }

  /** hasActiveFilters: some text filter is set or a select is on something other than "all". */
  predicate HasActiveFilters(f: Filters)
  {
    || f.query != ""
    || (f.propertyType != "" && f.propertyType != "all")
    || (f.listingFor != "" && f.listingFor != "all")
    || f.priceMin != ""
    || f.priceMax != ""
  }

  /** The panel: its filter state and the URL and callback it was mounted with. */
  class SearchPanel {
    var filters: Filters
    const url: Params
    const pathname: string
    const hasCallback: bool

    constructor (url: Params, pathname: string, hasCallback: bool)
      ensures filters == InitialFilters(url)
      ensures this.url == url && this.pathname == pathname && this.hasCallback == hasCallback
    {
      this.url := url;
      this.pathname := pathname;
      this.hasCallback := hasCallback;
      filters := InitialFilters(url);
    }

    /**
     * applyFilters: with a callback, hands it the payload; otherwise pushes
     * the current URL's parameters updated with every filter and page "1".
     */
    method ApplyFilters() returns (nav: Navigation)
      ensures hasCallback ==> nav == Notify(CallbackPayload(filters))
      ensures !hasCallback ==> nav.Push? && nav.path == pathname
      ensures !hasCallback ==> nav.query == ApplyUpdates(url, FilterUpdates(filters))
      ensures !hasCallback ==> ValuesOf(nav.query, "page") == ["1"]
      ensures !hasCallback ==> forall name :: Reflects(nav.query, url, FilterUpdates(filters), name)
    {
      var queryString := CreateQueryString(url, FilterUpdates(filters));
      PageReset(url, filters);
      if hasCallback {
        nav := Notify(CallbackPayload(filters));
      } else {
        nav := Push(pathname, queryString);
      }
    }

    /** clearFilters: resets every field to its default and announces an unfiltered search. */
    method ClearFilters() returns (nav: Navigation)
      modifies this
      ensures filters == Cleared
      ensures nav == if hasCallback then Notify(CallbackFilters(None, None, None, None, None, "createdAt", "desc"))
                     else Push(pathname, [])
    {
      filters := Filters("", "all", "all", "", "", "createdAt", "desc");
      if hasCallback {
        nav := Notify(CallbackFilters(None, None, None, None, None, "createdAt", "desc"));
      } else {
        nav := Push(pathname, []);
      }
    }
  }

  // ---------------------------------------------------------------------
  // Properties
  // ---------------------------------------------------------------------

  /** Filtering always sends the user back to page "1". */
  lemma PageReset(url: Params, f: Filters)
    ensures ValuesOf(ApplyUpdates(url, FilterUpdates(f)), "page") == ["1"]
  {
    UpdatesMeaning(url, FilterUpdates(f), "page");
    assert FilterUpdates(f)[7] == ("page", "1");
  }

  /** After clearing, no filter counts as active, and an empty URL opens the panel in the cleared state. */
  lemma ClearedIsInactive()
    ensures !HasActiveFilters(Cleared)
    ensures InitialFilters([]) == Cleared
  {
  }

  /** Sort field and order never make the filters active. */
  lemma SortNeverCounts(f: Filters, sort: string, order: string)
    ensures HasActiveFilters(f.(sort := sort, order := order)) == HasActiveFilters(f)
  {
  }

  /** What the URL built by applyFilters holds under the name of one filter entry. */
  lemma FilterValue(url: Params, f: Filters, i: int)
    requires 0 <= i < |FilterUpdates(f)|
    ensures ValuesOf(ApplyUpdates(url, FilterUpdates(f)), FilterUpdates(f)[i].0) ==
      if FilterUpdates(f)[i].1 == "" then [] else [FilterUpdates(f)[i].1]
  {
    UpdatedValues(url, FilterUpdates(f), i);
  }

  /** "all" survives into the URL (it is not empty) but becomes undefined in the callback payload. */
  lemma AllKeptInUrlDroppedInCallback(url: Params, f: Filters)
    ensures f.propertyType == "all" ==>
      ValuesOf(ApplyUpdates(url, FilterUpdates(f)), "type") == ["all"] && CallbackPayload(f).propertyType.None?
    ensures f.listingFor == "all" ==>
      ValuesOf(ApplyUpdates(url, FilterUpdates(f)), "for") == ["all"] && CallbackPayload(f).listingFor.None?
  {
    FilterValue(url, f, 1);
    FilterValue(url, f, 2);
  }

  /** Empty text filters are dropped on both paths: absent from the URL and undefined in the payload. */
  lemma EmptyTextDroppedOnBothPaths(url: Params, f: Filters)
    ensures f.query == "" ==>
      ValuesOf(ApplyUpdates(url, FilterUpdates(f)), "query") == [] && CallbackPayload(f).query.None?
    ensures f.priceMin == "" ==>
      ValuesOf(ApplyUpdates(url, FilterUpdates(f)), "priceMin") == [] && CallbackPayload(f).priceMin.None?
    ensures f.priceMax == "" ==>
      ValuesOf(ApplyUpdates(url, FilterUpdates(f)), "priceMax") == [] && CallbackPayload(f).priceMax.None?
  {
    FilterValue(url, f, 0);
    FilterValue(url, f, 3);
    FilterValue(url, f, 4);
  }

  /** Values a user can pick in the panel: the selects never produce an empty value. */
  predicate Selectable(f: Filters)
  {
    f.propertyType != "" && f.listingFor != "" && f.sort != "" && f.order != ""
  }

  /** Re-opening the panel on the URL that applyFilters pushed shows the same filters. */
  lemma PushedUrlRoundTrip(url: Params, f: Filters)
    requires Selectable(f)
    ensures InitialFilters(ApplyUpdates(url, FilterUpdates(f))) == f
  {
    var u := FilterUpdates(f);
    UpdatedGet(url, u, 0);
    UpdatedGet(url, u, 1);
    UpdatedGet(url, u, 2);
    UpdatedGet(url, u, 3);
    UpdatedGet(url, u, 4);
    UpdatedGet(url, u, 5);
    UpdatedGet(url, u, 6);
  }

  /** Applying the same filters twice pushes the same query string as applying them once. */
  lemma ReapplyIsStable(url: Params, f: Filters)
    ensures ApplyUpdates(ApplyUpdates(url, FilterUpdates(f)), FilterUpdates(f)) == ApplyUpdates(url, FilterUpdates(f))
  {
    UpdatesIdempotent(url, FilterUpdates(f));
  }
}
