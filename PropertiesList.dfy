/**
 * The property list page (src/components/PropertiesList.tsx): the fetch
 * parameters it derives from the URL, the page and page-size controls
 * that rewrite the URL, the "Showing X to Y of N" range, and how a fetch
 * response updates the list state.
 */
module PropertiesList {
  import opened Common
  import opened SearchParams
  import PropertySearch

  /** The pagination envelope of a listing response (src/types/index.ts). */
  datatype PaginationInfo = PaginationInfo(
    totalCount: int, totalPages: int, currentPage: int, limit: int,
    hasNextPage: bool, hasPreviousPage: bool)

  datatype PropertiesResponse = PropertiesResponse(
    message: string, success: bool,
    properties: Option<seq<Property>>, pagination: Option<PaginationInfo>)

  /** The server action either answers with a response or throws. */
  datatype FetchOutcome = Responded(response: PropertiesResponse) | Threw

  /**
   * ServerActionParams as the list builds it. `page` and `limit` are the URL
   * text handed to parseInt, and the price bounds the text handed to
   * parseFloat; the number parsing itself is not modelled.
   */
  datatype FetchParams = FetchParams(
    page: string, limit: string,
    query: Option<string>, propertyType: Option<string>, listingFor: Option<string>,
    priceMin: Option<string>, priceMax: Option<string>,
    sort: Option<string>, order: Option<string>)

  /** A value that is present and not empty (a truthy `searchParams.get`). */
  function Present(v: Option<string>): (r: Option<string>)
    ensures r.Some? <==> v.Some? && v.value != ""
    ensures r.Some? ==> r == v
  {
    if v.Some? && v.value != "" then v else None
  }

  /** Present, and not the "all" placeholder of the selects. */
  function Chosen(v: Option<string>): (r: Option<string>)
    ensures r.Some? <==> v.Some? && v.value != "" && v.value != "all"
    ensures r.Some? ==> r == v
  {
    if v.Some? && v.value != "" && v.value != "all" then v else None
  }

  /** fetchProperties: the parameters handed to the server action. */
  function FetchParamsOf(url: Params): FetchParams
  {
    FetchParams(
      OrElse(Get(url, "page"), "1"),
      OrElse(Get(url, "limit"), "10"),
      Present(Get(url, "query")), Chosen(Get(url, "type")), Chosen(Get(url, "for")),
      Present(Get(url, "priceMin")), Present(Get(url, "priceMax")),
      Present(Get(url, "sort")), Present(Get(url, "order")))
  }

  /**
   * A search applied from the filter panel reaches the server action with
   * page "1", without the "all" placeholders, and without empty text filters.
   */
  lemma FilteredFetch(url: Params, f: PropertySearch.Filters)
    requires PropertySearch.Selectable(f)
    ensures var p := FetchParamsOf(ApplyUpdates(url, PropertySearch.FilterUpdates(f)));
      && p.page == "1"
      && p.query == (if f.query == "" then None else Some(f.query))
      && p.propertyType == (if f.propertyType == "all" then None else Some(f.propertyType))
      && p.listingFor == (if f.listingFor == "all" then None else Some(f.listingFor))
      && p.priceMin == (if f.priceMin == "" then None else Some(f.priceMin))
      && p.priceMax == (if f.priceMax == "" then None else Some(f.priceMax))
      && p.sort == Some(f.sort) && p.order == Some(f.order)
  {
    var u := PropertySearch.FilterUpdates(f);
    UpdatedGet(url, u, 0);
    UpdatedGet(url, u, 1);
    UpdatedGet(url, u, 2);
    UpdatedGet(url, u, 3);
    UpdatedGet(url, u, 4);
    UpdatedGet(url, u, 5);
    UpdatedGet(url, u, 6);
    UpdatedGet(url, u, 7);
  }

  /** handlePageChange: sets `page` on a copy of the URL parameters. */
  method HandlePageChange(url: Params, page: int) returns (params: Params)
    ensures ValuesOf(params, "page") == [IntToString(page)]
    ensures Delete(params, "page") == Delete(url, "page")
    ensures FetchParamsOf(params) == FetchParamsOf(url).(page := IntToString(page))
  {
    params := url;
    params := Set(params, "page", IntToString(page));
    SetKeepsFetchParams(url, "page", IntToString(page));
  }

  /** handleLimitChange: sets `limit` and resets `page` to "1" on a copy of the URL parameters. */
  method HandleLimitChange(url: Params, limit: string) returns (params: Params)
    ensures ValuesOf(params, "limit") == [limit]
    ensures ValuesOf(params, "page") == ["1"]
    ensures Delete(Delete(params, "page"), "limit") == Delete(Delete(url, "page"), "limit")
    ensures FetchParamsOf(params) == FetchParamsOf(url).(page := "1", limit := OrElse(Some(limit), "10"))
  {
    params := url;
    params := Set(params, "limit", limit);
    var withLimit := params;
    params := Set(params, "page", "1");
    assert ValuesOf(params, "limit") == ValuesOf(withLimit, "limit");
    calc {
      Delete(Delete(params, "page"), "limit");
      Delete(Delete(withLimit, "page"), "limit");
      { DeleteCommutes(withLimit, "page", "limit"); }
      Delete(Delete(withLimit, "limit"), "page");
      Delete(Delete(url, "limit"), "page");
      { DeleteCommutes(url, "page", "limit"); }
      Delete(Delete(url, "page"), "limit");
    }
    SetKeepsFetchParams(url, "limit", limit);
    SetKeepsFetchParams(withLimit, "page", "1");
  }

  /** Setting a name leaves what `get` returns for any other name unchanged. */
  lemma SetKeepsGet(url: Params, name: string, value: string, other: string)
    requires other != name
    ensures Get(Set(url, name, value), other) == Get(url, other)
  {
    assert ValuesOf(Set(url, name, value), other) == ValuesOf(url, other);
  }

  /** Setting `page` or `limit` changes that one fetch parameter and no other. */
  lemma SetKeepsFetchParams(url: Params, name: string, value: string)
    requires name == "page" || name == "limit"
    ensures name == "page" ==> FetchParamsOf(Set(url, name, value)) == FetchParamsOf(url).(page := OrElse(Some(value), "1"))
    ensures name == "limit" ==> FetchParamsOf(Set(url, name, value)) == FetchParamsOf(url).(limit := OrElse(Some(value), "10"))
  {
    var p := Set(url, name, value);
    assert Get(p, name) == Some(value);
    if name == "page" {
      SetKeepsGet(url, name, value, "limit");
    } else {
      SetKeepsGet(url, name, value, "page");
    }
    SetKeepsGet(url, name, value, "query");
    SetKeepsGet(url, name, value, "type");
    SetKeepsGet(url, name, value, "for");
    SetKeepsGet(url, name, value, "priceMin");
    SetKeepsGet(url, name, value, "priceMax");
    SetKeepsGet(url, name, value, "sort");
    SetKeepsGet(url, name, value, "order");
  }

  /** The "Showing first to last" numbers of the header. */
  function ShowingRange(currentPage: int, limit: int, totalCount: int): (r: (int, int))
    ensures r.1 <= totalCount
  {
    ((currentPage - 1) * limit + 1, if currentPage * limit <= totalCount then currentPage * limit else totalCount)
  }

  /** On a page that has rows, the header's range is a non-empty run of at most `limit` rows inside [1, totalCount]. */
  lemma ShowingRangeWithinPage(currentPage: int, limit: int, totalCount: int)
    requires currentPage >= 1 && limit >= 1
    requires (currentPage - 1) * limit < totalCount
    ensures var (first, last) := ShowingRange(currentPage, limit, totalCount);
      1 <= first <= last <= totalCount && last - first + 1 <= limit
  {
    assert currentPage * limit == (currentPage - 1) * limit + limit;
    assert (currentPage - 1) * limit >= 0;
  }

  /** The list state of the component. */
  class ListView {
    var properties: seq<Property>
    var pagination: Option<PaginationInfo>
    var error: Option<string>
    var loading: bool

    constructor ()
      ensures properties == [] && pagination.None? && error.None? && loading
    {
      properties := [];
      pagination := None;
      error := None;
      loading := true;
    }

    /**
     * Whether the pagination controls are rendered: not while loading (the
     * skeleton returns early), and then only under a non-empty list whose
     * pagination has more than one page.
     */
    predicate ShowsControls()
      reads this
    {
      !loading && |properties| > 0 && pagination.Some? && pagination.value.totalPages > 1
    }

    /**
     * fetchProperties: sends the URL's parameters to the server action and
     * stores the answer; a failed answer or a thrown error empties the list.
     */
    method FetchProperties(url: Params, outcome: FetchOutcome) returns (sent: FetchParams)
      modifies this
      ensures sent == FetchParamsOf(url)
      ensures !loading
      ensures outcome.Responded? && outcome.response.success && outcome.response.properties.Some? ==>
        && properties == outcome.response.properties.value
        && pagination == outcome.response.pagination
        && error.None?
      ensures outcome.Responded? && !(outcome.response.success && outcome.response.properties.Some?) ==>
        properties == [] && pagination.None? && error == Some(outcome.response.message)
      ensures outcome.Threw? ==>
        properties == [] && pagination.None? && error == Some("Failed to load properties")
      ensures pagination.None? ==> !ShowsControls()
      ensures (outcome.Responded? && outcome.response.success && outcome.response.properties.Some?
               && |outcome.response.properties.value| > 0) ==>
        (ShowsControls() <==>
           outcome.response.pagination.Some? && outcome.response.pagination.value.totalPages > 1)
      ensures !(outcome.Responded? && outcome.response.success && outcome.response.properties.Some?) ==>
        !ShowsControls()
    {
      loading := true;
      error := None;
      sent := FetchParamsOf(url);
      match outcome {
        case Responded(response) =>
          if response.success && response.properties.Some? {
            properties := response.properties.value;
            pagination := response.pagination;
          } else {
            error := Some(response.message);
            properties := [];
            pagination := None;
          }
        case Threw =>
          error := Some("Failed to load properties");
          properties := [];
          pagination := None;
      }
      loading := false;
    }
  }
}
