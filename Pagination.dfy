/**
 * The page-number strip of the server pagination control
 * (src/components/Pagination.tsx): which page numbers and ellipsis markers
 * are shown, the URL each page links to, and how the first/previous/next/last
 * buttons are enabled and linked.
 */
module Pagination {
  import opened Common
  import opened SearchParams

  /** One entry of the strip: a numbered page link or an ellipsis marker. */
  datatype Item = Page(n: int) | Ellipsis

  /** A URL of the strip: a path and its query parameters. */
  datatype Url = Url(path: string, query: Params)

  /** Where a button points: the URL of a page, or the inert "#". */
  datatype Link = Href(url: Url) | Hash

  datatype Button = Button(href: Link, disabled: bool)

  /**
   * What the component renders when it renders anything. `links[k]` is the
   * href of `items[k]`: a page's URL, or nothing for an ellipsis.
   */
  datatype Controls = Controls(
    first: Option<Button>, previous: Button, items: seq<Item>, links: seq<Option<Url>>,
    next: Button, last: Option<Button>)

  /** Page links `lo`, `lo+1`, ..., `hi` (empty when lo > hi). */
  function Run(lo: int, hi: int): seq<Item>
    decreases hi - lo
  {
    if lo > hi then [] else [Page(lo)] + Run(lo + 1, hi)
  }

  lemma {:induction false} RunAt(lo: int, hi: int, k: int)
    requires 0 <= k
    ensures |Run(lo, hi)| == if lo > hi then 0 else hi - lo + 1
    ensures k < |Run(lo, hi)| ==> Run(lo, hi)[k] == Page(lo + k)
    decreases hi - lo
  {
    if lo <= hi {
      RunAt(lo + 1, hi, if k > 0 then k - 1 else 0);
    }
  }

  lemma {:induction false} RunSnoc(lo: int, hi: int)
    requires lo <= hi + 1
    ensures Run(lo, hi + 1) == Run(lo, hi) + [Page(hi + 1)]
    decreases hi - lo
  {
    if lo <= hi {
      RunSnoc(lo + 1, hi);
    }
  }

  function Max(a: int, b: int): int { if a >= b then a else b }
  function Min(a: int, b: int): int { if a <= b then a else b }

  /** True when the strip is short enough to list every page. */
  predicate ShowsAll(totalPages: int, siblingCount: nat)
  {
    totalPages <= (2 * siblingCount + 1) + 2
  }

  /**
   * The middle run [start, end] of a truncated strip: the siblings of the
   * current page clipped to [2, totalPages-1], then widened at the clipped
   * side to keep maxItems-1 pages.
   */
  function Window(currentPage: int, totalPages: int, siblingCount: nat): (w: (int, int))
  {
    var maxItems := 2 * siblingCount + 1;
    var start := Max(2, currentPage - siblingCount);
    var end := Min(totalPages - 1, currentPage + siblingCount);
    if end - start < maxItems - 2 then
      if start == 2 then (start, Min(totalPages - 1, start + maxItems - 2))
      else if end == totalPages - 1 then (Max(2, end - (maxItems - 2)), end)
      else (start, end)
    else (start, end)
  }

  /** A truncated strip around the window [start, end]. */
  function TruncatedStrip(totalPages: int, start: int, end: int): seq<Item>
  {
    [Page(1)]
    + (if start > 2 then [Ellipsis] else [])
    + Run(start, end)
    + (if end < totalPages - 1 then [Ellipsis] else [])
    + [Page(totalPages)]
  }

  /** The strip generatePaginationItems produces, as a value. */
  function Items(currentPage: int, totalPages: int, siblingCount: nat): seq<Item>
  {
    if ShowsAll(totalPages, siblingCount) then Run(1, totalPages)
    else
      var (start, end) := Window(currentPage, totalPages, siblingCount);
      TruncatedStrip(totalPages, start, end)
  }

  /** One `for (let i = lo; i <= hi; i++) items.push(page(i))` loop. */
  method PushRun(items: seq<Item>, lo: int, hi: int) returns (r: seq<Item>)
    ensures r == items + Run(lo, hi)
  {
    r := items;
    var i := lo;
    while i <= hi
      invariant lo <= i <= Max(lo, hi + 1)
      invariant r == items + Run(lo, i - 1)
      decreases hi - i
    {
      RunSnoc(lo, i - 1);
      r := r + [Page(i)];
      i := i + 1;
    }
  }

  /** generatePaginationItems: pushes the strip item by item. */
  method GenerateItems(currentPage: int, totalPages: int, siblingCount: nat) returns (items: seq<Item>)
    ensures items == Items(currentPage, totalPages, siblingCount)
  {
    var maxItems := siblingCount * 2 + 1;
    items := [];
    if totalPages <= maxItems + 2 {
      items := PushRun(items, 1, totalPages);
    } else {
      items := items + [Page(1)];
      var startPage := Max(2, currentPage - siblingCount);
      var endPage := Min(totalPages - 1, currentPage + siblingCount);
      if endPage - startPage < maxItems - 2 {
        if startPage == 2 {
          endPage := Min(totalPages - 1, startPage + maxItems - 2);
        } else if endPage == totalPages - 1 {
          startPage := Max(2, endPage - (maxItems - 2));
        }
      }
      assert (startPage, endPage) == Window(currentPage, totalPages, siblingCount);
      var before: seq<Item> := if startPage > 2 then [Ellipsis] else [];
      var after: seq<Item> := if endPage < totalPages - 1 then [Ellipsis] else [];
      items := items + before;
      items := PushRun(items, startPage, endPage);
      items := items + after;
      items := items + [Page(totalPages)];
      assert items == TruncatedStrip(totalPages, startPage, endPage);
    }
  }

  // ---------------------------------------------------------------------
  // Properties of the strip
  // ---------------------------------------------------------------------

  /** With few pages the strip is exactly 1, 2, ..., totalPages. */
  lemma AllPagesWhenShort(currentPage: int, totalPages: int, siblingCount: nat)
    requires ShowsAll(totalPages, siblingCount)
    ensures |Items(currentPage, totalPages, siblingCount)| == Max(0, totalPages)
    ensures forall k :: 0 <= k < |Items(currentPage, totalPages, siblingCount)| ==>
              Items(currentPage, totalPages, siblingCount)[k] == Page(k + 1)
  {
    var items := Items(currentPage, totalPages, siblingCount);
    RunAt(1, totalPages, 0);
    forall k | 0 <= k < |items| ensures items[k] == Page(k + 1) {
      RunAt(1, totalPages, k);
    }
  }

  /** The window always lies strictly between the first and last page, and stays no wider than 2*siblingCount+1. */
  lemma WindowBounds(currentPage: int, totalPages: int, siblingCount: nat)
    requires !ShowsAll(totalPages, siblingCount)
    ensures var (start, end) := Window(currentPage, totalPages, siblingCount);
      && 2 <= start && end <= totalPages - 1
      && start - 1 <= end
      && end - start <= 2 * siblingCount
  {
  }

  /** The adjustment only widens the window of siblings around the current page. */
  lemma WindowWidens(currentPage: int, totalPages: int, siblingCount: nat)
    requires !ShowsAll(totalPages, siblingCount)
    ensures var (start, end) := Window(currentPage, totalPages, siblingCount);
      && start <= Max(2, currentPage - siblingCount)
      && end >= Min(totalPages - 1, currentPage + siblingCount)
  {
  }

  /** The layout of a truncated strip, position by position. */
  lemma TruncatedLayout(currentPage: int, totalPages: int, siblingCount: nat)
    requires !ShowsAll(totalPages, siblingCount)
    ensures var (start, end) := Window(currentPage, totalPages, siblingCount);
      var items := Items(currentPage, totalPages, siblingCount);
      var lead := if start > 2 then 1 else 0;
      var mid := end - start + 1;
      && |items| == 1 + lead + mid + (if end < totalPages - 1 then 1 else 0) + 1
      && items[0] == Page(1)
      && (start > 2 ==> items[1] == Ellipsis)
      && (forall j :: 1 + lead <= j < 1 + lead + mid ==> items[j] == Page(start + j - 1 - lead))
      && (end < totalPages - 1 ==> items[|items| - 2] == Ellipsis)
      && items[|items| - 1] == Page(totalPages)
  {
    TruncatedEnds(currentPage, totalPages, siblingCount);
    TruncatedMiddle(currentPage, totalPages, siblingCount);
  }

  /** The parts of a truncated strip, unfolded once for TruncatedEnds and TruncatedMiddle. */
  lemma TruncatedParts(currentPage: int, totalPages: int, siblingCount: nat)
    requires !ShowsAll(totalPages, siblingCount)
    ensures var (start, end) := Window(currentPage, totalPages, siblingCount);
      && Items(currentPage, totalPages, siblingCount) ==
           ([Page(1)] + (if start > 2 then [Ellipsis] else [])) + Run(start, end)
           + ((if end < totalPages - 1 then [Ellipsis] else []) + [Page(totalPages)])
      && |Run(start, end)| == end - start + 1
  {
    var (start, end) := Window(currentPage, totalPages, siblingCount);
    WindowBounds(currentPage, totalPages, siblingCount);
    RunAt(start, end, 0);
  }

  /** A truncated strip's length and its first two and last two items. */
  lemma TruncatedEnds(currentPage: int, totalPages: int, siblingCount: nat)
    requires !ShowsAll(totalPages, siblingCount)
    ensures var (start, end) := Window(currentPage, totalPages, siblingCount);
      var items := Items(currentPage, totalPages, siblingCount);
      && |items| == 1 + (if start > 2 then 1 else 0) + (end - start + 1) + (if end < totalPages - 1 then 1 else 0) + 1
      && items[0] == Page(1)
      && (start > 2 ==> items[1] == Ellipsis)
      && (end < totalPages - 1 ==> items[|items| - 2] == Ellipsis)
      && items[|items| - 1] == Page(totalPages)
  {
    var (start, end) := Window(currentPage, totalPages, siblingCount);
    TruncatedParts(currentPage, totalPages, siblingCount);
    var head := [Page(1)] + (if start > 2 then [Ellipsis] else []);
    var run := Run(start, end);
    var tail := (if end < totalPages - 1 then [Ellipsis] else []) + [Page(totalPages)];
    var items := Items(currentPage, totalPages, siblingCount);
    assert items[0] == head[0];
    assert start > 2 ==> items[1] == head[1];
    assert items[|items| - 1] == tail[|tail| - 1];
    assert end < totalPages - 1 ==> items[|items| - 2] == tail[0];
  }

  /** The window's pages, in order, after page 1 and the leading ellipsis. */
  lemma TruncatedMiddle(currentPage: int, totalPages: int, siblingCount: nat)
    requires !ShowsAll(totalPages, siblingCount)
    ensures var (start, end) := Window(currentPage, totalPages, siblingCount);
      var items := Items(currentPage, totalPages, siblingCount);
      var lead := if start > 2 then 1 else 0;
      forall j :: 1 + lead <= j < 1 + lead + (end - start + 1) ==> 0 <= j < |items| && items[j] == Page(start + j - 1 - lead)
  {
    var (start, end) := Window(currentPage, totalPages, siblingCount);
    TruncatedParts(currentPage, totalPages, siblingCount);
    var lead := if start > 2 then 1 else 0;
    var head := [Page(1)] + (if start > 2 then [Ellipsis] else []);
    var run := Run(start, end);
    var tail := (if end < totalPages - 1 then [Ellipsis] else []) + [Page(totalPages)];
    var items := Items(currentPage, totalPages, siblingCount);
    forall j | 1 + lead <= j < 1 + lead + (end - start + 1) ensures 0 <= j < |items| && items[j] == Page(start + j - 1 - lead) {
      MiddleAt(head, run, tail, j);
      RunAt(start, end, j - 1 - lead);
    }
  }

  /** An index into the middle part of a concatenation. */
  lemma MiddleAt<T>(a: seq<T>, b: seq<T>, c: seq<T>, j: int)
    requires |a| <= j < |a| + |b|
    ensures (a + b + c)[j] == b[j - |a|]
  {
  }

  /** Every page of the strip lies in [1, totalPages] and pages strictly increase left to right. */
  predicate IncreasingPagesWithin(items: seq<Item>, totalPages: int)
  {
    && (forall k :: 0 <= k < |items| && items[k].Page? ==> 1 <= items[k].n <= totalPages)
    && (forall j, k :: 0 <= j < k < |items| && items[j].Page? && items[k].Page? ==> items[j].n < items[k].n)
  }

  /** Each ellipsis sits between two page links and hides at least one page. */
  predicate EllipsesHidePages(items: seq<Item>)
  {
    forall k :: 0 <= k < |items| && items[k].Ellipsis? ==>
      && 0 < k < |items| - 1
      && items[k - 1].Page? && items[k + 1].Page?
      && items[k + 1].n - items[k - 1].n >= 2
  }

  /** The strip of a truncated control: first page 1, last page totalPages, increasing in between. */
  lemma TruncatedShape(currentPage: int, totalPages: int, siblingCount: nat)
    requires !ShowsAll(totalPages, siblingCount)
    ensures var items := Items(currentPage, totalPages, siblingCount);
      && items[0] == Page(1) && items[|items| - 1] == Page(totalPages)
      && IncreasingPagesWithin(items, totalPages)
      && EllipsesHidePages(items)
  {
    TruncatedEnds(currentPage, totalPages, siblingCount);
    TruncatedIncreasing(currentPage, totalPages, siblingCount);
    TruncatedEllipses(currentPage, totalPages, siblingCount);
  }

  lemma TruncatedIncreasing(currentPage: int, totalPages: int, siblingCount: nat)
    requires !ShowsAll(totalPages, siblingCount)
    ensures IncreasingPagesWithin(Items(currentPage, totalPages, siblingCount), totalPages)
  {
    var (start, end) := Window(currentPage, totalPages, siblingCount);
    WindowBounds(currentPage, totalPages, siblingCount);
    TruncatedEnds(currentPage, totalPages, siblingCount);
    var items := Items(currentPage, totalPages, siblingCount);
    forall k | 0 <= k < |items| && items[k].Page?
      ensures items[k].n == PageAt(totalPages, start, |items|, k)
    {
      TruncatedPageAt(currentPage, totalPages, siblingCount, k);
    }
  }

  /** The page number a truncated strip of `size` items shows at position `k`. */
  function PageAt(totalPages: int, start: int, size: int, k: int): int
  {
    if k == 0 then 1 else if k == size - 1 then totalPages else start + k - 1 - (if start > 2 then 1 else 0)
  }

  lemma TruncatedPageAt(currentPage: int, totalPages: int, siblingCount: nat, k: int)
    requires !ShowsAll(totalPages, siblingCount)
    requires 0 <= k < |Items(currentPage, totalPages, siblingCount)|
    requires Items(currentPage, totalPages, siblingCount)[k].Page?
    ensures var items := Items(currentPage, totalPages, siblingCount);
      items[k].n == PageAt(totalPages, Window(currentPage, totalPages, siblingCount).0, |items|, k)
  {
    var (start, end) := Window(currentPage, totalPages, siblingCount);
    TruncatedLayout(currentPage, totalPages, siblingCount);
    var items := Items(currentPage, totalPages, siblingCount);
    var lead := if start > 2 then 1 else 0;
    var mid := end - start + 1;
    if 0 < k < |items| - 1 {
      assert 1 + lead <= k < 1 + lead + mid;
      assert items[k] == Page(start + k - 1 - lead);
    }
  }

  lemma TruncatedEllipses(currentPage: int, totalPages: int, siblingCount: nat)
    requires !ShowsAll(totalPages, siblingCount)
    ensures EllipsesHidePages(Items(currentPage, totalPages, siblingCount))
  {
    var (start, end) := Window(currentPage, totalPages, siblingCount);
    WindowBounds(currentPage, totalPages, siblingCount);
    TruncatedLayout(currentPage, totalPages, siblingCount);
    var items := Items(currentPage, totalPages, siblingCount);
    var lead := if start > 2 then 1 else 0;
    var mid := end - start + 1;
    forall k | 0 <= k < |items| && items[k].Ellipsis?
      ensures 0 < k < |items| - 1 && items[k - 1].Page? && items[k + 1].Page?
      ensures items[k + 1].n - items[k - 1].n >= 2
    {
      if k == 1 && start > 2 {
        if mid > 0 {
          assert items[1 + lead] == Page(start);
        }
      } else {
        assert end < totalPages - 1 && k == |items| - 2;
        if mid > 0 {
          assert items[lead + mid] == Page(start + mid - 1);
        }
      }
    }
  }

  /** A page in range is always shown (its link carries aria-current="page"). */
  lemma CurrentPageShown(currentPage: int, totalPages: int, siblingCount: nat)
    requires 1 <= currentPage <= totalPages
    ensures Page(currentPage) in Items(currentPage, totalPages, siblingCount)
  {
    var items := Items(currentPage, totalPages, siblingCount);
    if ShowsAll(totalPages, siblingCount) {
      AllPagesWhenShort(currentPage, totalPages, siblingCount);
      assert items[currentPage - 1] == Page(currentPage);
    } else {
      TruncatedLayout(currentPage, totalPages, siblingCount);
      WindowWidens(currentPage, totalPages, siblingCount);
      var (start, end) := Window(currentPage, totalPages, siblingCount);
      var lead := if start > 2 then 1 else 0;
      if 1 < currentPage < totalPages {
        assert items[1 + lead + currentPage - start] == Page(currentPage);
      }
    }
  }

  /** The page numbers of a strip, in order. */
  function PageNumbers(items: seq<Item>): (r: seq<int>)
    ensures |r| <= |items|
  {
    if items == [] then []
    else (if items[0].Page? then [items[0].n] else []) + PageNumbers(items[1..])
  }

  lemma {:induction false} PageNumbersAppend(a: seq<Item>, b: seq<Item>)
    ensures PageNumbers(a + b) == PageNumbers(a) + PageNumbers(b)
  {
    if a != [] {
      assert (a + b)[0] == a[0];
      assert (a + b)[1..] == a[1..] + b;
      PageNumbersAppend(a[1..], b);
    } else {
      assert a + b == b;
    }
  }

  lemma {:induction false} PageNumbersOfRun(lo: int, hi: int)
    ensures |PageNumbers(Run(lo, hi))| == if lo > hi then 0 else hi - lo + 1
    decreases hi - lo
  {
    if lo <= hi {
      assert Run(lo, hi) == [Page(lo)] + Run(lo + 1, hi);
      PageNumbersAppend([Page(lo)], Run(lo + 1, hi));
      PageNumbersOfRun(lo + 1, hi);
    }
  }

  /** A truncated strip shows at most 2*siblingCount+3 page numbers. */
  lemma TruncatedPageCount(currentPage: int, totalPages: int, siblingCount: nat)
    requires !ShowsAll(totalPages, siblingCount)
    ensures |PageNumbers(Items(currentPage, totalPages, siblingCount))| <= 2 * siblingCount + 3
  {
    var (start, end) := Window(currentPage, totalPages, siblingCount);
    WindowBounds(currentPage, totalPages, siblingCount);
    var lead: seq<Item> := if start > 2 then [Ellipsis] else [];
    var trail: seq<Item> := if end < totalPages - 1 then [Ellipsis] else [];
    var items := Items(currentPage, totalPages, siblingCount);
    assert items == [Page(1)] + lead + Run(start, end) + trail + [Page(totalPages)];
    PageNumbersAppend([Page(1)], lead);
    PageNumbersAppend([Page(1)] + lead, Run(start, end));
    PageNumbersAppend([Page(1)] + lead + Run(start, end), trail);
    PageNumbersAppend([Page(1)] + lead + Run(start, end) + trail, [Page(totalPages)]);
    assert PageNumbers(lead) == [] && PageNumbers(trail) == [];
    PageNumbersOfRun(start, end);
  }

  // ---------------------------------------------------------------------
  // The whole control
  // ---------------------------------------------------------------------

  /**
   * getPageUrl: `basePath`, or the window's path when it is empty, with a
   * fresh query on which only `page` has been set. `windowPath` stands for
   * `window.location.pathname`.
   */
  function PageUrl(basePath: string, windowPath: string, page: int): (u: Url)
    ensures u.path == if basePath != "" then basePath else windowPath
    ensures Get(u.query, "page") == Some(IntToString(page))
    ensures forall name :: name != "page" ==> ValuesOf(u.query, name) == []
  {
    Url(if basePath != "" then basePath else windowPath, Set([], "page", IntToString(page)))
  }

  /** The `page` value of a page URL reads back as that page: the query carries the page number intact. */
  lemma PageUrlReadsBack(basePath: string, windowPath: string, page: int)
    requires page >= 0
    ensures var v := Get(PageUrl(basePath, windowPath, page).query, "page");
      && v.Some?
      && (forall i :: 0 <= i < |v.value| ==> '0' <= v.value[i] <= '9')
      && DigitsValue(v.value) == page
  {
    NatToStringRoundTrip(page);
  }

  /** Two different pages never share a URL. */
  lemma PageUrlsDistinct(basePath: string, windowPath: string, m: int, n: int)
    requires m >= 0 && n >= 0 && m != n
    ensures PageUrl(basePath, windowPath, m) != PageUrl(basePath, windowPath, n)
  {
    if PageUrl(basePath, windowPath, m) == PageUrl(basePath, windowPath, n) {
      PageUrlReadsBack(basePath, windowPath, m);
      PageUrlReadsBack(basePath, windowPath, n);
    }
  }

  /** renderPageItem's href for each entry of the strip; an ellipsis has none. */
  function ItemLinks(items: seq<Item>, basePath: string, windowPath: string): (links: seq<Option<Url>>)
    ensures |links| == |items|
    ensures forall k :: 0 <= k < |items| ==>
      links[k] == if items[k].Page? then Some(PageUrl(basePath, windowPath, items[k].n)) else None
  {
    seq(|items|, k requires 0 <= k < |items| =>
      if items[k].Page? then Some(PageUrl(basePath, windowPath, items[k].n)) else None)
  }

  /** Every page the strip shows is at least 1. */
  lemma StripPagesPositive(currentPage: int, totalPages: int, siblingCount: nat)
    ensures var items := Items(currentPage, totalPages, siblingCount);
      forall k :: 0 <= k < |items| && items[k].Page? ==> items[k].n >= 1
  {
    if ShowsAll(totalPages, siblingCount) {
      AllPagesWhenShort(currentPage, totalPages, siblingCount);
    } else {
      TruncatedIncreasing(currentPage, totalPages, siblingCount);
    }
  }

  /**
   * Each link of the strip leads to the page it is labelled with: its query
   * holds only `page`, and that value reads back as the label.
   */
  lemma StripLinksLeadToTheirPage(currentPage: int, totalPages: int, siblingCount: nat,
                                  basePath: string, windowPath: string, k: int)
    requires 0 <= k < |Items(currentPage, totalPages, siblingCount)|
    requires Items(currentPage, totalPages, siblingCount)[k].Page?
    ensures var items := Items(currentPage, totalPages, siblingCount);
      var link := ItemLinks(items, basePath, windowPath)[k];
      && link.Some?
      && (forall name :: name != "page" ==> ValuesOf(link.value.query, name) == [])
      && var v := Get(link.value.query, "page");
         v.Some? && (forall i :: 0 <= i < |v.value| ==> '0' <= v.value[i] <= '9') && DigitsValue(v.value) == items[k].n
  {
    StripPagesPositive(currentPage, totalPages, siblingCount);
    PageUrlReadsBack(basePath, windowPath, Items(currentPage, totalPages, siblingCount)[k].n);
  }

  /**
   * PaginationControlsServer: nothing for a single page; otherwise the
   * optional first/last buttons, previous/next, and the strip with its links.
   */
  method Render(currentPage: int, totalPages: int, siblingCount: nat, showFirstLast: bool,
                basePath: string, windowPath: string)
    returns (r: Option<Controls>)
    ensures r.None? <==> totalPages <= 1
    ensures r.Some? ==>
      && r.value.items == Items(currentPage, totalPages, siblingCount)
      && r.value.links == ItemLinks(r.value.items, basePath, windowPath)
      && (r.value.first.Some? <==> showFirstLast) && (r.value.last.Some? <==> showFirstLast)
      && (r.value.first.Some? ==>
            r.value.first.value == Button(Href(PageUrl(basePath, windowPath, 1)), currentPage == 1))
      && (r.value.last.Some? ==>
            r.value.last.value == Button(Href(PageUrl(basePath, windowPath, totalPages)), currentPage == totalPages))
      && r.value.previous.disabled == (currentPage == 1)
      && r.value.next.disabled == (currentPage == totalPages)
      && r.value.previous.href ==
           (if currentPage > 1 then Href(PageUrl(basePath, windowPath, currentPage - 1)) else Hash)
      && r.value.next.href ==
           (if currentPage < totalPages then Href(PageUrl(basePath, windowPath, currentPage + 1)) else Hash)
  {
    if totalPages <= 1 {
      return None;
    }
    var first: Option<Button> := None;
    var last: Option<Button> := None;
    if showFirstLast {
      first := Some(Button(Href(PageUrl(basePath, windowPath, 1)), currentPage == 1));
      last := Some(Button(Href(PageUrl(basePath, windowPath, totalPages)), currentPage == totalPages));
    }
    var previous := Button(if currentPage > 1 then Href(PageUrl(basePath, windowPath, currentPage - 1)) else Hash,
                           currentPage == 1);
    var items := GenerateItems(currentPage, totalPages, siblingCount);
    var next := Button(if currentPage < totalPages then Href(PageUrl(basePath, windowPath, currentPage + 1)) else Hash,
                       currentPage == totalPages);
    r := Some(Controls(first, previous, items, ItemLinks(items, basePath, windowPath), next, last));
  }
}
