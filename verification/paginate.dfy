/**
 * The pagination middleware of middleware/paginate.go: page/page-size
 * parameters read from the query string, the offset and limit they give,
 * the page of a list they select, and the numbered page links (a window of
 * at most five pages around the current one, with previous and next).
 */
module Pagination {
  import opened GoErrors
  import opened GoStrconv

  /** `PaginationParams`. */
  datatype PaginationParams = PaginationParams(page: int, pageSize: int, totalRecords: int)
  {
    /**
     * `Offset`: where page `page` starts, with page size 10 when unset;
     * never negative. The page size here is not capped, unlike `Limit`.
     */
    function Offset(): (o: int)
      ensures o >= 0
      ensures page >= 1 ==> o == (page - 1) * (if pageSize <= 0 then 10 else pageSize)
      ensures page <= 1 ==> o == 0
    {
      var perPage := if pageSize <= 0 then 10 else pageSize;
      var offset := (page - 1) * perPage;
      if offset < 0 then 0 else offset
    }

    /** `Limit`: the page size, 10 when unset, at most 100. */
    function Limit(): (l: int)
      ensures 1 <= l <= 100
      ensures pageSize <= 0 ==> l == 10
      ensures pageSize > 100 ==> l == 100
      ensures 0 < pageSize <= 100 ==> l == pageSize
    {
      if pageSize <= 0 then 10 else if pageSize > 100 then 100 else pageSize
    }
  }

  function Min(a: int, b: int): int { if a <= b then a else b }
  function Max(a: int, b: int): int { if a >= b then a else b }

  /**
   * `Paginate`: the elements from `Offset` on, at most `Limit` of them; none
   * when the offset is past the end.
   */
  function Paginate<T>(s: seq<T>, q: PaginationParams): (r: seq<T>)
    ensures |r| <= q.Limit()
    ensures q.Offset() >= |s| ==> r == []
    ensures q.Offset() < |s| ==> r == s[q.Offset()..Min(q.Offset() + q.Limit(), |s|)]
  {
    var start := q.Offset();
    var end := q.Offset() + q.Limit();
    if start >= |s| then s[..0]
    else if end > |s| then s[start..]
    else s[start..end]
  }

  /**
   * With a page size from 1 to 100, page `p` and page `p + 1` are adjacent:
   * together they are the run of the list starting at page `p`'s offset.
   */
  lemma PagesAdjacent<T>(s: seq<T>, page: int, pageSize: int)
    requires page >= 1 && 1 <= pageSize <= 100
    ensures var q, q' := PaginationParams(page, pageSize, 0), PaginationParams(page + 1, pageSize, 0);
      Paginate(s, q) + Paginate(s, q') == s[Min(q.Offset(), |s|)..Min(q.Offset() + 2 * pageSize, |s|)]
  {
    var q, q' := PaginationParams(page, pageSize, 0), PaginationParams(page + 1, pageSize, 0);
    var o := (page - 1) * pageSize;
    assert page * pageSize == o + pageSize;
    assert q.Offset() == o && q'.Offset() == o + pageSize;
    assert q.Limit() == pageSize && q'.Limit() == pageSize;
    var a, b, c := Min(o, |s|), Min(o + pageSize, |s|), Min(o + 2 * pageSize, |s|);
    assert Paginate(s, q) == s[a..b];
    assert Paginate(s, q') == s[b..c];
    assert s[a..b] + s[b..c] == s[a..c];
  }

  /**
   * With a page size above 100, each page shows 100 elements but the next
   * page starts `pageSize` further on: the `pageSize - 100` elements in
   * between are on no page.
   */
  lemma PagesSkipAboveHundred<T>(s: seq<T>, page: int, pageSize: int)
    requires page >= 1 && pageSize > 100
    requires |s| >= page * pageSize
    ensures var q, q' := PaginationParams(page, pageSize, 0), PaginationParams(page + 1, pageSize, 0);
      && |Paginate(s, q)| == 100
      && q'.Offset() - (q.Offset() + |Paginate(s, q)|) == pageSize - 100
  {
    var q, q' := PaginationParams(page, pageSize, 0), PaginationParams(page + 1, pageSize, 0);
    var o := (page - 1) * pageSize;
    assert page * pageSize == o + pageSize;
    assert q.Offset() == o && q'.Offset() == o + pageSize;
  }

  // ---- PaginateParams / GetPaginationParams --------------------------------

  /** `r.URL.Query().Get(name)`: the first value of the parameter, or "". */
  function QueryGet(query: map<string, string>, name: string): string
  {
    if name in query then query[name] else ""
  }

  /** A query value that overrides a default: it parses as an integer and is positive. */
  function PositiveOr(value: string, default: int): (v: int)
    ensures Atoi(value).Some? && Atoi(value).value > 0 ==> v == Atoi(value).value
    ensures !(Atoi(value).Some? && Atoi(value).value > 0) ==> v == default
  {
    if value != "" then
      var p := Atoi(value);
      if p.Some? && p.value > 0 then p.value else default
    else default
  }

  /**
   * `PaginateParams`: page 1 and page size 10, each replaced by its query
   * parameter when that parses as a positive integer.
   */
  function ParseParams(query: map<string, string>): (p: PaginationParams)
    ensures p.page >= 1 && p.pageSize >= 1 && p.totalRecords == 0
    ensures p.page == PositiveOr(QueryGet(query, "page"), 1)
    ensures p.pageSize == PositiveOr(QueryGet(query, "page_size"), 10)
  {
    PaginationParams(PositiveOr(QueryGet(query, "page"), 1), PositiveOr(QueryGet(query, "page_size"), 10), 0)
  }

  /** With no query parameters the defaults apply. */
  lemma ParseParamsDefaults()
    ensures ParseParams(map[]) == PaginationParams(1, 10, 0)
  {
  }

  /** `GetPaginationParams`: the parameters stored for the request, or page 1 of size 10. */
  function GetPaginationParams(stored: Option<PaginationParams>): (p: PaginationParams)
    ensures stored.Some? ==> p == stored.value
    ensures stored.None? ==> p.page == 1 && p.pageSize == 10 && p.Offset() == 0 && p.Limit() == 10
  {
    if stored.Some? then stored.value else PaginationParams(1, 10, 0)
  }

  // ---- GeneratePaginationLinks ---------------------------------------------

  /** `domain.Link` (Go field `Label` is `caption` here). */
  datatype Link = Link(href: string, caption: string, current: bool)

  /** `domain.PaginationLinks`: nil pointers are `None`. */
  datatype PaginationLinks = PaginationLinks(previous: Option<Link>, pages: seq<Link>, next: Option<Link>)

  /** `fmt.Sprintf("?page=%d&page_size=%d", page, pageSize)`. */
  function PageHref(page: int, pageSize: int): string
  {
    "?page=" + Itoa(page) + "&page_size=" + Itoa(pageSize)
  }

  /** Go's integer division for a positive divisor: the quotient is truncated toward zero. */
  function GoDiv(a: int, b: int): (q: int)
    requires b > 0
    ensures a >= 0 ==> q == a / b
  {
    if a >= 0 then a / b else -((-a) / b)
  }

  /** `(total + pageSize - 1) / pageSize`: pages needed for `total` records. */
  function TotalPages(total: int, pageSize: int): int
    requires pageSize > 0
  {
    GoDiv(total + pageSize - 1, pageSize)
  }

  /** The page count is the ceiling of total / pageSize: no page too many, none too few. */
  lemma TotalPagesBounds(total: int, pageSize: int)
    requires pageSize > 0 && total >= 0
    ensures total == 0 ==> TotalPages(total, pageSize) == 0
    ensures total > 0 ==> var t := TotalPages(total, pageSize);
      (t - 1) * pageSize < total <= t * pageSize
  {
    var n := total + pageSize - 1;
    var t := n / pageSize;
    assert n == t * pageSize + n % pageSize;
    if total > 0 {
      assert (t - 1) * pageSize == t * pageSize - pageSize;
    }
  }

  /**
   * The first and last numbered page shown: two on either side of the
   * current page, clamped to [1, totalPages], widened to five at whichever
   * end was clamped.
   */
  function Window(page: int, totalPages: int): (w: (int, int))
  {
    var startPage := Max(1, page - 2);
    var endPage := Min(totalPages, page + 2);
    if endPage - startPage + 1 < 5 then
      if startPage == 1 then (startPage, Min(totalPages, startPage + 4))
      else if endPage == totalPages then (Max(1, endPage - 4), endPage)
      else (startPage, endPage)
    else (startPage, endPage)
  }

  /** Window bounds: every shown page is in [1, totalPages], and at most five are shown. */
  lemma WindowBounds(page: int, totalPages: int)
    ensures var (s, e) := Window(page, totalPages);
      && 1 <= s
      && e <= totalPages
      && e - s + 1 <= 5
  {
  }

  /**
   * For a page that exists, the window contains it and shows
   * min(5, totalPages) pages.
   */
  lemma WindowCovers(page: int, totalPages: int)
    requires 1 <= page <= totalPages
    ensures var (s, e) := Window(page, totalPages);
      && s <= page <= e
      && e - s + 1 == Min(5, totalPages)
  {
  }

  /** The link to page `i`. */
  function PageLink(i: int, params: PaginationParams): Link
  {
    Link(PageHref(i, params.pageSize), Itoa(i), i == params.page)
  }

  /** The numbered links: one per page of the window, in increasing order. */
  function PageLinks(params: PaginationParams, total: int): (links: seq<Link>)
    requires params.pageSize > 0
  {
    var w := Window(params.page, TotalPages(total, params.pageSize));
    seq(if w.0 <= w.1 then w.1 - w.0 + 1 else 0, k => PageLink(w.0 + k, params))
  }

  /** The previous link, present exactly from page 2 on. */
  function PreviousLink(params: PaginationParams): (l: Option<Link>)
    ensures l.Some? <==> params.page > 1
    ensures l.Some? ==> l.value.href == PageHref(params.page - 1, params.pageSize) && !l.value.current
  {
    if params.page > 1 then Some(Link(PageHref(params.page - 1, params.pageSize), "previous", false)) else None
  }

  /** The next link, present exactly before the last page. */
  function NextLink(params: PaginationParams, total: int): (l: Option<Link>)
    requires params.pageSize > 0
    ensures l.Some? <==> params.page < TotalPages(total, params.pageSize)
    ensures l.Some? ==> l.value.href == PageHref(params.page + 1, params.pageSize) && !l.value.current
  {
    if params.page < TotalPages(total, params.pageSize)
    then Some(Link(PageHref(params.page + 1, params.pageSize), "next", false))
    else None
  }

  /** `GeneratePaginationLinks`. The page size must be positive (zero divides by zero). */
  method GeneratePaginationLinks(params: PaginationParams, total: int) returns (r: PaginationLinks)
    requires params.pageSize > 0
    ensures r.pages == PageLinks(params, total)
    ensures r.previous == PreviousLink(params)
    ensures r.next == NextLink(params, total)
  {
    var links: seq<Link> := [];
    var totalPages := TotalPages(total, params.pageSize);

    var startPage := Max(1, params.page - 2);
    var endPage := Min(totalPages, params.page + 2);
    if endPage - startPage + 1 < 5 {
      if startPage == 1 {
        endPage := Min(totalPages, startPage + 4);
      } else if endPage == totalPages {
        startPage := Max(1, endPage - 4);
      }
    }
    assert (startPage, endPage) == Window(params.page, totalPages);

    var previousLink: Option<Link> := None;
    if params.page > 1 {
      previousLink := Some(Link(PageHref(params.page - 1, params.pageSize), "previous", false));
    }

    var i := startPage;
    while i <= endPage
      invariant startPage <= i <= Max(startPage, endPage + 1)
      invariant |links| == i - startPage
      invariant forall k :: 0 <= k < |links| ==> links[k] == PageLink(startPage + k, params)
      decreases endPage - i
    {
      assert Link(PageHref(i, params.pageSize), Itoa(i), i == params.page) == PageLink(i, params);
      links := links + [Link(PageHref(i, params.pageSize), Itoa(i), i == params.page)];
      i := i + 1;
    }

    var nextLink: Option<Link> := None;
    if params.page < totalPages {
      nextLink := Some(Link(PageHref(params.page + 1, params.pageSize), "next", false));
    }
    assert links == PageLinks(params, total);
    r := PaginationLinks(previousLink, links, nextLink);
  }

  /**
   * What the links promise: consecutive page numbers within
   * [1, totalPages], at most five, each pointing at its own page with the
   * same page size, and only the current page marked.
   */
  lemma PageLinksShape(params: PaginationParams, total: int)
    requires params.pageSize > 0
    ensures var links := PageLinks(params, total);
      var t := TotalPages(total, params.pageSize);
      var first := Window(params.page, t).0;
      && |links| <= 5
      && (forall k :: 0 <= k < |links| ==>
            && 1 <= first + k <= t
            && links[k].href == PageHref(first + k, params.pageSize)
            && links[k].caption == Itoa(first + k)
            && (links[k].current <==> first + k == params.page))
  {
    var t := TotalPages(total, params.pageSize);
    var w := Window(params.page, t);
    WindowBounds(params.page, t);
    var links := PageLinks(params, total);
    forall k | 0 <= k < |links|
      ensures 1 <= w.0 + k <= t
      ensures links[k] == PageLink(w.0 + k, params)
    {
    }
  }

  /** For a page that exists, exactly one link is current, and min(5, totalPages) are shown. */
  lemma PageLinksCurrent(params: PaginationParams, total: int)
    requires params.pageSize > 0
    requires 1 <= params.page <= TotalPages(total, params.pageSize)
    ensures var links := PageLinks(params, total);
      && |links| == Min(5, TotalPages(total, params.pageSize))
      && (exists k :: 0 <= k < |links| && links[k].current)
      && (forall k, k' :: 0 <= k < |links| && 0 <= k' < |links| && links[k].current && links[k'].current ==> k == k')
  {
    var t := TotalPages(total, params.pageSize);
    WindowCovers(params.page, t);
    var links := PageLinks(params, total);
    var w := Window(params.page, t);
    assert |links| == w.1 - w.0 + 1;
    assert links[params.page - w.0] == PageLink(params.page, params);
    forall k | 0 <= k < |links| ensures links[k].current <==> k == params.page - w.0 {
      assert links[k] == PageLink(w.0 + k, params);
    }
  }

  /**
   * A link's query string, read back by `PaginateParams`, selects the page
   * and page size it was generated for.
   */
  lemma HrefRoundTrip(page: int, pageSize: int)
    requires 1 <= page <= MaxInt64 && 1 <= pageSize <= MaxInt64
    ensures ParseParams(map["page" := Itoa(page), "page_size" := Itoa(pageSize)]) == PaginationParams(page, pageSize, 0)
  {
    ItoaAtoi(page);
    ItoaAtoi(pageSize);
  }
}
