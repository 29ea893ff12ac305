/**
 * The link list handlers of handlers/links.go: the handlers' `Paginate`,
 * the sort orders of the link table, and the order of the two steps
 * (paginate first, then sort the page).
 */
module Links {
  import opened HandlerPagination
  import Pagination
  import Sorting

  // ---- Paginate ------------------------------------------------------------

  /**
   * `Paginate`: nothing when the offset is past the end; the rest of the
   * list when the page runs past the end; otherwise exactly `Limit`
   * elements from the offset.
   */
  function Paginate<T>(s: seq<T>, q: PaginationQuery): (r: seq<T>)
    ensures q.Offset() >= |s| ==> r == []
    ensures q.Offset() < |s| < q.Offset() + q.Limit() ==> r == s[q.Offset()..]
    ensures q.Offset() + q.Limit() <= |s| ==> r == s[q.Offset()..q.Offset() + q.Limit()] && |r| == q.Limit()
  {
    var start := q.Offset();
    var end := q.Offset() + q.Limit();
    if start >= |s| then s[..0]
    else if end > |s| then s[start..]
    else s[start..end]
  }

  /** A page is a contiguous run of the list, of at most 50 elements. */
  lemma PaginateIsRun<T>(s: seq<T>, q: PaginationQuery)
    ensures |Paginate(s, q)| <= 50
    ensures q.Offset() < |s| ==> exists e :: q.Offset() <= e <= |s| && Paginate(s, q) == s[q.Offset()..e]
  {
    if q.Offset() < |s| {
      if q.Offset() + q.Limit() <= |s| {
        assert Paginate(s, q) == s[q.Offset()..q.Offset() + q.Limit()];
      } else {
        assert Paginate(s, q) == s[q.Offset()..|s|];
      }
    }
  }

  // ---- sort orders ---------------------------------------------------------

  /** The fields of `domain.URLStat` the link table sorts on. */
  datatype UrlStat = UrlStat(id: int, slug: string, createdAt: int, nrVisited: int)

  /** `time.Time.Compare`: -1, 0 or +1. */
  function Compare(a: int, b: int): (c: int)
    ensures c < 0 <==> a < b
    ensures c == 0 <==> a == b
    ensures c > 0 <==> a > b
  {
    if a < b then -1 else if a > b then 1 else 0
  }

  /** `compareInt(i, j) = j - i`. */
  function CompareInt(i: int, j: int): int { j - i }

  /** The comparators: a negative result puts `i` before `j`. */
  function SortByNewest(i: UrlStat, j: UrlStat): int { Compare(j.createdAt, i.createdAt) }
  function SortByOldest(i: UrlStat, j: UrlStat): int { Compare(i.createdAt, j.createdAt) }
  function SortByMostClicks(i: UrlStat, j: UrlStat): int { CompareInt(i.nrVisited, j.nrVisited) }
  function SortByLeastClicks(i: UrlStat, j: UrlStat): int { CompareInt(j.nrVisited, i.nrVisited) }

  /** The comparator `sortUrls` picks: unknown filters and "" sort newest first. */
  function Comparator(filter: string): (UrlStat, UrlStat) -> int
  {
    if filter == "oldest" then SortByOldest
    else if filter == "most-clicked" then SortByMostClicks
    else if filter == "least-clicked" then SortByLeastClicks
    else SortByNewest
  }

  /** An integer key that orders the elements as the chosen comparator does. */
  function SortKey(filter: string): (UrlStat) -> int
  {
    if filter == "oldest" then (u: UrlStat) => u.createdAt
    else if filter == "most-clicked" then (u: UrlStat) => -u.nrVisited
    else if filter == "least-clicked" then (u: UrlStat) => u.nrVisited
    else (u: UrlStat) => -u.createdAt
  }

  /**
   * The comparator and the key agree: the comparator puts `i` before `j`
   * exactly when `i`'s key is smaller, and calls them equal exactly when
   * the keys are equal.
   */
  lemma ComparatorMatchesKey(filter: string, i: UrlStat, j: UrlStat)
    ensures Comparator(filter)(i, j) < 0 <==> SortKey(filter)(i) < SortKey(filter)(j)
    ensures Comparator(filter)(i, j) == 0 <==> SortKey(filter)(i) == SortKey(filter)(j)
  {
  }

  /** What each filter means for a sorted table. */
  lemma SortKeyMeaning(filter: string, s: seq<UrlStat>)
    requires Sorting.SortedBy(s, SortKey(filter))
    ensures filter == "oldest" ==> forall a, b :: 0 <= a < b < |s| ==> s[a].createdAt <= s[b].createdAt
    ensures filter == "most-clicked" ==> forall a, b :: 0 <= a < b < |s| ==> s[a].nrVisited >= s[b].nrVisited
    ensures filter == "least-clicked" ==> forall a, b :: 0 <= a < b < |s| ==> s[a].nrVisited <= s[b].nrVisited
    ensures filter !in {"oldest", "most-clicked", "least-clicked"} ==>
      forall a, b :: 0 <= a < b < |s| ==> s[a].createdAt >= s[b].createdAt
  {
    forall a, b | 0 <= a < b < |s| ensures SortKey(filter)(s[a]) <= SortKey(filter)(s[b]) {
    }
  }

  /** `sortUrls`: sorts the slice in place by the chosen order; the same elements remain. */
  method SortUrls(urls: array<UrlStat>, filter: string)
    modifies urls
    ensures Sorting.SortedBy(urls[..], SortKey(filter))
    ensures multiset(urls[..]) == multiset(old(urls[..]))
  {
    Sorting.SortByKey(urls, SortKey(filter));
  }

  // ---- myLinks / urlSort ---------------------------------------------------

  /**
   * What `myLinks` and `urlSort` show: the requested page of the list in
   * store order (middleware pagination), then that page sorted. The order
   * therefore applies within the page only.
   */
  method ListPage(urls: seq<UrlStat>, params: Pagination.PaginationParams, sortBy: string)
    returns (page: seq<UrlStat>)
    ensures multiset(page) == multiset(Pagination.Paginate(urls, params))
    ensures Sorting.SortedBy(page, SortKey(sortBy))
  {
    var slice := Pagination.Paginate(urls, params);
    var a := new UrlStat[|slice|](i requires 0 <= i < |slice| => slice[i]);
    assert a[..] == slice;
    SortUrls(a, sortBy);
    page := a[..];
  }

  /**
   * Sorting after paginating: with one link per page, the first page shows
   * the first stored link even when a newer one exists.
   */
  lemma PaginateBeforeSort(older: UrlStat, newer: UrlStat)
    requires older.createdAt < newer.createdAt
    ensures var params := Pagination.PaginationParams(1, 1, 2);
      multiset(Pagination.Paginate([older, newer], params)) == multiset{older}
  {
    var params := Pagination.PaginationParams(1, 1, 2);
    assert Pagination.Paginate([older, newer], params) == [older];
  }
}
