/**
 * The handlers' own pagination query of handlers/pagination.go: the same
 * offset rule as the middleware's, with the limit capped at 50.
 */
module HandlerPagination {

  /** `PaginationQuery`. */
  datatype PaginationQuery = PaginationQuery(page: int, perPage: int)
  {
    /** `Offset`: where page `page` starts, 10 per page when unset; never negative, and not capped at 50. */
    function Offset(): (o: int)
      ensures o >= 0
      ensures page >= 1 ==> o == (page - 1) * (if perPage <= 0 then 10 else perPage)
      ensures page <= 1 ==> o == 0
    {
      var pp := if perPage <= 0 then 10 else perPage;
      var offset := (page - 1) * pp;
      if offset < 0 then 0 else offset
    }

    /** `Limit`: the page size, 10 when unset, at most 50. */
    function Limit(): (l: int)
      ensures 1 <= l <= 50
      ensures perPage <= 0 ==> l == 10
      ensures perPage > 50 ==> l == 50
      ensures 0 < perPage <= 50 ==> l == perPage
    {
      if perPage <= 0 then 10 else if perPage > 50 then 50 else perPage
    }
  }

  /**
   * Offset and limit disagree above 50 per page: the second page starts
   * `perPage` in, although the first page holds only 50.
   */
  lemma OffsetIgnoresCap(perPage: int)
    requires perPage > 50
    ensures PaginationQuery(2, perPage).Offset() == perPage
    ensures PaginationQuery(1, perPage).Limit() == 50 < PaginationQuery(2, perPage).Offset()
  {
  }
}
