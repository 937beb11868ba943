/**
 * The single-page view's arithmetic in `ScrapeHandler`: the requested page,
 * its offset, the page count and the Previous/Next controls.
 */
module Paging {
  import opened Wrappers
  import opened GoLib

  /** Records per page: the view shows 10 and the export advances by 10. */
  const PageSize: int := 10

  /** The `page` form value as the handler reads it: 1 unless the text is a positive integer. */
  function ParsePage(pageStr: string): (page: int64)
    ensures page >= 1
    ensures page != 1 ==> Atoi(pageStr) == Some(page)
    ensures Atoi(pageStr).Some? && Atoi(pageStr).value > 0 ==> page == Atoi(pageStr).value
  {
    if pageStr != "" && Atoi(pageStr).Some? && Atoi(pageStr).value > 0 then Atoi(pageStr).value else 1
  }

  /** A page number written out in decimal is read back as that page. */
  lemma ParsePageItoa(page: int64)
    requires page >= 1
    ensures ParsePage(Itoa(page)) == page
  {
    AtoiItoa(page);
  }

  /** Text that is not a positive decimal integer in range leaves the default page 1. */
  lemma ParsePageDefault(pageStr: string)
    requires Atoi(pageStr).None? || Atoi(pageStr).value <= 0
    ensures ParsePage(pageStr) == 1
  {
  }

  /** The offset of the first record of `page`, computed exactly. */
  function PageOffset(page: int): (offset: int)
    requires page >= 1
    ensures offset >= 0 && offset % PageSize == 0
    ensures offset / PageSize == page - 1
  {
    (page - 1) * PageSize
  }

  /** The offset as the Go code computes it, in 64-bit arithmetic. */
  function GoPageOffset(page: int64): int64
  {
    Wrap64((page - 1) * PageSize)
  }

  /** The largest page whose offset fits in a 64-bit int. */
  const MaxExactPage: int := 922337203685477581

  /** Up to MaxExactPage the Go computation is exact. */
  lemma GoPageOffsetExact(page: int64)
    requires 1 <= page <= MaxExactPage
    ensures GoPageOffset(page) == PageOffset(page)
  {
  }

  /** One page further and the Go computation wraps to a negative offset. */
  lemma GoPageOffsetWraps()
    ensures GoPageOffset(MaxExactPage + 1) < 0
    ensures PageOffset(MaxExactPage + 1) > MaxInt64
  {
  }

  /** The number of pages of `total` records: the exact ceiling, for reference. */
  function CeilPages(total: nat): (pages: nat)
    ensures pages * PageSize >= total
    ensures pages == 0 || (pages - 1) * PageSize < total
  {
    (total + PageSize - 1) / PageSize
  }

  /** `totalPages := (total + 9) / 10` in Go's 64-bit arithmetic. */
  function TotalPages(total: int64): (pages: int64)
  {
    Quot(Wrap64(total + 9), PageSize)
  }

  /** For every total that does not overflow, the page count is the ceiling of total / 10; 0 for no records. */
  lemma TotalPagesIsCeiling(total: int64)
    requires 0 <= total <= MaxInt64 - 9
    ensures TotalPages(total) == CeilPages(total)
    ensures (TotalPages(total) - 1) * PageSize < total <= TotalPages(total) * PageSize
    ensures total == 0 <==> TotalPages(total) == 0
  {
  }

  /** A reported total within 9 of the 64-bit maximum wraps `total + 9`, and the page count turns negative. */
  lemma TotalPagesWraps()
    ensures TotalPages(MaxInt64) < 0
    ensures CeilPages(MaxInt64) > 0
  {
  }

  /** A total that is not positive gives no pages at all. */
  lemma TotalPagesNotPositive(total: int64)
    requires total <= 0
    ensures TotalPages(total) <= 0
    ensures -18 <= total ==> TotalPages(total) == 0
  {
  }

  /** Which Previous/Next buttons the view shows, and the page each posts. */
  datatype Nav = Nav(prev: Option<int64>, next: Option<int64>)

  /**
   * The template's `{{if gt .Page 1}}` and `{{if lt .Page .TotalPages}}`
   * with the values `PrevPage = page - 1` and `NextPage = page + 1`, both
   * computed in 64-bit arithmetic.
   */
  function Navigation(page: int64, totalPages: int64): (nav: Nav)
    requires page >= 1
    ensures nav.prev.Some? <==> page > 1
    ensures nav.prev.Some? ==> nav.prev.value == page - 1 >= 1
    ensures nav.next.Some? <==> page < totalPages
    ensures nav.next.Some? ==> nav.next.value == page + 1 <= totalPages
  {
    var prevPage := Wrap64(page - 1);
    var nextPage := Wrap64(page + 1);
    Nav(if page > 1 then Some(prevPage) else None,
        if page < totalPages then Some(nextPage) else None)
  }

  /** From any page in range, both buttons lead to a page in range, and each undoes the other. */
  lemma NavigationStaysInRange(page: int64, totalPages: int64)
    requires 1 <= page <= totalPages
    ensures var nav := Navigation(page, totalPages);
      (nav.prev.Some? ==> 1 <= nav.prev.value <= totalPages
                          && Navigation(nav.prev.value, totalPages).next == Some(page))
      && (nav.next.Some? ==> 1 <= nav.next.value <= totalPages
                             && Navigation(nav.next.value, totalPages).prev == Some(page))
  {
  }

  /** The first page has no Previous and the last page no Next; with no records there is no Next either. */
  lemma NavigationEnds(total: int64)
    requires 0 <= total <= MaxInt64 - 9
    ensures Navigation(1, TotalPages(total)).prev.None?
    ensures TotalPages(total) >= 1 ==> Navigation(TotalPages(total), TotalPages(total)).next.None?
    ensures total == 0 ==> Navigation(1, TotalPages(total)) == Nav(None, None)
  {
    TotalPagesIsCeiling(total);
  }
}
