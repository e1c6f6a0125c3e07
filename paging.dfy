/** The list state the client views share: filters sent as the query string, the pagination
    block read back from the response, the window of page buttons and the "Showing X to Y"
    range. */
module Paging {
  import opened Common
  import opened Query

  /** The filters of the store list and of the admin store table. */
  datatype ListFilters = ListFilters(search: string, sortBy: string, sortOrder: string, page: int, limit: int)

  /** The filter a control changes. */
  datatype FilterKey = SearchKey | SortByKey | SortOrderKey

  /** `{ ...prev, [key]: value, page: 1 }`: the keyed filter takes the value, the page goes back
      to 1, and every other filter is kept. */
  function WithFilter(f: ListFilters, key: FilterKey, value: string): (g: ListFilters)
    ensures g.page == 1 && g.limit == f.limit
    ensures g.search == (if key == SearchKey then value else f.search)
    ensures g.sortBy == (if key == SortByKey then value else f.sortBy)
    ensures g.sortOrder == (if key == SortOrderKey then value else f.sortOrder)
  {
    match key
    case SearchKey => f.(search := value, page := 1)
    case SortByKey => f.(sortBy := value, page := 1)
    case SortOrderKey => f.(sortOrder := value, page := 1)
  }

  /** The pagination block a view keeps after a fetch. */
  datatype PageInfo = PageInfo(totalCount: int, totalPages: int, currentPage: int)

  /** `field || fallback` on a numeric response field that may be missing (None) or null. */
  function NumberOr(field: Option<int>, fallback: int): (n: int)
    ensures field.Some? && field.value != 0 ==> n == field.value
    ensures field.None? || field.value == 0 ==> n == fallback
  {
    if field.Some? && field.value != 0 then field.value else fallback
  }

  /** The block as the store list and the owner dashboard read it: missing counts become 0 and
      a missing current page becomes 1. */
  function PageInfoWithDefaults(totalCount: Option<int>, totalPages: Option<int>, currentPage: Option<int>)
    : (p: PageInfo)
    ensures totalCount.None? ==> p.totalCount == 0
    ensures totalPages.None? ==> p.totalPages == 0
    ensures currentPage.None? ==> p.currentPage == 1
    ensures currentPage.Some? && currentPage.value != 0 ==> p.currentPage == currentPage.value
    ensures p.currentPage != 0
  {
    PageInfo(NumberOr(totalCount, 0), NumberOr(totalPages, 0), NumberOr(currentPage, 1))
  }

  /** The block of a response the server sent: the listing's own numbers (null pages read as 0). */
  function PageInfoOf<T>(l: Listing<T>): (p: PageInfo)
    ensures p.totalCount == l.totalCount && p.currentPage == NumberOr(Some(l.currentPage), 1)
  {
    PageInfoWithDefaults(Some(l.totalCount), l.totalPages, Some(l.currentPage))
  }

  /** The first of the (at most five) page buttons: the first five pages near the start, the
      last five near the end, otherwise the current page in the middle. */
  function WindowStart(totalPages: int, currentPage: int): int
  {
    if totalPages <= 5 then 1
    else if currentPage <= 3 then 1
    else if currentPage >= totalPages - 2 then totalPages - 4
    else currentPage - 2
  }

  /** `Array.from({ length: Math.min(totalPages, 5) }, ...)`: at most five consecutive page
      numbers, all existing pages, and the current page among them when it exists. */
  function PageWindow(totalPages: int, currentPage: int): (w: seq<int>)
    ensures |w| == Max(0, Min(totalPages, 5))
    ensures forall i :: 0 <= i < |w| ==> 1 <= w[i] <= totalPages
    ensures forall i :: 0 < i < |w| ==> w[i] == w[i - 1] + 1
    ensures 1 <= currentPage <= totalPages ==> currentPage in w
  {
    var start := WindowStart(totalPages, currentPage);
    var w := seq(Max(0, Min(totalPages, 5)), i requires 0 <= i => start + i);
    assert 1 <= currentPage <= totalPages ==> w[currentPage - start] == currentPage;
    w
  }

  /** `Array.from({ length: totalPages }, (_, i) => i + 1)`: every page once, in order. */
  function AllPages(totalPages: int): (r: seq<int>)
    ensures |r| == Max(0, totalPages)
    ensures forall p :: p in r <==> 1 <= p <= totalPages
    ensures forall i, j :: 0 <= i < j < |r| ==> r[i] < r[j]
  {
    if totalPages <= 0 then []
    else
      var before := AllPages(totalPages - 1);
      assert forall i :: 0 <= i < |before| ==> before[i] in before;
      before + [totalPages]
  }

  /** "Showing {(currentPage - 1) * limit + 1} to {min(currentPage * limit, totalCount)}". */
  function ShowingFrom(currentPage: int, limit: int): int
  {
    (currentPage - 1) * limit + 1
  }

  function ShowingTo(currentPage: int, limit: int, totalCount: int): int
  {
    Min(currentPage * limit, totalCount)
  }

  /** On any existing page of a non-empty listing the range is not empty, lies within the
      total, and names exactly the rows the server sent for that page. */
  lemma ShowingRangeMatchesPage<T>(rows: seq<T>, currentPage: int, limit: int)
    requires |rows| > 0 && limit > 0
    requires 1 <= currentPage <= TotalPages(|rows|, limit).value
    ensures var from := ShowingFrom(currentPage, limit);
      var to := ShowingTo(currentPage, limit, |rows|);
      && 1 <= from <= to <= |rows|
      && Paginate(rows, currentPage, limit).listing.data == rows[from - 1..to]
  {
    TotalPagesIsCeiling(|rows|, limit);
    var p := TotalPages(|rows|, limit).value;
    MulMonotone(currentPage - 1, p - 1, limit);
    MulMonotone(0, currentPage - 1, limit);
    assert currentPage * limit == (currentPage - 1) * limit + limit;
    PagesCoverRows(rows, currentPage, limit);
  }
}
