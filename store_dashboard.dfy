/** The store owner's dashboard view: the ratings table's filters and sorting, the pagination
    block, the high-ratings tile and the recent-activity list. */
module OwnerDashboardView {
  import opened Common
  import opened Tables
  import opened Paging

  datatype DashboardFilters = DashboardFilters(page: int, limit: int, sortBy: string, sortOrder: string)

  /** The dashboard's two fetches: the store summary is not modelled, only the ratings page. */
  datatype RatingsFetch =
    | RatingsFetched(data: Option<seq<Rating>>, totalCount: Option<int>, totalPages: Option<int>, currentPage: Option<int>)
    | RatingsFetchFailed(message: string)

  /** handleSortChange's new filters: the column is set and the page goes back to 1; the
      order becomes ascending when the same column was sorted descending, and descending in
      every other case. */
  function SortToggled(f: DashboardFilters, sortBy: string): (g: DashboardFilters)
    ensures g.sortBy == sortBy && g.page == 1 && g.limit == f.limit
    ensures g.sortOrder in {"asc", "desc"}
    ensures g.sortOrder == "asc" <==> f.sortBy == sortBy && f.sortOrder == "desc"
  {
    f.(sortBy := sortBy, sortOrder := if f.sortBy == sortBy && f.sortOrder == "desc" then "asc" else "desc", page := 1)
  }

  /** Clicking the same column again always flips the order, so repeated clicks alternate. */
  lemma SameColumnAlternates(f: DashboardFilters, sortBy: string)
    ensures var g := SortToggled(f, sortBy);
      SortToggled(g, sortBy).sortOrder != g.sortOrder
  {
  }

  /** A rating the tile counts as high: 4 or 5 stars. */
  predicate IsHighRating(r: Rating) { r.rating >= 4 }

  /** `ratings.filter(r => r.rating >= 4).length`. */
  function HighRatingsCount(rs: seq<Rating>): nat
  {
    |Filter(rs, IsHighRating)|
  }

  /** The tile counts each high rating of the page as often as it is listed, and no other
      rating; together with the low ones it accounts for the whole page. */
  lemma HighRatingsCountSpec(rs: seq<Rating>)
    ensures forall r :: multiset(Filter(rs, IsHighRating))[r] == if r.rating >= 4 then multiset(rs)[r] else 0
    ensures HighRatingsCount(rs) + |Filter(rs, r => !IsHighRating(r))| == |rs|
  {
    forall r ensures multiset(Filter(rs, IsHighRating))[r] == if r.rating >= 4 then multiset(rs)[r] else 0 {
      FilterMultiplicity(rs, IsHighRating, r);
    }
    var low := Filter(rs, r => !IsHighRating(r));
    forall r ensures (multiset(Filter(rs, IsHighRating)) + multiset(low))[r] == multiset(rs)[r] {
      FilterMultiplicity(rs, IsHighRating, r);
      FilterMultiplicity(rs, r => !IsHighRating(r), r);
    }
    assert multiset(Filter(rs, IsHighRating)) + multiset(low) == multiset(rs);
    assert |multiset(Filter(rs, IsHighRating)) + multiset(low)| == |multiset(rs)|;
  }

  /** `ratings.slice(0, 5)`: the first five ratings of the page, in list order. */
  function RecentActivity(rs: seq<Rating>): (recent: seq<Rating>)
    ensures |recent| == Min(5, |rs|)
    ensures recent <= rs
  {
    rs[..Min(5, |rs|)]
  }

  class StoreDashboard {
    var ratings: seq<Rating>
    var filters: DashboardFilters
    var pagination: Option<PageInfo>   // None until the first response: `{}`
    var error: string

    /** The initial state: page 1 of 10 ratings, newest first. */
    constructor ()
      ensures filters == DashboardFilters(1, 10, "created_at", "desc")
      ensures ratings == [] && pagination.None? && error == ""
    {
      ratings := [];
      filters := DashboardFilters(1, 10, "created_at", "desc");
      pagination := None;
      error := "";
    }

    /** handlePageChange: only a page between 1 and the known page count is taken. */
    method HandlePageChange(page: int)
      modifies this`filters
      ensures pagination.Some? && 1 <= page <= pagination.value.totalPages ==> filters == old(filters).(page := page)
      ensures !(pagination.Some? && 1 <= page <= pagination.value.totalPages) ==> filters == old(filters)
    {
      if pagination.Some? && 1 <= page <= pagination.value.totalPages {
        filters := filters.(page := page);
      }
    }

    /** handleSortChange. */
    method HandleSortChange(sortBy: string)
      modifies this`filters
      ensures filters == SortToggled(old(filters), sortBy)
    {
      filters := SortToggled(filters, sortBy);
    }

    /** fetchDashboardData: the error is cleared; a response replaces the ratings (none when
        missing) and the pagination block with its defaults; a failure sets the error and
        keeps the ratings shown before. */
    method Fetch(res: RatingsFetch)
      modifies this`ratings, this`pagination, this`error
      ensures res.RatingsFetched? ==>
        && ratings == (if res.data.Some? then res.data.value else [])
        && pagination == Some(PageInfoWithDefaults(res.totalCount, res.totalPages, res.currentPage))
        && error == ""
      ensures res.RatingsFetchFailed? ==>
        && ratings == old(ratings) && pagination == old(pagination)
        && error == OrText(res.message, "Failed to fetch dashboard data")
    {
      error := "";
      match res
      case RatingsFetched(data, totalCount, totalPages, currentPage) =>
        ratings := if data.Some? then data.value else [];
        pagination := Some(PageInfoWithDefaults(totalCount, totalPages, currentPage));
      case RatingsFetchFailed(message) =>
        error := OrText(message, "Failed to fetch dashboard data");
    }
  }
}
