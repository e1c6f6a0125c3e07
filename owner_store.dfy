/** The store owner's routes: the dashboard of the owner's store and the ratings it received.
    The store controller's getStoreDashboard and getStoreOwnerRatings answer the same way. */
module OwnerStore {
  import opened Common
  import opened Tables
  import opened Query

  /** The dashboard body: the store and its ratings' average (0 when unrated) and count. */
  datatype Dashboard = Dashboard(id: int, name: string, address: string, email: string,
                                 averageRating: Ratio, totalRatings: nat)

  /** GET /dashboard: None (404) when the caller owns no store; otherwise the first store
      the caller owns (`LIMIT 1`) with its aggregates. */
  function OwnerDashboard(stores: seq<Store>, rs: seq<Rating>, ownerId: int): (r: Option<Dashboard>)
    ensures r.None? <==> forall s :: s in stores ==> s.ownerId != Some(ownerId)
  {
    match FindOwnedStore(stores, ownerId)
    case None => None
    case Some(s) =>
      Some(Dashboard(s.id, s.name, s.address, s.email, AverageOrZero(OfStore(rs, s.id)), |OfStore(rs, s.id)|))
  }

  /** The dashboard reports the first owned store with its true count, and an average of 0
      with a count of 0 when that store has no ratings; with ratings in 1..5 the average is
      0 only then. */
  lemma OwnerDashboardSpec(stores: seq<Store>, rs: seq<Rating>, ownerId: int)
    requires AllInRange(rs)
    ensures var r := OwnerDashboard(stores, rs, ownerId);
      r.Some? ==>
        && r.value.id == FindOwnedStore(stores, ownerId).value.id
        && r.value.totalRatings == |OfStore(rs, r.value.id)|
        && (r.value.totalRatings == 0 ==> r.value.averageRating == Ratio(0, 1))
        && (r.value.averageRating == Ratio(0, 1) ==> r.value.totalRatings == 0)
        && (r.value.totalRatings > 0 ==> r.value.averageRating == Ratio(Sum(OfStore(rs, r.value.id)), r.value.totalRatings))
  {
    var r := OwnerDashboard(stores, rs, ownerId);
    if r.Some? {
      var mine := OfStore(rs, r.value.id);
      assert AllInRange(mine);
      AverageOrZeroMeaning(mine);
    }
  }

  /** The owner ratings query: the whitelisted sort column and the direction. */
  datatype Ordering = Ordering(column: string, direction: string)

  /** GET /ratings: None (404) when the caller owns no store; otherwise the first owned store's
      ratings, paginated (defaults page 1, limit 10, sort `created_at` descending). */
  function OwnerRatings(stores: seq<Store>, rs: seq<Rating>, ownerId: int, sortBy: string, sortOrder: string,
                        page: int, limit: int): (r: Option<(Ordering, ListResult<Rating>)>)
    ensures r.None? <==> forall s :: s in stores ==> s.ownerId != Some(ownerId)
  {
    match FindOwnedStore(stores, ownerId)
    case None => None
    case Some(s) =>
      Some((Ordering(OwnerRatingsSortColumn(sortBy), Order(sortOrder)), Paginate(OfStore(rs, s.id), page, limit)))
  }

  /** Listed ratings and the total both come from the owner's store only: every listed row
      belongs to it, and the total is its number of ratings. */
  lemma OwnerRatingsSpec(stores: seq<Store>, rs: seq<Rating>, ownerId: int, sortBy: string, sortOrder: string,
                         page: int, limit: int)
    ensures var r := OwnerRatings(stores, rs, ownerId, sortBy, sortOrder, page, limit);
      r.Some? ==>
        var storeId := FindOwnedStore(stores, ownerId).value.id;
        && r.value.0.column in {"r.created_at", "r.rating", "u.name"}
        && (r.value.1.Listed? ==>
              && r.value.1.listing.totalCount == |OfStore(rs, storeId)|
              && forall x :: x in r.value.1.listing.data ==> x in rs && x.storeId == storeId)
  {
    var owned := FindOwnedStore(stores, ownerId);
    if owned.Some? {
      PageRowsAreRows(OfStore(rs, owned.value.id), page, limit);
    }
  }
}
