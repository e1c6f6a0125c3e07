/** The normal user's store list: filters and pagination, the rating modal's selection, and
    the choice between submitting a new rating and updating the existing one. */
module StoreListView {
  import opened Common
  import opened Tables
  import opened Paging
  import opened StoreController

  /** How an API call ended: success, or an error response whose message is `message`
      ("" when the response carries none). */
  datatype ApiResult = ApiOk | ApiError(message: string)

  /** A list fetch's response: the rows and the pagination fields, each possibly missing. */
  datatype FetchResult =
    | Fetched(data: Option<seq<StoreRow>>, totalCount: Option<int>, totalPages: Option<int>, currentPage: Option<int>)
    | FetchFailed(message: string)

  /** The request the rating modal's submit sends. */
  datatype RatingCall = NoCall | SubmitCall(storeId: int, rating: int) | UpdateCall(storeId: int, rating: int)

  /** `store.userRating` is truthy: the user's rating is present and not 0. */
  predicate HasOwnRating(row: StoreRow)
  {
    row.userRating.Some? && row.userRating.value != 0
  }

  /** The request for rating `row` with `rating`: an update when the row shows the user's
      own rating, a new submission otherwise. */
  function RatingCallFor(row: StoreRow, rating: int): (c: RatingCall)
    ensures c != NoCall && c.storeId == row.id && c.rating == rating
    ensures c.UpdateCall? <==> HasOwnRating(row)
  {
    if HasOwnRating(row) then UpdateCall(row.id, rating) else SubmitCall(row.id, rating)
  }

  /** The success notice for a call. */
  function RatingNotice(c: RatingCall, storeName: string): string
  {
    match c
    case NoCall => ""
    case UpdateCall(_, rating) => "Rating updated to " + NumberText(rating) + " stars for " + storeName + "!"
    case SubmitCall(_, rating) => "Rating of " + NumberText(rating) + " stars submitted for " + storeName + "!"
  }

  /** For a row of a listing the server built for `userId` over ratings in 1..5, the client
      updates exactly when the table holds that user's rating for the store. So a fresh list
      never leads to the server's "already rated" (submit of a rated pair) or "rating not
      found" (update of an unrated pair) answers. */
  lemma RatingCallMatchesTable(s: Store, rs: seq<Rating>, userId: int, rating: int)
    requires AllInRange(rs)
    ensures RatingCallFor(StoreRowFor(s, rs, Some(userId)), rating).UpdateCall? <==> HasRating(rs, userId, s.id)
  {
    var v := UserRatingFor(rs, userId, s.id);
    if v.Some? {
      var i :| 0 <= i < |rs| && SamePair(rs[i], userId, s.id) && rs[i].rating == v.value;
      assert rs[i] in rs;
    }
  }

  class StoreList {
    var stores: seq<StoreRow>
    var filters: ListFilters
    var pagination: Option<PageInfo>   // None until the first response: `{}`
    var selectedStore: Option<StoreRow>
    var showRatingModal: bool
    var error: string
    var success: string

    /** The initial state: search "", sort by name ascending, page 1 of 12 stores. */
    constructor ()
      ensures filters == ListFilters("", "name", "asc", 1, 12)
      ensures stores == [] && pagination.None? && selectedStore.None? && !showRatingModal
      ensures error == "" && success == ""
    {
      stores := [];
      filters := ListFilters("", "name", "asc", 1, 12);
      pagination := None;
      selectedStore := None;
      showRatingModal := false;
      error := "";
      success := "";
    }

    /** handleFilterChange: the filter takes the value and the page goes back to 1. */
    method HandleFilterChange(key: FilterKey, value: string)
      modifies this`filters
      ensures filters == WithFilter(old(filters), key, value)
    {
      filters := WithFilter(filters, key, value);
    }

    /** handlePageChange: a page between 1 and the known page count is taken, any other is
        ignored (as is every page before the first response). */
    method HandlePageChange(page: int)
      modifies this`filters
      ensures pagination.Some? && 1 <= page <= pagination.value.totalPages ==> filters == old(filters).(page := page)
      ensures !(pagination.Some? && 1 <= page <= pagination.value.totalPages) ==> filters == old(filters)
    {
      if pagination.Some? && 1 <= page <= pagination.value.totalPages {
        filters := filters.(page := page);
      }
    }

    /** fetchStores: the error is cleared; a response replaces the rows (none when missing) and
        the pagination block with its defaults; a failure sets the error and empties the list. */
    method Fetch(res: FetchResult)
      modifies this`stores, this`pagination, this`error
      ensures res.Fetched? ==>
        && stores == (if res.data.Some? then res.data.value else [])
        && pagination == Some(PageInfoWithDefaults(res.totalCount, res.totalPages, res.currentPage))
        && error == ""
      ensures res.FetchFailed? ==>
        && stores == [] && pagination == old(pagination)
        && error == OrText(res.message, "Failed to fetch stores")
    {
      error := "";
      match res
      case Fetched(data, totalCount, totalPages, currentPage) =>
        stores := if data.Some? then data.value else [];
        pagination := Some(PageInfoWithDefaults(totalCount, totalPages, currentPage));
      case FetchFailed(message) =>
        error := OrText(message, "Failed to fetch stores");
        stores := [];
    }

    /** handleRateStore: the store is selected, the modal opens and both notices clear. */
    method HandleRateStore(store: StoreRow)
      modifies this`selectedStore, this`showRatingModal, this`error, this`success
      ensures selectedStore == Some(store) && showRatingModal && error == "" && success == ""
    {
      selectedStore := Some(store);
      showRatingModal := true;
      error := "";
      success := "";
    }

    /** handleSubmitRating: the request is an update exactly when the selected store shows the
        user's own rating. On success the notice is set, the modal closes, the selection
        clears and the list is fetched again; on failure only the error is set. With nothing
        selected the property access throws, which the same handler reports. */
    method HandleSubmitRating(rating: int, result: ApiResult) returns (call: RatingCall, refetch: bool)
      modifies this`selectedStore, this`showRatingModal, this`error, this`success
      ensures old(selectedStore).None? ==> call == NoCall
      ensures old(selectedStore).Some? ==> call == RatingCallFor(old(selectedStore).value, rating)
      ensures refetch <==> call != NoCall && result == ApiOk
      ensures refetch ==>
        && success == RatingNotice(call, old(selectedStore).value.name) && error == ""
        && !showRatingModal && selectedStore.None?
      ensures !refetch ==>
        && success == "" && showRatingModal == old(showRatingModal) && selectedStore == old(selectedStore)
        && error == (if call != NoCall && result.ApiError? then OrText(result.message, "Failed to submit rating")
                     else "Failed to submit rating")
    {
      error := "";
      success := "";
      if selectedStore.None? {
        error := "Failed to submit rating";
        return NoCall, false;
      }
      var store := selectedStore.value;
      call := RatingCallFor(store, rating);
      if result.ApiError? {
        error := OrText(result.message, "Failed to submit rating");
        return call, false;
      }
      success := RatingNotice(call, store.name);
      showRatingModal := false;
      selectedStore := None;
      refetch := true;
    }

    /** handleCloseModal: the modal closes and the selection clears. */
    method HandleCloseModal()
      modifies this`showRatingModal, this`selectedStore
      ensures !showRatingModal && selectedStore.None?
    {
      showRatingModal := false;
      selectedStore := None;
    }

    /** Every button of the page window, once a response has arrived, is a page the list
        accepts. */
    method ClickWindowButton(i: int)
      requires pagination.Some?
      requires 0 <= i < |PageWindow(pagination.value.totalPages, pagination.value.currentPage)|
      modifies this`filters
      ensures filters == old(filters).(page := PageWindow(pagination.value.totalPages, pagination.value.currentPage)[i])
      ensures 1 <= filters.page <= pagination.value.totalPages
    {
      var w := PageWindow(pagination.value.totalPages, pagination.value.currentPage);
      HandlePageChange(w[i]);
    }
  }
}
