/** The administrator's store table: filters, unguarded page changes, the full row of page
    buttons, the rating cells, and the create-store form's submit. */
module StoreManagementView {
  import opened Common
  import opened Query
  import opened Paging
  import opened Admin
  import FormSchemas

  /** The pagination block as this view stores it: the response's fields, unchanged. */
  datatype Pagination = Pagination(totalCount: nat, totalPages: Option<int>, currentPage: int)

  datatype StoresFetch = StoresFetched(listing: Listing<AdminStoreRow>) | StoresFetchFailed(message: string)

  /** How the create request ended; `message` is "" when the error response has none. */
  datatype CreateResult = CreateOk | CreateFailed(message: string)

  /** The average-rating cell: a dash for a falsy average, otherwise the star and the value. */
  datatype RatingCell = Dash | Stars(average: Js)

  function RenderStars(averageRating: Js): (cell: RatingCell)
    ensures cell == Dash <==> !Truthy(averageRating)
    ensures cell.Stars? ==> cell.average == averageRating
  {
    if !Truthy(averageRating) then Dash else Stars(averageRating)
  }

  /** "{n} rating{s}" under the average: shown only for a positive count, with the plural
      ending exactly when the count is not 1. */
  function RatingCountLabel(totalRatings: int): (text: Option<string>)
    ensures text.None? <==> totalRatings <= 0
    ensures text.Some? ==> |text.value| > 0 && (text.value[|text.value| - 1] == 's' <==> totalRatings != 1)
    ensures text.Some? ==> NumberText(totalRatings) <= text.value
  {
    if totalRatings <= 0 then None
    else Some(NumberText(totalRatings) + " rating" + (if totalRatings != 1 then "s" else ""))
  }

  /** The form's fields after `reset()`. */
  const EmptyStoreForm := StoreForm("", "", "", "")

  class StoreManagement {
    var stores: seq<AdminStoreRow>
    var filters: ListFilters
    var pagination: Option<Pagination>   // None until the first response: `{}`
    var error: string
    var success: string
    var showCreateForm: bool
    var form: StoreForm

    /** The initial state: search "", newest first, page 1 of 10 stores, form hidden. */
    constructor ()
      ensures filters == ListFilters("", "created_at", "desc", 1, 10)
      ensures stores == [] && pagination.None? && error == "" && success == ""
      ensures !showCreateForm && form == EmptyStoreForm
    {
      stores := [];
      filters := ListFilters("", "created_at", "desc", 1, 10);
      pagination := None;
      error := "";
      success := "";
      showCreateForm := false;
      form := EmptyStoreForm;
    }

    /** handleFilterChange: the filter takes the value and the page goes back to 1. */
    method HandleFilterChange(key: FilterKey, value: string)
      modifies this`filters
      ensures filters == WithFilter(old(filters), key, value)
    {
      filters := WithFilter(filters, key, value);
    }

    /** handlePageChange: any page is taken, with no bounds check; page 0 and pages past the
        last are requested as they come. */
    method HandlePageChange(page: int)
      modifies this`filters
      ensures filters == old(filters).(page := page)
    {
      filters := filters.(page := page);
    }

    /** fetchStores: a response replaces the rows and the pagination block as sent; a failure
        sets the error. The error is not cleared by a later successful fetch. */
    method Fetch(res: StoresFetch)
      modifies this`stores, this`pagination, this`error
      ensures res.StoresFetched? ==>
        && stores == res.listing.data
        && pagination == Some(Pagination(res.listing.totalCount, res.listing.totalPages, res.listing.currentPage))
        && error == old(error)
      ensures res.StoresFetchFailed? ==>
        && stores == old(stores) && pagination == old(pagination)
        && error == OrText(res.message, "Failed to fetch stores")
    {
      match res
      case StoresFetched(listing) =>
        stores := listing.data;
        pagination := Some(Pagination(listing.totalCount, listing.totalPages, listing.currentPage));
      case StoresFetchFailed(message) =>
        error := OrText(message, "Failed to fetch stores");
    }

    /** The pagination bar renders only when there is more than one page. */
    function ShowPagination(): (show: bool)
      reads this
      ensures show <==> pagination.Some? && pagination.value.totalPages.Some? && pagination.value.totalPages.value > 1
    {
      pagination.Some? && pagination.value.totalPages.Some? && pagination.value.totalPages.value > 1
    }

    /** One button per page, 1 to the page count, in order (none for a null count). */
    function PageButtons(): (pages: seq<int>)
      reads this
      ensures pagination.Some? && pagination.value.totalPages.Some? ==>
        forall p :: p in pages <==> 1 <= p <= pagination.value.totalPages.value
      ensures forall i, j :: 0 <= i < j < |pages| ==> pages[i] < pages[j]
      ensures pagination.None? || pagination.value.totalPages.None? ==> pages == []
    {
      if pagination.Some? && pagination.value.totalPages.Some? then AllPages(pagination.value.totalPages.value) else []
    }

    /** onSubmit, which runs only once the form's schema accepts `data`: both notices clear;
        on success the notice is set, the form is reset and hidden, and the list is fetched
        again; on failure only the error is set. */
    method OnSubmit(data: StoreForm, isEmail: string -> bool, result: CreateResult) returns (sent: StoreForm, refetch: bool)
      requires FormSchemas.CreateStoreValid(data, isEmail)
      modifies this`error, this`success, this`form, this`showCreateForm
      ensures sent == data
      ensures refetch <==> result == CreateOk
      ensures result == CreateOk ==>
        && success == "Store created successfully!" && error == ""
        && form == EmptyStoreForm && !showCreateForm
      ensures result.CreateFailed? ==>
        && success == "" && error == OrText(result.message, "Failed to create store")
        && form == old(form) && showCreateForm == old(showCreateForm)
    {
      error := "";
      success := "";
      sent := data;
      if result.CreateFailed? {
        error := OrText(result.message, "Failed to create store");
        return sent, false;
      }
      success := "Store created successfully!";
      form := EmptyStoreForm;
      showCreateForm := false;
      refetch := true;
    }

    /** The "Create Store" / "Cancel" button. */
    method ToggleCreateForm()
      modifies this`showCreateForm
      ensures showCreateForm == !old(showCreateForm)
    {
      showCreateForm := !showCreateForm;
    }
  }
}
