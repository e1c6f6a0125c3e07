/** The query-shape normalisation every list handler repeats: the sort-column whitelists,
    the ASC/DESC normalisation, and the pagination arithmetic. The SQL fragments are
    kept as the text the handlers interpolate into ORDER BY. */
module Query {
  import opened Common

  // ----- sort columns -----

  /** Store listings (all stores, stores for a user, the user's `/stores`):
      `name` and `created_at` become `s.<col>`, `averageRating` becomes `AVG(r.rating)`,
      anything else falls back to `s.name`. */
  function StoreSortColumn(sortBy: string): (col: string)
    ensures col in {"s.name", "AVG(r.rating)", "s.created_at"}
    ensures col == "AVG(r.rating)" <==> sortBy == "averageRating"
    ensures col == "s.created_at" <==> sortBy == "created_at"
  {
    if sortBy in ["name", "averageRating", "created_at"] then
      if sortBy == "averageRating" then "AVG(r.rating)"
      else
        assert "s." + "name" == "s.name" && "s." + "created_at" == "s.created_at";
        "s." + sortBy
    else "s.name"
  }

  /** A store owner's ratings: `userName` becomes `u.name`, `created_at` and `rating` become
      `r.<col>`, anything else falls back to `r.created_at`. */
  function OwnerRatingsSortColumn(sortBy: string): (col: string)
    ensures col in {"r.created_at", "r.rating", "u.name"}
    ensures col == "u.name" <==> sortBy == "userName"
    ensures col == "r.rating" <==> sortBy == "rating"
  {
    if sortBy in ["created_at", "rating", "userName"] then
      if sortBy == "userName" then "u.name"
      else
        assert "r." + "created_at" == "r.created_at" && "r." + "rating" == "r.rating";
        "r." + sortBy
    else "r.created_at"
  }

  /** The admin user list: a whitelisted name is used as it is, anything else becomes `created_at`. */
  function AdminUserSortColumn(sortBy: string): (col: string)
    ensures col in {"name", "email", "role", "created_at"}
    ensures sortBy in {"name", "email", "role", "created_at"} ==> col == sortBy
    ensures sortBy !in {"name", "email", "role", "created_at"} ==> col == "created_at"
  {
    if sortBy in ["name", "email", "role", "created_at"] then sortBy else "created_at"
  }

  /** The admin store list: `name`, `email`, `created_at` become `s.<col>`, `averageRating` becomes
      `AVG(r.rating)`, anything else falls back to `s.created_at`. */
  function AdminStoreSortColumn(sortBy: string): (col: string)
    ensures col in {"s.name", "s.email", "s.created_at", "AVG(r.rating)"}
    ensures col == "AVG(r.rating)" <==> sortBy == "averageRating"
    ensures col == "s.name" <==> sortBy == "name"
    ensures col == "s.email" <==> sortBy == "email"
  {
    if sortBy in ["name", "email", "created_at", "averageRating"] then
      if sortBy == "averageRating" then "AVG(r.rating)"
      else
        assert "s." + "name" == "s.name" && "s." + "email" == "s.email";
        assert "s." + "created_at" == "s.created_at";
        "s." + sortBy
    else "s.created_at"
  }

  // ----- WHERE clauses and their parameters -----

  /** A condition a list handler appends to `WHERE 1=1`. */
  datatype Cond =
    | NameOrAddressLike           // ` AND (s.name LIKE ? OR s.address LIKE ?)`
    | NameEmailOrAddressLike      // ` AND (name LIKE ? OR email LIKE ? OR address LIKE ?)`, users and stores
    | RoleIs                      // ` AND role = ?`

  /** How many `?` placeholders a condition holds. */
  function CondPlaceholders(c: Cond): nat
  {
    match c
    case NameOrAddressLike => 2
    case NameEmailOrAddressLike => 3
    case RoleIs => 1
  }

  function Placeholders(conds: seq<Cond>): nat
  {
    if conds == [] then 0 else CondPlaceholders(conds[0]) + Placeholders(conds[1..])
  }

  lemma {:induction false} PlaceholdersAppend(a: seq<Cond>, b: seq<Cond>)
    ensures Placeholders(a + b) == Placeholders(a) + Placeholders(b)
  {
    if a == [] {
      assert a + b == b;
    } else {
      assert (a + b)[1..] == a[1..] + b;
      PlaceholdersAppend(a[1..], b);
    }
  }

  /** The `%search%` pattern a LIKE condition is given. */
  function Pattern(search: string): Js
  {
    Str("%" + search + "%")
  }

  // ----- sort order -----

  /** `sortOrder.toLowerCase() === 'asc' ? 'ASC' : 'DESC'`. */
  function Order(sortOrder: string): (dir: string)
    ensures dir in {"ASC", "DESC"}
  {
    if ToLower(sortOrder) == "asc" then "ASC" else "DESC"
  }

  /** The order is ascending exactly for the eight case spellings of "asc". */
  lemma OrderAscExactly(sortOrder: string)
    ensures Order(sortOrder) == "ASC" <==>
      && |sortOrder| == 3
      && (sortOrder[0] == 'a' || sortOrder[0] == 'A')
      && (sortOrder[1] == 's' || sortOrder[1] == 'S')
      && (sortOrder[2] == 'c' || sortOrder[2] == 'C')
  {
    var low := ToLower(sortOrder);
    if |sortOrder| == 3 {
      assert low == "asc" <==> low[0] == 'a' && low[1] == 's' && low[2] == 'c';
    } else {
      assert |low| != 3;
    }
  }

  // ----- pagination -----

  /** `(page - 1) * limit`. */
  function Offset(page: int, limit: int): int
  {
    (page - 1) * limit
  }

  /** `Math.ceil(totalCount / limit)` as the JSON response carries it: with limit 0 the
      quotient is Infinity or NaN, which serialises as `null` (None). */
  function TotalPages(totalCount: nat, limit: int): (pages: Option<int>)
    ensures pages.None? <==> limit == 0
  {
    if limit > 0 then Some((totalCount + limit - 1) / limit)
    else if limit == 0 then None
    else Some(-(totalCount / -limit))
  }

  /** For a positive limit, the page count is the least number of pages of `limit` rows that
      hold `totalCount` rows. */
  lemma TotalPagesIsCeiling(totalCount: nat, limit: int)
    requires limit > 0
    ensures TotalPages(totalCount, limit).Some?
    ensures var p := TotalPages(totalCount, limit).value;
      p >= 0 && (p - 1) * limit < totalCount <= p * limit
  {
    var p := (totalCount + limit - 1) / limit;
    var m := (totalCount + limit - 1) % limit;
    assert totalCount + limit - 1 == p * limit + m;
    assert (p - 1) * limit == p * limit - limit;
  }

  /** No rows means no pages; some rows mean at least one page. */
  lemma TotalPagesZeroIffEmpty(totalCount: nat, limit: int)
    requires limit > 0
    ensures TotalPages(totalCount, limit) == Some(0) <==> totalCount == 0
  {
    TotalPagesIsCeiling(totalCount, limit);
  }

  /** `LIMIT ? OFFSET ?`: the rows from `offset` on, at most `limit` of them. A negative
      limit or offset is an SQL error (None). */
  function PageOf<T>(rows: seq<T>, offset: int, limit: int): (page: Option<seq<T>>)
    ensures page.None? <==> offset < 0 || limit < 0
    ensures page.Some? ==> |page.value| == Max(0, Min(limit, |rows| - offset))
    ensures page.Some? ==> forall k :: 0 <= k < |page.value| ==> page.value[k] == rows[offset + k]
  {
    if offset < 0 || limit < 0 then None
    else if offset >= |rows| then Some([])
    else Some(rows[offset..Min(offset + limit, |rows|)])
  }

  /** The body of every paginated list response. */
  datatype Listing<T> = Listing(data: seq<T>, totalCount: nat, totalPages: Option<int>, currentPage: int)

  /** A list handler's answer: the listing, or 500 when the query fails. */
  datatype ListResult<T> = Listed(listing: Listing<T>) | ServerError

  /** The listing a handler sends for `rows` (the rows its WHERE clause selects), page `page`
      of `limit` rows each. */
  function Paginate<T>(rows: seq<T>, page: int, limit: int): (r: ListResult<T>)
    ensures r.Listed? <==> Offset(page, limit) >= 0 && limit >= 0
    ensures r.Listed? ==> r.listing.totalCount == |rows| && r.listing.currentPage == page
    ensures r.Listed? ==> r.listing.totalPages == TotalPages(|rows|, limit)
    ensures r.Listed? ==> r.listing.data == PageOf(rows, Offset(page, limit), limit).value
  {
    match PageOf(rows, Offset(page, limit), limit)
    case None => ServerError
    case Some(data) => Listed(Listing(data, |rows|, TotalPages(|rows|, limit), page))
  }

  /** A page only ever holds rows of the listing it was cut from. */
  lemma PageRowsAreRows<T>(rows: seq<T>, page: int, limit: int)
    ensures Paginate(rows, page, limit).Listed? ==>
      forall x :: x in Paginate(rows, page, limit).listing.data ==> x in rows
  {
    var r := Paginate(rows, page, limit);
    if r.Listed? {
      forall x | x in r.listing.data ensures x in rows {
        var k :| 0 <= k < |r.listing.data| && r.listing.data[k] == x;
        assert rows[Offset(page, limit) + k] == x;
      }
    }
  }

  lemma MulMonotone(a: int, b: int, c: int)
    requires a <= b && c >= 0
    ensures a * c <= b * c
  {
    assert b * c - a * c == (b - a) * c;
  }

  /** Walking the pages 1, 2, ... of a listing visits every row exactly once, in order:
      page `p` (from 1) holds rows `(p-1)*limit` up to `p*limit`, and the pages before the
      last are full. */
  lemma PagesCoverRows<T>(rows: seq<T>, page: int, limit: int)
    requires limit > 0 && page >= 1
    ensures Paginate(rows, page, limit).Listed?
    ensures var data := Paginate(rows, page, limit).listing.data;
      data == rows[Min((page - 1) * limit, |rows|)..Min(page * limit, |rows|)]
    ensures var p := TotalPages(|rows|, limit).value;
      page < p ==> |Paginate(rows, page, limit).listing.data| == limit
  {
    var off := (page - 1) * limit;
    MulMonotone(0, page - 1, limit);
    assert off + limit == page * limit;
    var data := Paginate(rows, page, limit).listing.data;
    if off < |rows| {
      assert data == rows[off..Min(off + limit, |rows|)];
    } else {
      assert data == [];
    }
    TotalPagesIsCeiling(|rows|, limit);
    var p := TotalPages(|rows|, limit).value;
    if page < p {
      MulMonotone(page, p - 1, limit);
    }
  }
}
