/** The store controller: store lists (anonymous and user-aware), one store's details and
    ratings, and the global statistics with the top-rated stores. */
module StoreController {
  import opened Common
  import opened Tables
  import opened Query
  import opened Ranking

  // ----- store lists -----

  /** A row of a store list: the store, its ratings' average (NULL when unrated) and count,
      and, when the list is asked for on behalf of a user, that user's own rating. */
  datatype StoreRow = StoreRow(id: int, name: string, address: string, email: string,
                               averageRating: Option<Ratio>, totalRatings: nat, createdAt: int,
                               userRating: Option<int>)

  /** How many rows the `ur` join attaches to each rating of a store: one without a user or
      when the user has no row for the store, otherwise one per row of the user's pair. */
  function JoinFactor(rs: seq<Rating>, user: Option<int>, storeId: int): nat
  {
    if user.Some? && PairCount(rs, user.value, storeId) > 1 then PairCount(rs, user.value, storeId) else 1
  }

  /** The grouped row of one store. `COUNT(r.id)` counts the joined rows, so the `ur` join
      multiplies it by the join factor; `AVG(r.rating)` over rows repeated the same number of
      times is the store's own average; `ur.rating` is taken from the user's first row. */
  function StoreRowFor(s: Store, rs: seq<Rating>, user: Option<int>): StoreRow
  {
    StoreRow(s.id, s.name, s.address, s.email, Average(OfStore(rs, s.id)),
             |OfStore(rs, s.id)| * JoinFactor(rs, user, s.id), s.createdAt,
             if user.Some? then UserRatingFor(rs, user.value, s.id) else None)
  }

  /** The join's fan-out: when the table holds two rows or more for the user's pair, the
      count shown for that store exceeds its number of ratings. */
  lemma JoinInflatesCount(s: Store, rs: seq<Rating>, userId: int)
    requires PairCount(rs, userId, s.id) >= 2
    ensures StoreRowFor(s, rs, Some(userId)).totalRatings >= 2 * |OfStore(rs, s.id)|
    ensures StoreRowFor(s, rs, Some(userId)).totalRatings > |OfStore(rs, s.id)|
  {
    assert HasRating(rs, userId, s.id);
    var i :| 0 <= i < |rs| && rs[i].userId == userId && rs[i].storeId == s.id;
    OfStoreHas(rs, s.id, rs[i]);
    var k := |OfStore(rs, s.id)|;
    var f := PairCount(rs, userId, s.id);
    assert k >= 1 && f >= 2;
    assert JoinFactor(rs, Some(userId), s.id) == f;
    Query.MulMonotone(2, f, k);
  }

  function StoreRows(matching: seq<Store>, rs: seq<Rating>, user: Option<int>): (rows: seq<StoreRow>)
    ensures |rows| == |matching|
    ensures forall i :: 0 <= i < |matching| ==> rows[i] == StoreRowFor(matching[i], rs, user)
  {
    seq(|matching|, i requires 0 <= i < |matching| => StoreRowFor(matching[i], rs, user))
  }

  /** The listing of the stores matching `search` (rows in table order; the ORDER BY is not
      applied), with the user's rating when `user` is given. */
  function StoreListing(stores: seq<Store>, rs: seq<Rating>, user: Option<int>, search: string, page: int, limit: int)
    : ListResult<StoreRow>
  {
    Paginate(StoreRows(MatchingStores(stores, search), rs, user), page, limit)
  }

  /** `row` shows store `s` of the table, which matches the search, with its true count and
      average, and with `user`'s rating of it exactly when there is a user who rated it. */
  predicate StoreRowOf(row: StoreRow, s: Store, stores: seq<Store>, rs: seq<Rating>, user: Option<int>, search: string)
  {
    && s in stores && SearchMatches(s, search)
    && row.id == s.id && row.name == s.name && row.address == s.address && row.email == s.email
    && row.totalRatings == |OfStore(rs, s.id)| && row.averageRating == Average(OfStore(rs, s.id))
    && (row.userRating.Some? <==> user.Some? && HasRating(rs, user.value, s.id))
    && (user.Some? ==> row.userRating == UserRatingFor(rs, user.value, s.id))
  }

  /** Every listed row is a matching store with its true aggregates, and the total is the
      number of matching stores, which is what the count query with the same WHERE clause
      returns. */
  lemma StoreListingSpec(stores: seq<Store>, rs: seq<Rating>, user: Option<int>, search: string, page: int, limit: int)
    requires user.None? || UniquePairs(rs)
    ensures var r := StoreListing(stores, rs, user, search, page, limit);
      r.Listed? ==>
        && r.listing.totalCount == |MatchingStores(stores, search)|
        && forall row :: row in r.listing.data ==> exists s :: StoreRowOf(row, s, stores, rs, user, search)
  {
    var matching := MatchingStores(stores, search);
    var rows := StoreRows(matching, rs, user);
    PageRowsAreRows(rows, page, limit);
    forall row | row in rows ensures exists s :: StoreRowOf(row, s, stores, rs, user, search) {
      var i :| 0 <= i < |rows| && rows[i] == row;
      assert matching[i] in matching;
      if user.Some? {
        UniquePairCount(rs, user.value, matching[i].id);
      }
      assert StoreRowOf(row, matching[i], stores, rs, user, search);
    }
  }

  /** getAllStores: the store list without any user's rating (defaults: search "", page 1, limit 12). */
  function AllStores(stores: seq<Store>, rs: seq<Rating>, search: string, page: int, limit: int): ListResult<StoreRow>
  {
    StoreListing(stores, rs, None, search, page, limit)
  }

  /** `req.user?.userId || req.user?.id`, as the key of the `ur` join: only a truthy id joins. */
  function UserKey(userId: Js): (key: Option<int>)
    ensures key.Some? <==> Truthy(userId) && userId.Num?
    ensures key.Some? ==> key.value == userId.n
  {
    if userId.Num? && userId.n != 0 then Some(userId.n) else None
  }

  /** getStoresForUser: the store list, with the caller's rating when a user id is present. */
  function StoresForUser(stores: seq<Store>, rs: seq<Rating>, userId: Js, search: string, page: int, limit: int)
    : ListResult<StoreRow>
  {
    StoreListing(stores, rs, UserKey(userId), search, page, limit)
  }

  /** Without a user id the user-aware list is exactly the anonymous list. */
  lemma StoresForUserWithoutUser(stores: seq<Store>, rs: seq<Rating>, userId: Js, search: string, page: int, limit: int)
    requires !Truthy(userId)
    ensures StoresForUser(stores, rs, userId, search, page, limit) == AllStores(stores, rs, search, page, limit)
    ensures var r := StoresForUser(stores, rs, userId, search, page, limit);
      r.Listed? ==> forall row :: row in r.listing.data ==> row.userRating.None?
  {
    StoreListingSpec(stores, rs, None, search, page, limit);
  }

  /** The parameter lists getStoresForUser builds: the main query's (the user id for the
      `ur.user_id = ?` join when there is one, then the search patterns) and the count
      query's, which has no join and so leaves the user id out. */
  method StoresForUserParams(userId: Js, search: string) returns (conds: seq<Cond>, params: seq<Js>, countParams: seq<Js>)
    ensures conds == (if search != "" then [NameOrAddressLike] else [])
    ensures |countParams| == Placeholders(conds)
    ensures forall p :: p in countParams ==> p == Pattern(search)
    ensures params == (if Truthy(userId) then [userId] else []) + countParams
    ensures |params| == (if Truthy(userId) then 1 else 0) + Placeholders(conds)
  {
    conds := [];
    params := if Truthy(userId) then [userId] else [];
    if search != "" {
      conds := conds + [NameOrAddressLike];
      params := params + [Pattern(search), Pattern(search)];
    }
    countParams := if Truthy(userId) then params[1..] else params;
  }

  // ----- one store -----

  /** getStoreById: the store with its aggregates and its owner's name and e-mail (NULL when
      the store has no owner row). */
  datatype StoreDetail = StoreDetail(id: int, name: string, address: string, email: string, ownerId: Option<int>,
                                     averageRating: Option<Ratio>, totalRatings: nat, createdAt: int,
                                     ownerName: Option<string>, ownerEmail: Option<string>)

  /** The store's details, or None (404) when there is no store with that id. The average
      is left NULL for an unrated store. */
  function GetStoreById(stores: seq<Store>, users: seq<User>, rs: seq<Rating>, id: int): (r: Option<StoreDetail>)
    ensures r.None? <==> !StoreExists(stores, id)
    ensures r.Some? ==>
      && r.value.id == id
      && r.value.totalRatings == |OfStore(rs, id)|
      && r.value.averageRating == Average(OfStore(rs, id))
      && (r.value.averageRating.None? <==> r.value.totalRatings == 0)
  {
    match FindStore(stores, id)
    case None => None
    case Some(s) =>
      var owner := if s.ownerId.Some? then FindUser(users, s.ownerId.value) else None;
      Some(StoreDetail(s.id, s.name, s.address, s.email, s.ownerId, Average(OfStore(rs, s.id)),
                       |OfStore(rs, s.id)|, s.createdAt,
                       if owner.Some? then Some(owner.value.name) else None,
                       if owner.Some? then Some(owner.value.email) else None))
  }

  /** getStoreRatings: None (404) when the store does not exist, otherwise the store's ratings,
      paginated (defaults page 1, limit 10). */
  function GetStoreRatings(stores: seq<Store>, rs: seq<Rating>, id: int, page: int, limit: int)
    : (r: Option<ListResult<Rating>>)
    ensures r.None? <==> !StoreExists(stores, id)
  {
    if FindStore(stores, id).None? then None else Some(Paginate(OfStore(rs, id), page, limit))
  }

  /** Listed ratings all belong to the store, and the total counts all of the store's ratings. */
  lemma GetStoreRatingsSpec(stores: seq<Store>, rs: seq<Rating>, id: int, page: int, limit: int)
    ensures var r := GetStoreRatings(stores, rs, id, page, limit);
      r.Some? && r.value.Listed? ==>
        && r.value.listing.totalCount == |OfStore(rs, id)|
        && forall x :: x in r.value.listing.data ==> x in rs && x.storeId == id
  {
    PageRowsAreRows(OfStore(rs, id), page, limit);
  }

  // ----- getStoreStats -----

  datatype StoreStats = StoreStats(totalStores: nat, totalRatings: nat, averageRating: Ratio, topStores: seq<Summary>)

  function GetStoreStats(stores: seq<Store>, rs: seq<Rating>): StoreStats
  {
    StoreStats(|stores|, |rs|, AverageOrZero(rs), TopStores(Summarize(stores, rs)))
  }

  /** The global average is 0 exactly when there are no ratings; the top list holds only
      rated stores, with their true count and total, best first, at most five of them, and
      every rated store it leaves out ranks no higher than its last entry. */
  lemma GetStoreStatsSpec(stores: seq<Store>, rs: seq<Rating>)
    requires AllInRange(rs)
    ensures var st := GetStoreStats(stores, rs);
      && (st.averageRating == Ratio(0, 1) <==> st.totalRatings == 0)
      && |st.topStores| == Min(5, |RatedOnly(Summarize(stores, rs))|)
      && SortedByRank(st.topStores)
      && (forall x :: x in st.topStores ==> x.count > 0 && exists s :: s in stores && SummaryOf(x, s, rs))
      && (st.topStores != [] ==>
            forall x :: x in multiset(RatedOnly(Summarize(stores, rs))) - multiset(st.topStores) ==>
              RanksAtLeast(st.topStores[|st.topStores| - 1], x))
  {
    AverageOrZeroMeaning(rs);
    TopStoresSpec(Summarize(stores, rs));
    SummarizeTrue(stores, rs);
  }
}
