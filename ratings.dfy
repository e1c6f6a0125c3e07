/** The normal user's routes: submitting and updating a rating (the only writes to the
    ratings table), the user's statistics, the store list with the user's own rating,
    and the user's rating history. */
module UserRatings {
  import opened Common
  import opened Tables
  import opened Query
  import opened StoreController

  /** The answers of the submit and update handlers. */
  datatype Outcome =
    | ValidationFailed   // 400 "Validation failed"
    | StoreNotFound      // 404 "Store not found"
    | AlreadyRated       // 400 "You have already rated this store..."
    | Submitted          // 201 "Rating submitted successfully"
    | RatingNotFound     // 404 "Rating not found. Submit a new rating instead."
    | Updated            // 200 "Rating updated successfully"

  function StatusCode(o: Outcome): int
  {
    match o
    case ValidationFailed => 400
    case StoreNotFound => 404
    case AlreadyRated => 400
    case Submitted => 201
    case RatingNotFound => 404
    case Updated => 200
  }

  // ----- submit (POST /stores/:storeId/rating) -----

  /** Validate the rating, check the store exists, refuse a second rating for the same
      pair, and only then insert the new row. Every refusal leaves the database as it was. */
  method SubmitRating(db: Database, userId: int, storeId: int, rating: string, now: int)
    returns (o: Outcome)
    requires UserExists(db.users, userId)
    modifies db
    ensures !IsRatingValue(rating) ==> o == ValidationFailed
    ensures IsRatingValue(rating) && !StoreExists(old(db.stores), storeId) ==> o == StoreNotFound
    ensures IsRatingValue(rating) && StoreExists(old(db.stores), storeId) && HasRating(old(db.ratings), userId, storeId)
      ==> o == AlreadyRated
    ensures o == Submitted <==>
      IsRatingValue(rating) && StoreExists(old(db.stores), storeId) && !HasRating(old(db.ratings), userId, storeId)
    ensures o != Submitted ==> unchanged(db)
    ensures o == Submitted ==>
      && db.ratings == old(db.ratings) + [Rating(old(db.nextRatingId), userId, storeId, RatingOf(rating), now, None)]
      && db.nextRatingId == old(db.nextRatingId) + 1
      && db.users == old(db.users) && db.stores == old(db.stores)
      && db.nextUserId == old(db.nextUserId) && db.nextStoreId == old(db.nextStoreId)
    ensures old(db.Valid()) ==> db.Valid()
  {
    if !IsRatingValue(rating) {
      return ValidationFailed;
    }
    var store := FindStore(db.stores, storeId);
    if store.None? {
      return StoreNotFound;
    }
    if UserRatingFor(db.ratings, userId, storeId).Some? {
      return AlreadyRated;
    }
    var row := Rating(db.nextRatingId, userId, storeId, RatingOf(rating), now, None);
    if db.Valid() {
      InsertKeepsUnique(db.ratings, row);
      InsertKeepsReferences(db.users, db.stores, db.ratings, row);
      InsertKeepsRange(db.ratings, row);
    }
    db.ratings := db.ratings + [row];
    db.nextRatingId := db.nextRatingId + 1;
    o := Submitted;
  }

  /** Inserting a row for a pair that has none keeps one rating per pair. */
  lemma InsertKeepsUnique(rs: seq<Rating>, row: Rating)
    requires UniquePairs(rs) && !HasRating(rs, row.userId, row.storeId)
    ensures UniquePairs(rs + [row])
  {
    var t := rs + [row];
    forall i, j | 0 <= i < j < |t| ensures t[i].userId != t[j].userId || t[i].storeId != t[j].storeId {
      if j == |rs| {
        assert t[i] == rs[i];
      }
    }
  }

  /** Inserting a row whose user and store exist keeps every rating's references. */
  lemma InsertKeepsReferences(users: seq<User>, stores: seq<Store>, rs: seq<Rating>, row: Rating)
    requires RatingsReferToRows(users, stores, rs)
    requires UserExists(users, row.userId) && StoreExists(stores, row.storeId)
    ensures RatingsReferToRows(users, stores, rs + [row])
  {
    forall r | r in rs + [row] ensures UserExists(users, r.userId) && StoreExists(stores, r.storeId) {
      if r != row {
        assert r in rs;
      }
    }
  }

  /** Inserting a value in 1..5 keeps every stored rating in 1..5. */
  lemma InsertKeepsRange(rs: seq<Rating>, row: Rating)
    requires AllInRange(rs) && 1 <= row.rating <= 5
    ensures AllInRange(rs + [row])
  {
    forall x | x in rs + [row] ensures 1 <= x.rating <= 5 {
      if x != row {
        assert x in rs;
      }
    }
  }

  /** After a successful submit the user's rating for the store is the submitted value, the
      store gains exactly that row, and every other store's ratings are as before. */
  lemma {:induction false} SubmitEffect(rs: seq<Rating>, row: Rating)
    requires !HasRating(rs, row.userId, row.storeId)
    ensures UserRatingFor(rs + [row], row.userId, row.storeId) == Some(row.rating)
    ensures OfStore(rs + [row], row.storeId) == OfStore(rs, row.storeId) + [row]
    ensures forall t :: t != row.storeId ==> OfStore(rs + [row], t) == OfStore(rs, t)
    ensures OfUser(rs + [row], row.userId) == OfUser(rs, row.userId) + [row]
  {
    if rs != [] {
      HasRatingCons(rs, row.userId, row.storeId);
      assert (rs + [row])[1..] == rs[1..] + [row];
      SubmitEffect(rs[1..], row);
    }
    OfUserAppend(rs, [row], row.userId);
    assert OfUser([row], row.userId) == [row];
    forall t | t != row.storeId ensures OfStore(rs + [row], t) == OfStore(rs, t) {
      OfStoreAppend(rs, [row], t);
      assert OfStore([row], t) == [];
    }
    OfStoreAppend(rs, [row], row.storeId);
    assert OfStore([row], row.storeId) == [row];
  }

  // ----- update (PUT /stores/:storeId/rating) -----

  /** `UPDATE ratings SET rating = ?, updated_at = NOW() WHERE user_id = ? AND store_id = ?`. */
  function SetRating(rs: seq<Rating>, userId: int, storeId: int, v: int, now: int): (r: seq<Rating>)
    ensures |r| == |rs|
    ensures forall i :: 0 <= i < |rs| ==>
      r[i].id == rs[i].id && r[i].userId == rs[i].userId && r[i].storeId == rs[i].storeId
    ensures forall i :: 0 <= i < |rs| && !SamePair(rs[i], userId, storeId) ==> r[i] == rs[i]
    ensures forall i :: 0 <= i < |rs| && SamePair(rs[i], userId, storeId) ==>
      r[i] == rs[i].(rating := v, updatedAt := Some(now))
  {
    seq(|rs|, i requires 0 <= i < |rs| =>
      if SamePair(rs[i], userId, storeId) then rs[i].(rating := v, updatedAt := Some(now)) else rs[i])
  }

  /** Validate the rating and require an existing rating for the pair (there is no store
      check); only then rewrite that pair's value and update time. Update never inserts. */
  method UpdateRating(db: Database, userId: int, storeId: int, rating: string, now: int)
    returns (o: Outcome)
    requires UserExists(db.users, userId)
    modifies db
    ensures !IsRatingValue(rating) ==> o == ValidationFailed
    ensures IsRatingValue(rating) && !HasRating(old(db.ratings), userId, storeId) ==> o == RatingNotFound
    ensures o == Updated <==> IsRatingValue(rating) && HasRating(old(db.ratings), userId, storeId)
    ensures o != Updated ==> unchanged(db)
    ensures o == Updated ==>
      && db.ratings == SetRating(old(db.ratings), userId, storeId, RatingOf(rating), now)
      && db.users == old(db.users) && db.stores == old(db.stores)
      && db.nextUserId == old(db.nextUserId) && db.nextStoreId == old(db.nextStoreId)
      && db.nextRatingId == old(db.nextRatingId)
    ensures old(db.Valid()) ==> db.Valid()
  {
    if !IsRatingValue(rating) {
      return ValidationFailed;
    }
    if UserRatingFor(db.ratings, userId, storeId).None? {
      return RatingNotFound;
    }
    var updated := SetRating(db.ratings, userId, storeId, RatingOf(rating), now);
    if db.Valid() {
      SetRatingKeepsPairs(db.ratings, userId, storeId, RatingOf(rating), now);
      SetRatingKeepsReferences(db.users, db.stores, db.ratings, userId, storeId, RatingOf(rating), now);
      SetRatingKeepsRange(db.ratings, userId, storeId, RatingOf(rating), now);
      assert forall r :: r in updated ==> r.id < db.nextRatingId by {
        forall r | r in updated ensures r.id < db.nextRatingId {
          var i :| 0 <= i < |updated| && updated[i] == r;
          assert db.ratings[i] in db.ratings;
        }
      }
    }
    db.ratings := updated;
    o := Updated;
  }

  /** An update rewrites no user or store id, so it keeps every rating's references. */
  lemma SetRatingKeepsReferences(users: seq<User>, stores: seq<Store>, rs: seq<Rating>, userId: int, storeId: int,
                                 v: int, now: int)
    requires RatingsReferToRows(users, stores, rs)
    ensures RatingsReferToRows(users, stores, SetRating(rs, userId, storeId, v, now))
  {
    var r := SetRating(rs, userId, storeId, v, now);
    forall x | x in r ensures UserExists(users, x.userId) && StoreExists(stores, x.storeId) {
      var i :| 0 <= i < |r| && r[i] == x;
      assert rs[i] in rs;
    }
  }

  /** An update to a value in 1..5 keeps every stored rating in 1..5. */
  lemma SetRatingKeepsRange(rs: seq<Rating>, userId: int, storeId: int, v: int, now: int)
    requires AllInRange(rs) && 1 <= v <= 5
    ensures AllInRange(SetRating(rs, userId, storeId, v, now))
  {
    var r := SetRating(rs, userId, storeId, v, now);
    forall x | x in r ensures 1 <= x.rating <= 5 {
      var i :| 0 <= i < |r| && r[i] == x;
      assert rs[i] in rs;
    }
  }

  /** An update keeps the set of rated pairs, so it keeps one rating per pair. */
  lemma SetRatingKeepsPairs(rs: seq<Rating>, userId: int, storeId: int, v: int, now: int)
    ensures var r := SetRating(rs, userId, storeId, v, now);
      (UniquePairs(rs) ==> UniquePairs(r)) &&
      forall a, b :: HasRating(r, a, b) <==> HasRating(rs, a, b)
  {
    var r := SetRating(rs, userId, storeId, v, now);
    forall a, b ensures HasRating(r, a, b) <==> HasRating(rs, a, b) {
      if HasRating(r, a, b) {
        var i :| 0 <= i < |r| && r[i].userId == a && r[i].storeId == b;
        assert rs[i].userId == a && rs[i].storeId == b;
      }
      if HasRating(rs, a, b) {
        var i :| 0 <= i < |rs| && rs[i].userId == a && rs[i].storeId == b;
        assert r[i].userId == a && r[i].storeId == b;
      }
    }
  }

  lemma SetRatingTail(rs: seq<Rating>, userId: int, storeId: int, v: int, now: int)
    requires rs != []
    ensures SetRating(rs, userId, storeId, v, now)[1..] == SetRating(rs[1..], userId, storeId, v, now)
  {
  }

  /** Other stores' ratings are untouched by an update, and the updated store keeps its
      count: an update never changes how many ratings any store has. */
  lemma {:induction false} SetRatingOfStore(rs: seq<Rating>, userId: int, storeId: int, v: int, now: int, t: int)
    ensures t != storeId ==> OfStore(SetRating(rs, userId, storeId, v, now), t) == OfStore(rs, t)
    ensures |OfStore(SetRating(rs, userId, storeId, v, now), t)| == |OfStore(rs, t)|
    ensures |OfUser(SetRating(rs, userId, storeId, v, now), t)| == |OfUser(rs, t)|
  {
    if rs != [] {
      SetRatingTail(rs, userId, storeId, v, now);
      SetRatingOfStore(rs[1..], userId, storeId, v, now, t);
    }
  }

  /** With no row for the pair, an update changes nothing. */
  lemma {:induction false} SetRatingAbsent(rs: seq<Rating>, userId: int, storeId: int, v: int, now: int)
    requires !HasRating(rs, userId, storeId)
    ensures SetRating(rs, userId, storeId, v, now) == rs
  {
    var r := SetRating(rs, userId, storeId, v, now);
    forall i | 0 <= i < |rs| ensures r[i] == rs[i] {
      assert !SamePair(rs[i], userId, storeId);
    }
  }

  /** With one rating per pair, an update moves the store's rating total by exactly the
      difference between the new and the old value, so its average follows the new value. */
  lemma {:induction false} SetRatingSum(rs: seq<Rating>, userId: int, storeId: int, v: int, now: int)
    requires UniquePairs(rs) && HasRating(rs, userId, storeId)
    ensures Sum(OfStore(SetRating(rs, userId, storeId, v, now), storeId)) ==
      Sum(OfStore(rs, storeId)) - UserRatingFor(rs, userId, storeId).value + v
  {
    var tail := rs[1..];
    var updated := SetRating(rs, userId, storeId, v, now);
    SetRatingTail(rs, userId, storeId, v, now);
    UniquePairsTail(rs);
    HasRatingCons(rs, userId, storeId);
    var head := if rs[0].storeId == storeId then [rs[0]] else [];
    var newHead := if updated[0].storeId == storeId then [updated[0]] else [];
    assert OfStore(rs, storeId) == head + OfStore(tail, storeId);
    assert OfStore(updated, storeId) == newHead + OfStore(updated[1..], storeId);
    SumAppend(head, OfStore(tail, storeId));
    SumAppend(newHead, OfStore(updated[1..], storeId));
    if SamePair(rs[0], userId, storeId) {
      SetRatingAbsent(tail, userId, storeId, v, now);
      assert Sum(newHead) == v && Sum(head) == rs[0].rating;
    } else {
      assert newHead == head;
      SetRatingSum(tail, userId, storeId, v, now);
    }
  }

  /** After a successful update the user's rating for the store reads back as the new value. */
  lemma {:induction false} SetRatingReadBack(rs: seq<Rating>, userId: int, storeId: int, v: int, now: int)
    requires HasRating(rs, userId, storeId)
    ensures UserRatingFor(SetRating(rs, userId, storeId, v, now), userId, storeId) == Some(v)
  {
    SetRatingTail(rs, userId, storeId, v, now);
    if !SamePair(rs[0], userId, storeId) {
      assert HasRating(rs[1..], userId, storeId) by {
        var i :| 0 <= i < |rs| && rs[i].userId == userId && rs[i].storeId == storeId;
        assert i > 0 && rs[1..][i - 1] == rs[i];
      }
      SetRatingReadBack(rs[1..], userId, storeId, v, now);
    }
  }

  /** Repeating the same update changes nothing more. */
  lemma SetRatingIdempotent(rs: seq<Rating>, userId: int, storeId: int, v: int, now: int)
    ensures var once := SetRating(rs, userId, storeId, v, now);
      SetRating(once, userId, storeId, v, now) == once
  {
  }

  // ----- GET /stats -----

  /** The statistics the user dashboard shows. The average is exact (sum over count); the
      rounding to one decimal is not modelled. */
  datatype UserStats = UserStats(totalStores: nat, myRatings: nat, averageRating: Ratio)

  function Stats(stores: seq<Store>, rs: seq<Rating>, userId: int): UserStats
  {
    UserStats(|stores|, |OfUser(rs, userId)|, AverageOrZero(OfUser(rs, userId)))
  }

  /** With ratings in 1..5, the user's average is 0 exactly when the user has rated nothing,
      and otherwise lies between 1 and 5. */
  lemma StatsAverageMeaning(stores: seq<Store>, rs: seq<Rating>, userId: int)
    requires AllInRange(rs)
    ensures var st := Stats(stores, rs, userId);
      && (st.averageRating == Ratio(0, 1) <==> st.myRatings == 0)
      && (st.myRatings > 0 ==>
            st.averageRating.den == st.myRatings && st.myRatings <= st.averageRating.num <= 5 * st.myRatings)
  {
    var mine := OfUser(rs, userId);
    assert AllInRange(mine);
    AverageOrZeroMeaning(mine);
  }

  /** An inserted rating adds one to its user's count and leaves every other user's
      statistics as they were. */
  lemma StatsAfterSubmit(stores: seq<Store>, rs: seq<Rating>, row: Rating, other: int)
    requires other != row.userId
    ensures Stats(stores, rs + [row], row.userId).myRatings == Stats(stores, rs, row.userId).myRatings + 1
    ensures Stats(stores, rs + [row], other) == Stats(stores, rs, other)
  {
    OfUserAppend(rs, [row], row.userId);
    assert OfUser([row], row.userId) == [row];
    OfUserAppend(rs, [row], other);
    assert OfUser([row], other) == [];
    assert OfUser(rs + [row], other) == OfUser(rs, other);
  }

  // ----- GET /stores -----

  /** The caller's store list (defaults: search "", page 1, limit 12), with the caller's
      own rating on each row. */
  function UserStores(stores: seq<Store>, rs: seq<Rating>, userId: int, search: string, page: int, limit: int)
    : ListResult<StoreRow>
  {
    StoreListing(stores, rs, Some(userId), search, page, limit)
  }

  /** The main query's parameters: the user id for the `ur.user_id = ?` join, then two
      `%search%` patterns when a search is given. */
  function StoreListParams(userId: int, search: string): seq<Js>
  {
    [Num(userId)] + (if search != "" then [Pattern(search), Pattern(search)] else [])
  }

  /** The count query reuses the WHERE clause unchanged (its `.replace` finds nothing to
      replace) with `params.slice(1)`: exactly the search patterns, one per placeholder. */
  lemma CountParamsAreSearchParams(userId: int, search: string)
    ensures var conds := if search != "" then [NameOrAddressLike] else [];
      var count := StoreListParams(userId, search)[1..];
      |count| == Placeholders(conds) && forall p :: p in count ==> p == Pattern(search)
  {
  }

  /** Each row of the caller's list shows the caller's rating of that store exactly when the
      caller has rated it, and that rating is the stored value. */
  lemma UserStoresSpec(stores: seq<Store>, rs: seq<Rating>, userId: int, search: string, page: int, limit: int)
    requires UniquePairs(rs)
    ensures var r := UserStores(stores, rs, userId, search, page, limit);
      r.Listed? ==>
        && r.listing.totalCount == |MatchingStores(stores, search)|
        && forall row :: row in r.listing.data ==>
             exists s :: StoreRowOf(row, s, stores, rs, Some(userId), search) &&
               row.userRating == UserRatingFor(rs, userId, s.id)
  {
    StoreListingSpec(stores, rs, Some(userId), search, page, limit);
  }

  // ----- GET /my-ratings -----

  /** The user's own ratings, paginated (default page 1, limit 10). */
  function MyRatings(rs: seq<Rating>, userId: int, page: int, limit: int): ListResult<Rating>
  {
    Paginate(OfUser(rs, userId), page, limit)
  }

  /** Every listed rating is the user's, and the count is the number of the user's ratings. */
  lemma MyRatingsSpec(rs: seq<Rating>, userId: int, page: int, limit: int)
    ensures var r := MyRatings(rs, userId, page, limit);
      r.Listed? ==>
        && r.listing.totalCount == |OfUser(rs, userId)|
        && forall x :: x in r.listing.data ==> x in rs && x.userId == userId
  {
    PageRowsAreRows(OfUser(rs, userId), page, limit);
  }
}
