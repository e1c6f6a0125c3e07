/** The three database tables (users, stores, ratings), the shared database handle,
    and the aggregates (COUNT, SUM, AVG) the handlers compute over them. */
module Tables {
  import opened Common

  const SystemAdmin: string := "system_admin"
  const NormalUser: string := "user"
  const StoreOwner: string := "store_owner"

  /** The roles a user row may carry. */
  const Roles: seq<string> := [SystemAdmin, NormalUser, StoreOwner]

  datatype User = User(id: int, name: string, email: string, password: string,
                       address: string, role: string, createdAt: int)

  datatype Store = Store(id: int, name: string, email: string, address: string,
                         ownerId: Option<int>, createdAt: int)

  /** A row of the ratings table; `updatedAt` is NULL until the first update. */
  datatype Rating = Rating(id: int, userId: int, storeId: int, rating: int,
                           createdAt: int, updatedAt: Option<int>)

  /** The request validator's `isInt({ min: 1, max: 5 })` on the rating field. The validator
      reads the body's value as text first (`String(value)`, "" for a missing field), so `t` is
      that text: an optional sign and digits whose value lies in 1..5. */
  predicate IsRatingValue(t: string)
  {
    IsIntText(t) && 1 <= IntTextValue(t) <= 5
  }

  /** The number the database stores for an accepted rating field. */
  function RatingOf(t: string): (v: int)
    requires IsRatingValue(t)
    ensures 1 <= v <= 5
  {
    IntTextValue(t)
  }

  // ----- lookups (`SELECT ... WHERE ... = ?`) -----

  predicate StoreExists(stores: seq<Store>, id: int)
  {
    exists i :: 0 <= i < |stores| && stores[i].id == id
  }

  predicate UserExists(users: seq<User>, id: int)
  {
    exists i :: 0 <= i < |users| && users[i].id == id
  }

  predicate HasRating(rs: seq<Rating>, userId: int, storeId: int)
  {
    exists i :: 0 <= i < |rs| && rs[i].userId == userId && rs[i].storeId == storeId
  }

  predicate EmailTaken(users: seq<User>, email: string)
  {
    exists i :: 0 <= i < |users| && users[i].email == email
  }

  predicate StoreEmailTaken(stores: seq<Store>, email: string)
  {
    exists i :: 0 <= i < |stores| && stores[i].email == email
  }

  /** The first user row with the given id (`SELECT ... FROM users WHERE id = ?`, row 0). */
  function FindUser(users: seq<User>, id: int): (r: Option<User>)
    ensures r.Some? ==> r.value in users && r.value.id == id
    ensures r.None? ==> forall u :: u in users ==> u.id != id
    ensures r.Some? <==> UserExists(users, id)
  {
    if users == [] then None
    else if users[0].id == id then Some(users[0])
    else
      var r := FindUser(users[1..], id);
      assert UserExists(users, id) ==> UserExists(users[1..], id) by {
        if UserExists(users, id) {
          var i :| 0 <= i < |users| && users[i].id == id;
          assert users[1..][i - 1] == users[i];
        }
      }
      r
  }

  /** The first store row with the given id. */
  function FindStore(stores: seq<Store>, id: int): (r: Option<Store>)
    ensures r.Some? ==> r.value in stores && r.value.id == id
    ensures r.None? <==> !StoreExists(stores, id)
  {
    if stores == [] then None
    else if stores[0].id == id then Some(stores[0])
    else
      var r := FindStore(stores[1..], id);
      assert StoreExists(stores, id) ==> StoreExists(stores[1..], id) by {
        if StoreExists(stores, id) {
          var i :| 0 <= i < |stores| && stores[i].id == id;
          assert stores[1..][i - 1] == stores[i];
        }
      }
      r
  }

  /** The first store owned by `ownerId` (`SELECT ... WHERE owner_id = ? LIMIT 1`). */
  function FindOwnedStore(stores: seq<Store>, ownerId: int): (r: Option<Store>)
    ensures r.Some? ==> r.value in stores && r.value.ownerId == Some(ownerId)
    ensures r.None? ==> forall s :: s in stores ==> s.ownerId != Some(ownerId)
  {
    if stores == [] then None
    else if stores[0].ownerId == Some(ownerId) then Some(stores[0])
    else FindOwnedStore(stores[1..], ownerId)
  }

  predicate SamePair(r: Rating, userId: int, storeId: int)
  {
    r.userId == userId && r.storeId == storeId
  }

  /** The rating the user gave the store (`ur.rating`), from the first matching row. */
  function UserRatingFor(rs: seq<Rating>, userId: int, storeId: int): (v: Option<int>)
    ensures v.None? <==> !HasRating(rs, userId, storeId)
    ensures v.Some? ==> exists i :: 0 <= i < |rs| && SamePair(rs[i], userId, storeId) && rs[i].rating == v.value
  {
    if rs == [] then None
    else if SamePair(rs[0], userId, storeId) then Some(rs[0].rating)
    else
      var v := UserRatingFor(rs[1..], userId, storeId);
      assert HasRating(rs, userId, storeId) ==> HasRating(rs[1..], userId, storeId) by {
        if HasRating(rs, userId, storeId) {
          var i :| 0 <= i < |rs| && rs[i].userId == userId && rs[i].storeId == storeId;
          assert rs[1..][i - 1] == rs[i];
        }
      }
      assert v.Some? ==> exists i :: 0 <= i < |rs| && SamePair(rs[i], userId, storeId) && rs[i].rating == v.value by {
        if v.Some? {
          var i :| 0 <= i < |rs[1..]| && SamePair(rs[1..][i], userId, storeId) && rs[1..][i].rating == v.value;
          assert rs[i + 1] == rs[1..][i];
        }
      }
      v
  }

  // ----- store search -----

  /** `search` matches a store when empty (no filter), or when it occurs in the name or address. */
  predicate SearchMatches(s: Store, search: string)
  {
    search == "" || Mentions(s.name, search) || Mentions(s.address, search)
  }

  /** `WHERE 1=1 [AND (s.name LIKE ? OR s.address LIKE ?)]` on the stores table. */
  function MatchingStores(stores: seq<Store>, search: string): (r: seq<Store>)
    ensures forall s :: s in r <==> s in stores && SearchMatches(s, search)
  {
    Filter(stores, s => SearchMatches(s, search))
  }

  // ----- the one-rating-per-pair invariant -----

  /** At most one row per (user, store) pair. The source has no uniqueness constraint:
      this holds only because the handlers keep it. */
  predicate UniquePairs(rs: seq<Rating>)
  {
    forall i, j :: 0 <= i < j < |rs| ==>
      rs[i].userId != rs[j].userId || rs[i].storeId != rs[j].storeId
  }

  predicate UniqueUserEmails(users: seq<User>)
  {
    forall i, j :: 0 <= i < j < |users| ==> users[i].email != users[j].email
  }

  predicate UniqueStoreEmails(stores: seq<Store>)
  {
    forall i, j :: 0 <= i < j < |stores| ==> stores[i].email != stores[j].email
  }

  /** A pair has a rating in a non-empty table exactly when the first row is for that pair
      or the rest of the table has one. */
  lemma HasRatingCons(rs: seq<Rating>, userId: int, storeId: int)
    requires rs != []
    ensures HasRating(rs, userId, storeId) <==>
      (rs[0].userId == userId && rs[0].storeId == storeId) || HasRating(rs[1..], userId, storeId)
  {
    if HasRating(rs[1..], userId, storeId) {
      var i :| 0 <= i < |rs[1..]| && rs[1..][i].userId == userId && rs[1..][i].storeId == storeId;
      assert rs[i + 1] == rs[1..][i];
    }
    if HasRating(rs, userId, storeId) && !(rs[0].userId == userId && rs[0].storeId == storeId) {
      var i :| 0 <= i < |rs| && rs[i].userId == userId && rs[i].storeId == storeId;
      assert rs[1..][i - 1] == rs[i];
    }
  }

  lemma UniquePairsTail(rs: seq<Rating>)
    requires rs != [] && UniquePairs(rs)
    ensures UniquePairs(rs[1..])
    ensures !HasRating(rs[1..], rs[0].userId, rs[0].storeId)
  {
    var tail := rs[1..];
    forall i, j | 0 <= i < j < |tail| ensures tail[i].userId != tail[j].userId || tail[i].storeId != tail[j].storeId {
      assert tail[i] == rs[i + 1] && tail[j] == rs[j + 1];
    }
  }

  /** How many rows the table holds for the pair: the rows a `LEFT JOIN ratings ur ON
      s.id = ur.store_id AND ur.user_id = ?` attaches to each row of the store. */
  function PairCount(rs: seq<Rating>, userId: int, storeId: int): (n: nat)
    ensures n <= |rs|
    ensures n > 0 <==> HasRating(rs, userId, storeId)
  {
    if rs == [] then 0
    else
      HasRatingCons(rs, userId, storeId);
      (if SamePair(rs[0], userId, storeId) then 1 else 0) + PairCount(rs[1..], userId, storeId)
  }

  /** With one rating per pair, a pair has at most one row. */
  lemma {:induction false} UniquePairCount(rs: seq<Rating>, userId: int, storeId: int)
    requires UniquePairs(rs)
    ensures PairCount(rs, userId, storeId) <= 1
  {
    if rs != [] {
      UniquePairsTail(rs);
      UniquePairCount(rs[1..], userId, storeId);
    }
  }

  // ----- referential integrity -----

  /** Every rating names a user and a store that exist. The rating lists join `users` and
      `stores` with an inner JOIN, which would drop a rating without them while the count
      queries still count it; the handlers never create such a rating and nothing is deleted. */
  predicate RatingsReferToRows(users: seq<User>, stores: seq<Store>, rs: seq<Rating>)
  {
    forall r :: r in rs ==> UserExists(users, r.userId) && StoreExists(stores, r.storeId)
  }

  /** Under that invariant the inner joins find the user and the store of every rating. */
  lemma InnerJoinsKeepEveryRating(users: seq<User>, stores: seq<Store>, rs: seq<Rating>)
    requires RatingsReferToRows(users, stores, rs)
    ensures forall r :: r in rs ==> FindUser(users, r.userId).Some? && FindStore(stores, r.storeId).Some?
  {
  }

  /** A new user keeps every rating's references. */
  lemma UserAppendKeepsReferences(users: seq<User>, stores: seq<Store>, rs: seq<Rating>, row: User)
    requires RatingsReferToRows(users, stores, rs)
    ensures RatingsReferToRows(users + [row], stores, rs)
  {
    forall r | r in rs ensures UserExists(users + [row], r.userId) {
      var i :| 0 <= i < |users| && users[i].id == r.userId;
      assert (users + [row])[i] == users[i];
    }
  }

  /** A new store keeps every rating's references. */
  lemma StoreAppendKeepsReferences(users: seq<User>, stores: seq<Store>, rs: seq<Rating>, row: Store)
    requires RatingsReferToRows(users, stores, rs)
    ensures RatingsReferToRows(users, stores + [row], rs)
  {
    forall r | r in rs ensures StoreExists(stores + [row], r.storeId) {
      var i :| 0 <= i < |stores| && stores[i].id == r.storeId;
      assert (stores + [row])[i] == stores[i];
    }
  }

  // ----- aggregates -----

  /** `WHERE store_id = ?` on the ratings table, in table order. */
  function OfStore(rs: seq<Rating>, storeId: int): (r: seq<Rating>)
    ensures |r| <= |rs|
    ensures forall x :: x in r ==> x in rs && x.storeId == storeId
  {
    if rs == [] then []
    else (if rs[0].storeId == storeId then [rs[0]] else []) + OfStore(rs[1..], storeId)
  }

  /** `WHERE user_id = ?` on the ratings table, in table order. */
  function OfUser(rs: seq<Rating>, userId: int): (r: seq<Rating>)
    ensures |r| <= |rs|
    ensures forall x :: x in r <==> x in rs && x.userId == userId
  {
    if rs == [] then []
    else
      assert rs == [rs[0]] + rs[1..];
      (if rs[0].userId == userId then [rs[0]] else []) + OfUser(rs[1..], userId)
  }

  /** `SUM(rating)`. */
  function Sum(rs: seq<Rating>): int
  {
    if rs == [] then 0 else rs[0].rating + Sum(rs[1..])
  }

  predicate AllInRange(rs: seq<Rating>)
  {
    forall x :: x in rs ==> 1 <= x.rating <= 5
  }

  /** An exact average `sum / count`. */
  datatype Ratio = Ratio(num: int, den: int)

  /** `AVG(rating)`: NULL (None) over no rows. */
  function Average(rs: seq<Rating>): (r: Option<Ratio>)
    ensures r.None? <==> rs == []
    ensures r.Some? ==> r.value.den == |rs| > 0
  {
    if rs == [] then None else Some(Ratio(Sum(rs), |rs|))
  }

  /** `avg ? parseFloat(avg) : 0`: the average, or 0 when AVG is NULL. */
  function AverageOrZero(rs: seq<Rating>): Ratio
  {
    match Average(rs)
    case None => Ratio(0, 1)
    case Some(a) => if a.num == 0 then Ratio(0, 1) else a
  }

  lemma {:induction false} SumBounds(rs: seq<Rating>)
    requires AllInRange(rs)
    ensures |rs| <= Sum(rs) <= 5 * |rs|
  {
    if rs != [] {
      assert rs[0] in rs;
      assert forall x :: x in rs[1..] ==> x in rs;
      SumBounds(rs[1..]);
    }
  }

  /** With ratings in 1..5 the reported average is 0 exactly when there are no ratings,
      and otherwise lies between 1 and 5. */
  lemma AverageOrZeroMeaning(rs: seq<Rating>)
    requires AllInRange(rs)
    ensures AverageOrZero(rs) == Ratio(0, 1) <==> rs == []
    ensures rs != [] ==> AverageOrZero(rs) == Ratio(Sum(rs), |rs|)
    ensures rs != [] ==> AverageOrZero(rs).den <= AverageOrZero(rs).num <= 5 * AverageOrZero(rs).den
  {
    SumBounds(rs);
  }

  lemma {:induction false} OfStoreAppend(a: seq<Rating>, b: seq<Rating>, storeId: int)
    ensures OfStore(a + b, storeId) == OfStore(a, storeId) + OfStore(b, storeId)
  {
    if a == [] {
      assert a + b == b;
    } else {
      assert (a + b)[1..] == a[1..] + b;
      OfStoreAppend(a[1..], b, storeId);
    }
  }

  lemma {:induction false} OfUserAppend(a: seq<Rating>, b: seq<Rating>, userId: int)
    ensures OfUser(a + b, userId) == OfUser(a, userId) + OfUser(b, userId)
  {
    if a == [] {
      assert a + b == b;
    } else {
      assert (a + b)[1..] == a[1..] + b;
      OfUserAppend(a[1..], b, userId);
    }
  }

  lemma {:induction false} SumAppend(a: seq<Rating>, b: seq<Rating>)
    ensures Sum(a + b) == Sum(a) + Sum(b)
  {
    if a == [] {
      assert a + b == b;
    } else {
      assert (a + b)[1..] == a[1..] + b;
      SumAppend(a[1..], b);
    }
  }

  /** Every row of the table for the store is in `OfStore`, and nothing else: the count of a
      store's ratings is the number of rows carrying its id. */
  lemma {:induction false} OfStoreHas(rs: seq<Rating>, storeId: int, x: Rating)
    ensures x in OfStore(rs, storeId) <==> x in rs && x.storeId == storeId
  {
    if rs != [] {
      OfStoreHas(rs[1..], storeId, x);
      assert rs == [rs[0]] + rs[1..];
    }
  }

  /** The database the handlers share: three tables and their auto-increment counters. */
  class Database {
    var users: seq<User>
    var stores: seq<Store>
    var ratings: seq<Rating>
    var nextUserId: int
    var nextStoreId: int
    var nextRatingId: int

    /** The invariants the handlers keep: one rating per pair, every stored rating in 1..5,
        unique e-mail addresses, every rating naming an existing user and store, and every
        id below its table's counter. */
    ghost predicate Valid()
      reads this
    {
      && UniquePairs(ratings)
      && AllInRange(ratings)
      && RatingsReferToRows(users, stores, ratings)
      && UniqueUserEmails(users)
      && UniqueStoreEmails(stores)
      && (forall u :: u in users ==> u.id < nextUserId)
      && (forall s :: s in stores ==> s.id < nextStoreId)
      && (forall r :: r in ratings ==> r.id < nextRatingId)
    }

    constructor ()
      ensures Valid()
      ensures users == [] && stores == [] && ratings == []
      ensures nextUserId == 1 && nextStoreId == 1 && nextRatingId == 1
    {
      users, stores, ratings := [], [], [];
      nextUserId, nextStoreId, nextRatingId := 1, 1, 1;
    }
  }
}
