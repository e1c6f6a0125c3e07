/** The system administrator's routes: the dashboard counts, the user and store lists with
    their filters, and the creation of users and stores. */
module Admin {
  import opened Common
  import opened Tables
  import opened Query
  import opened PasswordRule

  // ----- GET /dashboard -----

  datatype AdminCounts = AdminCounts(totalUsers: nat, totalStores: nat, totalRatings: nat)

  function DashboardCounts(users: seq<User>, stores: seq<Store>, rs: seq<Rating>): AdminCounts
  {
    AdminCounts(|users|, |stores|, |rs|)
  }

  /** The dashboard's totals are the totals the unfiltered user and store lists report, on
      whichever page they are asked for. */
  lemma DashboardMatchesLists(users: seq<User>, stores: seq<Store>, rs: seq<Rating>, sortBy: string,
                              sortOrder: string, page: int, limit: int)
    ensures var r := ListUsers(users, "", "", sortBy, sortOrder, page, limit).2;
      r.Listed? ==> r.listing.totalCount == DashboardCounts(users, stores, rs).totalUsers
    ensures var r := ListStores(stores, users, rs, "", sortBy, sortOrder, page, limit).2;
      r.Listed? ==> r.listing.totalCount == DashboardCounts(users, stores, rs).totalStores
  {
    FilterAll(users, u => UserMatches(u, "", ""));
    FilterAll(stores, s => StoreRowMatches(s, ""));
  }

  // ----- GET /users -----

  /** The user list filters: `search` in name, e-mail or address, and an exact role. An empty
      value means no filter. */
  predicate UserMatches(u: User, search: string, role: string)
  {
    && (search == "" || Mentions(u.name, search) || Mentions(u.email, search) || Mentions(u.address, search))
    && (role == "" || u.role == role)
  }

  function MatchingUsers(users: seq<User>, search: string, role: string): (r: seq<User>)
    ensures forall u :: u in r <==> u in users && UserMatches(u, search, role)
  {
    Filter(users, u => UserMatches(u, search, role))
  }

  /** The conditions and parameters the user list appends to `WHERE 1=1`, one step at a time:
      the search condition with three patterns, then the role condition with the role. */
  method UserListQuery(search: string, role: string) returns (conds: seq<Cond>, params: seq<Js>)
    ensures conds == (if search != "" then [NameEmailOrAddressLike] else []) + (if role != "" then [RoleIs] else [])
    ensures params == (if search != "" then [Pattern(search), Pattern(search), Pattern(search)] else [])
                      + (if role != "" then [Str(role)] else [])
    ensures |params| == Placeholders(conds)
  {
    conds, params := [], [];
    if search != "" {
      conds := conds + [NameEmailOrAddressLike];
      params := params + [Pattern(search), Pattern(search), Pattern(search)];
    }
    if role != "" {
      PlaceholdersAppend(conds, [RoleIs]);
      conds := conds + [RoleIs];
      params := params + [Str(role)];
    }
  }

  /** A row of the user list: every column but the password. */
  datatype UserRow = UserRow(id: int, name: string, email: string, address: string, role: string, createdAt: int)

  function UserRows(us: seq<User>): (rows: seq<UserRow>)
    ensures |rows| == |us|
    ensures forall i :: 0 <= i < |us| ==>
      rows[i] == UserRow(us[i].id, us[i].name, us[i].email, us[i].address, us[i].role, us[i].createdAt)
  {
    seq(|us|, i requires 0 <= i < |us| => UserRow(us[i].id, us[i].name, us[i].email, us[i].address, us[i].role, us[i].createdAt))
  }

  /** GET /users (defaults: no search, no role, sort `created_at` descending, page 1, limit 10). */
  function ListUsers(users: seq<User>, search: string, role: string, sortBy: string, sortOrder: string,
                     page: int, limit: int): (string, string, ListResult<UserRow>)
  {
    (AdminUserSortColumn(sortBy), Order(sortOrder), Paginate(UserRows(MatchingUsers(users, search, role)), page, limit))
  }

  /** Every listed user matches the search and, when a role is given, has exactly that role;
      the total is the number of matching users. */
  lemma ListUsersSpec(users: seq<User>, search: string, role: string, sortBy: string, sortOrder: string,
                      page: int, limit: int)
    ensures var r := ListUsers(users, search, role, sortBy, sortOrder, page, limit).2;
      r.Listed? ==>
        && r.listing.totalCount == |MatchingUsers(users, search, role)|
        && forall row :: row in r.listing.data ==>
             (role != "" ==> row.role == role) &&
             exists u :: u in users && UserMatches(u, search, role) && u.id == row.id && u.email == row.email
  {
    var matching := MatchingUsers(users, search, role);
    var rows := UserRows(matching);
    PageRowsAreRows(rows, page, limit);
    forall row | row in rows
      ensures (role != "" ==> row.role == role) &&
        exists u :: u in users && UserMatches(u, search, role) && u.id == row.id && u.email == row.email
    {
      var i :| 0 <= i < |rows| && rows[i] == row;
      assert matching[i] in matching;
    }
  }

  // ----- GET /stores -----

  /** The admin store search: `search` in the store's name, e-mail or address. */
  predicate StoreRowMatches(s: Store, search: string)
  {
    search == "" || Mentions(s.name, search) || Mentions(s.email, search) || Mentions(s.address, search)
  }

  /** A row of the admin store list: the store, its owner's name and e-mail (NULL without an
      owner row), and its ratings' average and count. */
  datatype AdminStoreRow = AdminStoreRow(id: int, name: string, email: string, address: string, createdAt: int,
                                         ownerName: Option<string>, ownerEmail: Option<string>,
                                         averageRating: Option<Ratio>, totalRatings: nat)

  function AdminStoreRowFor(s: Store, users: seq<User>, rs: seq<Rating>): AdminStoreRow
  {
    var owner := if s.ownerId.Some? then FindUser(users, s.ownerId.value) else None;
    AdminStoreRow(s.id, s.name, s.email, s.address, s.createdAt,
                  if owner.Some? then Some(owner.value.name) else None,
                  if owner.Some? then Some(owner.value.email) else None,
                  Average(OfStore(rs, s.id)), |OfStore(rs, s.id)|)
  }

  function AdminStoreRows(matching: seq<Store>, users: seq<User>, rs: seq<Rating>): (rows: seq<AdminStoreRow>)
    ensures |rows| == |matching|
    ensures forall i :: 0 <= i < |matching| ==> rows[i] == AdminStoreRowFor(matching[i], users, rs)
  {
    seq(|matching|, i requires 0 <= i < |matching| => AdminStoreRowFor(matching[i], users, rs))
  }

  /** GET /stores (defaults: no search, sort `created_at` descending, page 1, limit 10). */
  function ListStores(stores: seq<Store>, users: seq<User>, rs: seq<Rating>, search: string, sortBy: string,
                      sortOrder: string, page: int, limit: int): (string, string, ListResult<AdminStoreRow>)
  {
    (AdminStoreSortColumn(sortBy), Order(sortOrder),
     Paginate(AdminStoreRows(Filter(stores, s => StoreRowMatches(s, search)), users, rs), page, limit))
  }

  /** `row` shows store `s` of the table, which matches the search, with its true rating
      count and average. */
  predicate AdminStoreRowOf(row: AdminStoreRow, s: Store, stores: seq<Store>, rs: seq<Rating>, search: string)
  {
    && s in stores && StoreRowMatches(s, search) && s.id == row.id
    && row.totalRatings == |OfStore(rs, s.id)| && row.averageRating == Average(OfStore(rs, s.id))
  }

  /** The total is the number of stores matching the search, and every listed store matches
      the search and carries its true rating count and average. */
  lemma ListStoresSpec(stores: seq<Store>, users: seq<User>, rs: seq<Rating>, search: string, sortBy: string,
                       sortOrder: string, page: int, limit: int)
    ensures var r := ListStores(stores, users, rs, search, sortBy, sortOrder, page, limit).2;
      r.Listed? ==>
        && r.listing.totalCount == |Filter(stores, s => StoreRowMatches(s, search))|
        && forall row :: row in r.listing.data ==> exists s :: AdminStoreRowOf(row, s, stores, rs, search)
  {
    var matching := Filter(stores, s => StoreRowMatches(s, search));
    var rows := AdminStoreRows(matching, users, rs);
    assert ListStores(stores, users, rs, search, sortBy, sortOrder, page, limit).2 == Paginate(rows, page, limit);
    PageRowsAreRows(rows, page, limit);
    forall row | row in rows ensures exists s :: AdminStoreRowOf(row, s, stores, rs, search) {
      var i :| 0 <= i < |rows| && rows[i] == row;
      assert matching[i] in matching;
      assert AdminStoreRowOf(row, matching[i], stores, rs, search);
    }
  }

  // ----- POST /users -----

  datatype UserForm = UserForm(name: string, email: string, password: string, address: string, role: string)

  /** The request validators: name of 20 to 60 characters as `isLength` counts them, a valid
      e-mail, the password rule, an address of at most 400 characters (empty allowed), and one
      of the three roles. */
  predicate ValidUserForm(f: UserForm, isEmail: string -> bool)
  {
    && 20 <= ValidatorLength(f.name) <= 60
    && isEmail(f.email)
    && IsValidPassword(f.password)
    && ValidatorLength(f.address) <= 400
    && f.role in Roles
  }

  datatype CreateUserOutcome =
    | UserValidationFailed   // 400 "Validation failed"
    | UserEmailInUse         // 400 "User already exists with this email"
    | UserCreated(userId: int)   // 201 with the new id

  /** Validate, refuse an e-mail address already in use, then insert the user with the hashed
      password (bcrypt with 12 salt rounds, a parameter here) under the next id. */
  method CreateUser(db: Database, f: UserForm, isEmail: string -> bool, hash: string -> string, now: int)
    returns (o: CreateUserOutcome)
    modifies db
    ensures !ValidUserForm(f, isEmail) ==> o == UserValidationFailed
    ensures ValidUserForm(f, isEmail) && EmailTaken(old(db.users), f.email) ==> o == UserEmailInUse
    ensures o.UserCreated? <==> ValidUserForm(f, isEmail) && !EmailTaken(old(db.users), f.email)
    ensures !o.UserCreated? ==> unchanged(db)
    ensures o.UserCreated? ==>
      && o.userId == old(db.nextUserId)
      && db.users == old(db.users) + [User(o.userId, f.name, f.email, hash(f.password), f.address, f.role, now)]
      && db.nextUserId == old(db.nextUserId) + 1
      && db.stores == old(db.stores) && db.ratings == old(db.ratings)
      && db.nextStoreId == old(db.nextStoreId) && db.nextRatingId == old(db.nextRatingId)
    ensures old(db.Valid()) ==> db.Valid()
  {
    if !ValidUserForm(f, isEmail) {
      return UserValidationFailed;
    }
    if exists i :: 0 <= i < |db.users| && db.users[i].email == f.email {
      return UserEmailInUse;
    }
    var id := db.nextUserId;
    var row := User(id, f.name, f.email, hash(f.password), f.address, f.role, now);
    if db.Valid() {
      AppendKeepsUserEmailsUnique(db.users, row);
      UserAppendKeepsReferences(db.users, db.stores, db.ratings, row);
    }
    db.users := db.users + [row];
    db.nextUserId := id + 1;
    o := UserCreated(id);
  }

  lemma AppendKeepsUserEmailsUnique(users: seq<User>, row: User)
    requires UniqueUserEmails(users) && !EmailTaken(users, row.email)
    ensures UniqueUserEmails(users + [row])
  {
    var t := users + [row];
    forall i, j | 0 <= i < j < |t| ensures t[i].email != t[j].email {
      if j == |users| {
        assert t[i] == users[i];
      }
    }
  }

  // ----- POST /stores -----

  datatype StoreForm = StoreForm(name: string, email: string, address: string, ownerEmail: string)

  /** The request validators: a non-empty name, valid store and owner e-mails, and an address
      of at most 400 characters. */
  predicate ValidStoreForm(f: StoreForm, isEmail: string -> bool)
  {
    f.name != "" && isEmail(f.email) && ValidatorLength(f.address) <= 400 && isEmail(f.ownerEmail)
  }

  /** `SELECT id FROM users WHERE email = ? AND role = 'store_owner'`, first row. */
  function FindStoreOwner(users: seq<User>, email: string): (r: Option<User>)
    ensures r.Some? ==> r.value in users && r.value.email == email && r.value.role == StoreOwner
    ensures r.None? <==> !exists u :: u in users && u.email == email && u.role == StoreOwner
  {
    if users == [] then None
    else if users[0].email == email && users[0].role == StoreOwner then Some(users[0])
    else
      assert forall u :: u in users[1..] ==> u in users;
      assert forall u :: u in users && u != users[0] ==> u in users[1..];
      FindStoreOwner(users[1..], email)
  }

  datatype CreateStoreOutcome =
    | StoreValidationFailed       // 400 "Validation failed"
    | StoreEmailInUse             // 400 "Store already exists with this email"
    | OwnerNotFound               // 400 "Owner not found or user is not a store owner"
    | StoreCreated(storeId: int)  // 201 with the new id

  /** Validate, refuse a store e-mail already in use, require a user with the owner e-mail and
      the store owner role, then insert the store owned by that user under the next id. */
  method CreateStore(db: Database, f: StoreForm, isEmail: string -> bool, now: int) returns (o: CreateStoreOutcome)
    modifies db
    ensures !ValidStoreForm(f, isEmail) ==> o == StoreValidationFailed
    ensures ValidStoreForm(f, isEmail) && StoreEmailTaken(old(db.stores), f.email) ==> o == StoreEmailInUse
    ensures (ValidStoreForm(f, isEmail) && !StoreEmailTaken(old(db.stores), f.email) &&
             FindStoreOwner(old(db.users), f.ownerEmail).None?) ==> o == OwnerNotFound
    ensures o.StoreCreated? <==>
      (ValidStoreForm(f, isEmail) && !StoreEmailTaken(old(db.stores), f.email) &&
       FindStoreOwner(old(db.users), f.ownerEmail).Some?)
    ensures !o.StoreCreated? ==> unchanged(db)
    ensures o.StoreCreated? ==>
      var owner := FindStoreOwner(old(db.users), f.ownerEmail).value;
      && o.storeId == old(db.nextStoreId)
      && db.stores == old(db.stores) + [Store(o.storeId, f.name, f.email, f.address, Some(owner.id), now)]
      && db.nextStoreId == old(db.nextStoreId) + 1
      && db.users == old(db.users) && db.ratings == old(db.ratings)
      && db.nextUserId == old(db.nextUserId) && db.nextRatingId == old(db.nextRatingId)
    ensures old(db.Valid()) ==> db.Valid()
  {
    if !ValidStoreForm(f, isEmail) {
      return StoreValidationFailed;
    }
    if exists i :: 0 <= i < |db.stores| && db.stores[i].email == f.email {
      return StoreEmailInUse;
    }
    var owner := FindStoreOwner(db.users, f.ownerEmail);
    if owner.None? {
      return OwnerNotFound;
    }
    var id := db.nextStoreId;
    var row := Store(id, f.name, f.email, f.address, Some(owner.value.id), now);
    if db.Valid() {
      AppendKeepsStoreEmailsUnique(db.stores, row);
      StoreAppendKeepsReferences(db.users, db.stores, db.ratings, row);
    }
    db.stores := db.stores + [row];
    db.nextStoreId := id + 1;
    o := StoreCreated(id);
  }

  lemma AppendKeepsStoreEmailsUnique(stores: seq<Store>, row: Store)
    requires UniqueStoreEmails(stores) && !StoreEmailTaken(stores, row.email)
    ensures UniqueStoreEmails(stores + [row])
  {
    var t := stores + [row];
    forall i, j | 0 <= i < j < |t| ensures t[i].email != t[j].email {
      if j == |stores| {
        assert t[i] == stores[i];
      }
    }
  }

  /** The owner a created store gets is a store owner with the given e-mail, so the new
      store shows up on that owner's dashboard unless the owner already had a store. */
  lemma CreatedStoreOwner(users: seq<User>, stores: seq<Store>, f: StoreForm, id: int, now: int)
    requires FindStoreOwner(users, f.ownerEmail).Some?
    ensures var owner := FindStoreOwner(users, f.ownerEmail).value;
      var row := Store(id, f.name, f.email, f.address, Some(owner.id), now);
      && owner in users && owner.role == StoreOwner && owner.email == f.ownerEmail
      && FindOwnedStore(stores + [row], owner.id).Some?
      && (FindOwnedStore(stores, owner.id).None? ==> FindOwnedStore(stores + [row], owner.id) == Some(row))
  {
    var owner := FindStoreOwner(users, f.ownerEmail).value;
    var row := Store(id, f.name, f.email, f.address, Some(owner.id), now);
    FindOwnedStoreAppend(stores, row, owner.id);
  }

  lemma {:induction false} FindOwnedStoreAppend(stores: seq<Store>, row: Store, ownerId: int)
    requires row.ownerId == Some(ownerId)
    ensures FindOwnedStore(stores + [row], ownerId) ==
      if FindOwnedStore(stores, ownerId).Some? then FindOwnedStore(stores, ownerId) else Some(row)
  {
    if stores != [] {
      assert (stores + [row])[1..] == stores[1..] + [row];
      FindOwnedStoreAppend(stores[1..], row, ownerId);
    }
  }
}
