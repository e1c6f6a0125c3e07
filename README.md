# Store rating app — a Dafny model

This project models a role-based store-rating application. It has three kinds of user:

- **System administrator** (`system_admin`): manages users and stores.
- **Normal user** (`user`): browses stores and rates each one from 1 to 5.
- **Store owner** (`store_owner`): sees the ratings their store received.

The backend is an Express server that runs SQL against three tables: users, stores and ratings. The frontend is a React client. The model covers the following.

**Backend**

- The ratings table as a state machine:
  - submit and update, with their fixed order of checks and their status codes;
  - the invariant of at most one rating per (user, store) pair, which the submit handler checks explicitly before inserting (authController.js:147-154);
  - the invariant that every rating names an existing user and store, which makes the inner JOINs of the rating lists drop no rating;
  - the invariant that every stored rating lies in 1..5, since the handlers store only values their validator accepts, on which the average lemmas rely.
- The aggregates over that table:
  - per-user and per-store counts and averages, where 0 stands for "no ratings";
  - the top-five ranking of the statistics endpoint.
- The query-shape normalisation the list handlers repeat:
  - the sort-column whitelists;
  - the ASC/DESC normalisation;
  - the offset and page-count arithmetic;
  - the placeholder parameters the WHERE clause is given.
- The administrator's user and store creation, with the duplicate-email and owner-role checks.
- The `auth` middleware and the `requireRole` guard.

**Frontend**

- The form schemas, and how they relate to the server's validators.
- The list views as classes whose methods update their state fields:
  - the normal user's store list;
  - the owner's dashboard;
  - the administrator's store table;
  - the rating modal;
  - the navigation bar.
- The client routes: the protected, public and home guards, and the route table.

**Modelling choices**

- Averages are exact `Ratio(sum, count)` values over integers; floating point is not modelled.
- The database is one `Tables.Database` object whose fields are the three tables and their auto-increment counters. Handlers are methods that `modify` it.
- The ratings table is a `seq<Rating>`, not a map keyed by (user, store). The SQL table has no uniqueness constraint. With a sequence, "one rating per pair" (`Tables.UniquePairs`) is a real invariant that `SubmitRating` and `UpdateRating` are proved to preserve. With a map it would hold by construction and say nothing about the handlers.
- Lookups return the first matching row, as `rows[0]` does in the source.
- Collaborators the code calls but does not define are function-typed parameters:
  - `jwt.verify`, a token to an optional user id;
  - `bcrypt.hash`;
  - the e-mail validators of express-validator and yup;
  - `Number(...)` in the rating modal.
- Clocks (`NOW()`) are an integer parameter.
- The client's API calls are replaced by their outcome, passed to the handler as a datatype (`ApiResult`, `FetchResult`, `StoresFetch`, `RatingsFetch`, `CreateResult`).

## Model

| member | source | states |
|---|---|---|
| Tables.FindUser | backend/middleware/auth.js:15-19 | the user found has the requested id and is a row of the table; none is found only when no row has that id; a user is found exactly when some row has that id |
| Tables.InnerJoinsKeepEveryRating | backend/controllers/storeController.js:113-125 | when every rating names an existing user and store, the JOIN with users and the JOIN with stores find a row for every rating |
| Tables.UserAppendKeepsReferences | backend/routes/admin.js:128-131 | inserting a user keeps every rating's user and store present |
| Tables.StoreAppendKeepsReferences | backend/routes/admin.js:245-248 | inserting a store keeps every rating's user and store present |
| Tables.FindStore | backend/controllers/authController.js:142-145 | a store is found exactly when one with that id exists, and it is a row with that id |
| Tables.FindOwnedStore | backend/routes/store.js:18-35 | the store found is owned by the caller; none is found only when the caller owns no store |
| Tables.UserRatingFor | backend/controllers/authController.js:93-96 | the user's rating of a store is absent exactly when the table has no row for the pair, and otherwise is the value of such a row |
| Tables.RatingOf | backend/controllers/authController.js:124-125 | a rating field the validator accepts stores a number between 1 and 5 |
| Tables.PairCount | backend/controllers/storeController.js:255 | the `ur` join attaches rows to a store exactly when the table holds a rating of the pair, and never more rows than the table has |
| Tables.UniquePairCount | backend/controllers/storeController.js:255 | with one rating per pair, the join attaches at most one row |
| Tables.MatchingStores | backend/controllers/storeController.js:15-21 | a store is selected exactly when it is in the table and the search is empty or occurs in its name or address |
| Tables.OfStore | backend/controllers/storeController.js:127-130 | every selected rating is a row of the table for that store |
| Tables.OfStoreHas | backend/controllers/storeController.js:127-130 | a rating is selected for a store if and only if it is a row of the table carrying that store's id |
| Tables.OfUser | backend/controllers/authController.js:235-238 | a rating is selected exactly when it is a row of the table given by that user |
| Tables.Average | backend/controllers/storeController.js:36-37 | AVG is NULL exactly over no rows, and otherwise its denominator is the number of rows |
| Tables.AverageOrZeroMeaning | backend/controllers/authController.js:22-24 | with ratings in 1..5 the reported average is 0 exactly when there are no ratings, and otherwise it is sum over count and lies between 1 and 5 |
| Common.OrText | frontend/src/components/user/StoreList.jsx:52 | an error message that is present is shown, and the fallback text is shown only when the message is missing |
| Common.Filter | frontend/src/components/store/StoreDashboard.jsx:436 | an element is kept exactly when it is in the input and satisfies the predicate |
| Common.FilterMultiplicity | frontend/src/components/store/StoreDashboard.jsx:436 | filtering keeps each satisfying element as often as it occurs and drops every other one |
| Common.IndexOf | backend/middleware/auth.js:6 | the index found is the first occurrence of the pattern; none is found only when it occurs nowhere |
| Common.ReplaceFirstCharCount | frontend/src/components/layout/Navbar.jsx:71 | replacing the first occurrence of a character removes exactly one occurrence and keeps the length; without an occurrence the text is unchanged |
| Common.FilterAll | backend/routes/admin.js:50 | `WHERE 1=1` without a filter selects the whole table, in order |
| Common.Utf16Length | frontend/src/utils/validation.js:7-8 | `length` counts each character once and each astral character a second time |
| Common.ValidatorLength | backend/routes/admin.js:99 | `isLength` counts each character except the presentation selectors, so it never exceeds the number of characters nor the `length` |
| Common.NumberTextRoundTrip | backend/controllers/authController.js:124-125 | a printed integer reads back, as the validator reads it, as an integer text with the same value |
| Query.StoreSortColumn | backend/controllers/storeController.js:23-25 | the column is one of three; it is `AVG(r.rating)` exactly for averageRating and `s.created_at` exactly for created_at, and every other input gives `s.name` |
| Query.OwnerRatingsSortColumn | backend/routes/store.js:74-76 | the column is one of three; it is `u.name` exactly for userName and `r.rating` exactly for rating, and every other input gives `r.created_at` |
| Query.AdminUserSortColumn | backend/routes/admin.js:63-64 | the column is one of the four whitelisted names; it is the requested one exactly when that is whitelisted, and created_at otherwise |
| Query.AdminStoreSortColumn | backend/routes/admin.js:163-165 | the column is one of four; it is `AVG(r.rating)`, `s.name` or `s.email` exactly for averageRating, name or email, and every other input gives `s.created_at` |
| Query.Order | backend/controllers/storeController.js:26 | the direction is always ASC or DESC |
| Query.OrderAscExactly | backend/controllers/storeController.js:26 | the order is ASC if and only if the request is one of the eight case spellings of "asc" |
| Query.TotalPages | backend/controllers/storeController.js:57 | the page count is null in the JSON exactly when the limit is 0 |
| Query.TotalPagesIsCeiling | backend/controllers/storeController.js:57 | for a positive limit the page count is the least number of pages that holds every row |
| Query.TotalPagesZeroIffEmpty | backend/controllers/storeController.js:57 | for a positive limit there are no pages if and only if there are no rows |
| Query.PageOf | backend/controllers/storeController.js:44-45 | LIMIT/OFFSET fails exactly for a negative offset or limit; otherwise the page has min(limit, rows left) rows, the rows from the offset on, in order |
| Query.Paginate | backend/controllers/storeController.js:54-59 | a listing is sent exactly when the offset and limit are valid; it reports the full row count, the requested page, the ceiling page count, and the rows of that page |
| Query.PageRowsAreRows | backend/controllers/storeController.js:44-45 | a page only holds rows of the listing it was cut from |
| Query.PagesCoverRows | backend/controllers/storeController.js:28 | page p of a positive limit holds exactly rows (p-1)*limit to p*limit, and every page before the last is full |
| Ranking.Summarize | backend/controllers/storeController.js:163-173 | one aggregate per store, in table order, with that store's true rating count and rating total |
| Ranking.SummarizeTrue | backend/controllers/storeController.js:163-173 | every aggregate is the true aggregate of some store of the table |
| Ranking.AvgTransitive | backend/controllers/storeController.js:174 | comparing averages by cross-multiplication is transitive, and strict when either step is strict |
| Ranking.RanksTransitive | backend/controllers/storeController.js:174 | the order "higher average, then more ratings" is transitive over rated stores |
| Ranking.RanksTotal | backend/controllers/storeController.js:174 | any two stores are comparable in that order |
| Ranking.RatedOnly | backend/controllers/storeController.js:173 | HAVING COUNT > 0 keeps every rated store and only rated stores, drawn from the input, each rated summary as often as it occurs in the input |
| Ranking.Insert | backend/controllers/storeController.js:174 | insertion adds exactly the one entry to the list |
| Ranking.Rank | backend/controllers/storeController.js:174 | the ranking is a permutation of its input |
| Ranking.InsertSorted | backend/controllers/storeController.js:174 | inserting a rated store into a ranked list keeps it ranked |
| Ranking.RankSorted | backend/controllers/storeController.js:174 | the ranking of rated stores is ordered by average then count, best first |
| Ranking.RestRanksBelow | backend/controllers/storeController.js:174-175 | every entry cut off by a LIMIT ranks no higher than the last entry kept |
| Ranking.TopStoresSpec | backend/controllers/storeController.js:163-176 | the top list has min(5, rated stores) entries, all rated stores of the input, best first, drawn without repetition; it is empty only when no store is rated, and every rated store left out ranks no higher than its last entry |
| StoreController.StoreRows | backend/controllers/storeController.js:30-45 | one row per matching store, in order, each carrying that store's aggregates |
| StoreController.StoreListing | backend/controllers/storeController.js:5-59 | the store list handler: the matching stores' rows, paginated; specified by StoreListingSpec and JoinInflatesCount |
| StoreController.JoinInflatesCount | backend/controllers/storeController.js:240-256 | when the table holds two or more ratings of the user's pair, the `ur` join makes the store's shown count at least twice its true count |
| StoreController.AllStores | backend/controllers/storeController.js:5-59 | the anonymous store list; specified by StoreListingSpec with no user |
| StoreController.StoreListingSpec | backend/controllers/storeController.js:5-59 | with no user, or with one rating per pair, every listed row is a matching store with its true count and average, and with the user's own rating exactly when that user rated it; the total is the number of matching stores |
| StoreController.UserKey | backend/controllers/storeController.js:217 | the `ur` join is made exactly when the user id is a truthy number, and is then made on that number |
| StoreController.StoresForUser | backend/controllers/storeController.js:206-271 | the user-aware store list, joined on the user key; specified by StoresForUserWithoutUser and StoreListingSpec |
| StoreController.StoresForUserWithoutUser | backend/controllers/storeController.js:220-256 | without a user id the user-aware list equals the anonymous list, and no row carries a user rating |
| StoreController.StoresForUserParams | backend/controllers/storeController.js:219-271 | the main query gets the user id (when present) followed by the search patterns; the count query gets exactly one search pattern per placeholder of its WHERE clause |
| StoreController.GetStoreById | backend/controllers/storeController.js:67-94 | the answer is 404 exactly when the store does not exist; otherwise it reports the store's true count, and an average that is NULL exactly when the count is 0 |
| StoreController.GetStoreRatings | backend/controllers/storeController.js:102-112 | the answer is 404 exactly when the store does not exist |
| StoreController.GetStoreRatingsSpec | backend/controllers/storeController.js:114-139 | every listed rating belongs to the store, and the total counts all of the store's ratings |
| StoreController.GetStoreStats | backend/controllers/storeController.js:147-199 | the statistics endpoint's totals, global average and top five; specified by GetStoreStatsSpec |
| StoreController.GetStoreStatsSpec | backend/controllers/storeController.js:147-199 | the global average is 0 exactly when there are no ratings; the top stores are real rated stores with true aggregates, at most five, best first, outranking every rated store left out |
| UserRatings.SubmitRating | backend/controllers/authController.js:123-168 | for a user the token middleware resolved (auth.js:15-19), checks run in order (validation 400, missing store 404, existing pair 400); the insert happens exactly when all pass; a refusal leaves the database unchanged; success appends exactly one row under the next id; the database invariant, including one rating per pair, every rating in 1..5 and every rating naming an existing user and store, is preserved |
| UserRatings.InsertKeepsUnique | backend/controllers/authController.js:147-161 | inserting a rating for a pair with none keeps one rating per pair |
| UserRatings.InsertKeepsRange | backend/controllers/authController.js:123-161 | inserting a validated value keeps every stored rating in 1..5 |
| UserRatings.InsertKeepsReferences | backend/controllers/authController.js:141-161 | inserting a rating whose user exists and whose store was found keeps every rating's user and store present |
| UserRatings.SubmitEffect | backend/controllers/authController.js:157-163 | after a submit the pair's rating reads back as the submitted value, the store and the user each gain exactly that row, and every other store is unchanged |
| UserRatings.SetRating | backend/controllers/authController.js:199-203 | the UPDATE keeps every row's id, user and store, rewrites the value and update time of exactly the rows for the pair, and leaves every other row as it was |
| UserRatings.UpdateRating | backend/controllers/authController.js:171-210 | for a user the token middleware resolved, validation is 400 and a missing pair is 404 (no store check); the update happens exactly when both pass; a refusal leaves the database unchanged; an update never inserts; the database invariant, including every rating in 1..5, is preserved |
| UserRatings.SetRatingKeepsPairs | backend/controllers/authController.js:199-203 | an update keeps the set of rated pairs, so it keeps one rating per pair |
| UserRatings.SetRatingKeepsRange | backend/controllers/authController.js:171-203 | an update to a validated value keeps every stored rating in 1..5 |
| UserRatings.SetRatingKeepsReferences | backend/controllers/authController.js:199-203 | an update rewrites no user or store id, so every rating's user and store stay present |
| UserRatings.SetRatingOfStore | backend/controllers/authController.js:199-203 | an update leaves other stores' ratings untouched and changes no store's or user's rating count |
| UserRatings.SetRatingAbsent | backend/controllers/authController.js:195-203 | an update of a pair with no rating changes nothing |
| UserRatings.SetRatingSum | backend/controllers/authController.js:199-203 | with one rating per pair, an update moves the store's rating total by exactly the new value minus the old one |
| UserRatings.SetRatingReadBack | backend/controllers/authController.js:199-205 | after an update the pair's rating reads back as the new value |
| UserRatings.SetRatingIdempotent | backend/controllers/authController.js:199-203 | repeating the same update changes nothing more |
| UserRatings.Stats | backend/controllers/authController.js:13-30 | the user's rating count, average and the store total; specified by StatsAverageMeaning and StatsAfterSubmit |
| UserRatings.StatsAverageMeaning | backend/controllers/authController.js:17-24 | the user's average is 0 exactly when the user rated nothing, and otherwise it is their sum over their count, between 1 and 5 |
| UserRatings.StatsAfterSubmit | backend/controllers/authController.js:17-19 | a new rating adds one to its user's count and leaves every other user's statistics as they were |
| UserRatings.CountParamsAreSearchParams | backend/controllers/authController.js:103-106 | the count query's parameters, after the user id is dropped, are exactly one search pattern per placeholder |
| UserRatings.UserStores | backend/controllers/authController.js:58-115 | the normal user's store list, joined on the caller's id; specified by UserStoresSpec |
| UserRatings.UserStoresSpec | backend/controllers/authController.js:58-115 | with one rating per pair, the total is the number of matching stores, and each row carries the caller's rating of that store exactly when the caller rated it |
| UserRatings.MyRatings | backend/controllers/authController.js:213-247 | the caller's ratings, paginated; specified by MyRatingsSpec |
| UserRatings.MyRatingsSpec | backend/controllers/authController.js:213-247 | every listed rating is the caller's own, and the total is the number of the caller's ratings |
| OwnerStore.OwnerDashboard | backend/routes/store.js:12-35 | the answer is 404 exactly when the caller owns no store |
| OwnerStore.OwnerDashboardSpec | backend/routes/store.js:30-46 | the dashboard reports the first owned store with its true count; its average is 0 exactly when the count is 0, and otherwise sum over count |
| OwnerStore.OwnerRatings | backend/routes/store.js:64-69 | the answer is 404 exactly when the caller owns no store |
| OwnerStore.OwnerRatingsSpec | backend/routes/store.js:71-108 | the sort column is whitelisted; every listed rating belongs to the owner's store, and the total counts that store's ratings |
| PasswordRule.IsValidPassword | backend/routes/admin.js:101-104 | 8 to 16 characters as `isLength` counts them, and the pattern; its meaning is given by PatternOnOneLine and LineBreakHidesUppercase |
| PasswordRule.LookaheadFindsMeaning | backend/routes/admin.js:104 | a lookahead `(?=.*[X])` succeeds exactly when a character of the class occurs before any line terminator |
| PasswordRule.PatternOnOneLine | backend/routes/admin.js:101-105 | on a single-line password the rule holds exactly when an uppercase letter and a special character both occur |
| PasswordRule.LineBreakHidesUppercase | backend/routes/admin.js:104 | a 10-character password with a special character and an uppercase letter after a line break is refused |
| Admin.DashboardCounts | backend/routes/admin.js:16-25 | the three table sizes; related to the lists by DashboardMatchesLists |
| Admin.DashboardMatchesLists | backend/routes/admin.js:16-25 | the dashboard's user and store totals equal the totals the unfiltered user and store lists report, on any page |
| Admin.MatchingUsers | backend/routes/admin.js:50-61 | a user is selected exactly when the search (if any) occurs in the name, e-mail or address and the role (if any) matches exactly |
| Admin.UserListQuery | backend/routes/admin.js:50-61 | the conditions are search then role, each only when given, and there is exactly one parameter per placeholder |
| Admin.UserRows | backend/routes/admin.js:69-75 | each row is the user's columns without the password, one per user, in order |
| Admin.ListUsers | backend/routes/admin.js:39-90 | the whitelisted column, the direction and the page of matching users; specified by ListUsersSpec |
| Admin.ListUsersSpec | backend/routes/admin.js:39-90 | every listed user matches the filters and has exactly the requested role when one is given; the total is the number of matching users |
| Admin.AdminStoreRows | backend/routes/admin.js:170-188 | one row per matching store, in order, with its owner and aggregates |
| Admin.ListStores | backend/routes/admin.js:145-204 | the whitelisted column, the direction and the page of matching stores; specified by ListStoresSpec |
| Admin.ListStoresSpec | backend/routes/admin.js:145-204 | the total is the number of stores matching the search (the count query); every listed store matches the search on name, e-mail or address and carries its true count and average |
| Admin.ValidUserForm | backend/routes/admin.js:98-107 | the create-user validators; compared with the form by CreateUserFormPassesServer and SelectorNameSplitsFormAndServer |
| Admin.CreateUser | backend/routes/admin.js:98-142 | validation is 400 and a used e-mail is 400; the insert happens exactly when both pass; a refusal leaves the database unchanged; the new row has the hashed password and the next id; the invariant is preserved |
| Admin.AppendKeepsUserEmailsUnique | backend/routes/admin.js:120-131 | inserting a user with an unused e-mail keeps e-mail addresses unique |
| Admin.ValidStoreForm | backend/routes/admin.js:212-217 | the create-store validators; compared with the form by CreateStoreFormPassesServer |
| Admin.FindStoreOwner | backend/routes/admin.js:234-243 | an owner is found exactly when some user has that e-mail and the store owner role, and the one found is such a user |
| Admin.CreateStore | backend/routes/admin.js:212-259 | validation 400, used store e-mail 400 and missing owner 400 are checked in order; the insert happens exactly when all pass, with the owner's id as owner_id; a refusal leaves the database unchanged; the invariant is preserved |
| Admin.AppendKeepsStoreEmailsUnique | backend/routes/admin.js:229-248 | inserting a store with an unused e-mail keeps store e-mails unique |
| Admin.CreatedStoreOwner | backend/routes/admin.js:234-248 | the new store's owner is a store owner with the given e-mail, and the store appears on that owner's dashboard unless the owner already had a store |
| Auth.BearerToken | backend/middleware/auth.js:6 | the token read from the header; specified by BearerPrefixStripped and TokenWithoutPrefix |
| Auth.BearerPrefixStripped | backend/middleware/auth.js:6 | a header "Bearer t" yields the token t |
| Auth.TokenWithoutPrefix | backend/middleware/auth.js:6 | a header without "Bearer " is used as the token unchanged |
| Auth.Authenticate | backend/middleware/auth.js:4-34 | a missing or empty token is refused; the request goes on exactly when the token verifies and its user id has a row; `req.user` is then that row, with `id == userId`; a refused request keeps its user slot |
| Auth.RequireRole | backend/middleware/auth.js:36-48 | 401 exactly when there is no user; next exactly when the user's role is in the list; 403 otherwise |
| Auth.UserRoutesRefuseEveryRole | backend/controllers/authController.js:10 | as written, the user router refuses every user of every role with 403 |
| Auth.EachRoleReachesItsOwnRouter | backend/controllers/authController.js:10 | with the intended role lists, each role passes exactly its own router's guard |
| Auth.Guard | backend/middleware/auth.js:4-48 | the status is 401 exactly when no user is resolved, 200 exactly when the user's role is allowed, and 403 otherwise |
| FormSchemas.RegisterValid | frontend/src/utils/validation.js:3-26 | registerSchema; related to login by LoginWeakerThanRegister |
| FormSchemas.LoginValid | frontend/src/utils/validation.js:28-34 | loginSchema; related to registration by LoginWeakerThanRegister |
| FormSchemas.UpdatePasswordValid | frontend/src/utils/validation.js:38-53 | updatePasswordSchema; specified by ConfirmedPasswordIsValid |
| FormSchemas.CreateUserFormPassesServer | frontend/src/utils/validation.js:56-83 | a user the form accepts passes the server's validators, given a form e-mail test no more lenient than the server's (the form accepts only e-mails the server accepts) and a name and password without astral characters or presentation selectors |
| FormSchemas.SelectorNameSplitsFormAndServer | frontend/src/utils/validation.js:56-61 | a name of 19 plain characters and U+FE0F passes the form's 20-unit minimum but fails the server's |
| FormSchemas.CreateStoreFormPassesServer | frontend/src/utils/validation.js:85-103 | a store the form accepts passes the server's validators, given a form e-mail test no more lenient than the server's (the form accepts only e-mails the server accepts) |
| FormSchemas.ServerAcceptsEmptyAddress | frontend/src/utils/validation.js:75-78 | for every user the form accepts (with single-unit name and password), the server also accepts it with the address emptied, which the form refuses |
| FormSchemas.LoginWeakerThanRegister | frontend/src/utils/validation.js:28-34 | every registered password passes login, and so does a one-character password that registration refuses |
| FormSchemas.ConfirmedPasswordIsValid | frontend/src/utils/validation.js:38-53 | a confirmed change always confirms a password of 8 to 16 code units that follows the rule |
| FormSchemas.RatingRulesAgree | frontend/src/utils/validation.js:105-112 | for a whole number sent as JSON, the form's rule (a number from 1 to 5) holds exactly when the server's `isInt` rule accepts its text, and the server then stores that same number |
| Paging.WithFilter | frontend/src/components/user/StoreList.jsx:59-65 | the changed filter takes the new value, the page returns to 1, and the other filters and the limit are kept |
| Paging.NumberOr | frontend/src/components/user/StoreList.jsx:46-48 | a present non-zero field is kept, and a missing or zero field takes the fallback |
| Paging.PageInfoWithDefaults | frontend/src/components/user/StoreList.jsx:45-49 | missing counts read as 0, a missing current page reads as 1, and the current page is never 0 |
| Paging.PageInfoOf | frontend/src/components/user/StoreList.jsx:45-49 | a server response keeps its row count and its current page |
| Paging.PageWindow | frontend/src/components/user/StoreList.jsx:311-321 | the window has min(pages, 5) consecutive pages, all existing ones, and contains the current page whenever it exists |
| Paging.AllPages | frontend/src/components/admin/StoreManagement.jsx:422-425 | the buttons are exactly the pages 1 to the page count, strictly increasing |
| Paging.ShowingRangeMatchesPage | frontend/src/components/user/StoreList.jsx:203-207 | on an existing page of a non-empty list, 1 <= from <= to <= total, and the range names exactly the rows the server sent for that page |
| StoreListView.RatingCallFor | frontend/src/components/user/StoreList.jsx:85-93 | the request goes to the selected store with the chosen rating, and is an update exactly when the store shows the user's own rating |
| StoreListView.RatingCallMatchesTable | frontend/src/components/user/StoreList.jsx:85-93 | on a row the server built for the user, the client updates exactly when the table holds that user's rating, so neither "already rated" nor "rating not found" is triggered |
| StoreListView.StoreList.constructor | frontend/src/components/user/StoreList.jsx:9-22 | the list starts with search "", sorted by name ascending, page 1 of 12, with no selection and no notices |
| StoreListView.StoreList.HandleFilterChange | frontend/src/components/user/StoreList.jsx:59-65 | the filters become the old filters with the key changed and the page reset |
| StoreListView.StoreList.HandlePageChange | frontend/src/components/user/StoreList.jsx:67-71 | a page is taken exactly when it is between 1 and the known page count, and otherwise the filters are unchanged |
| StoreListView.StoreList.Fetch | frontend/src/components/user/StoreList.jsx:39-57 | a response replaces the rows and the pagination block (with its defaults) and clears the error; a failure sets the error and empties the list |
| StoreListView.StoreList.HandleRateStore | frontend/src/components/user/StoreList.jsx:73-78 | the store is selected, the modal opens, and both notices clear |
| StoreListView.StoreList.HandleSubmitRating | frontend/src/components/user/StoreList.jsx:80-102 | the request is the selected store's update-or-submit call; on success the notice is set, the modal closes and the list is fetched again; on failure only the error is set; with no selection no request is sent and the error is set |
| StoreListView.StoreList.HandleCloseModal | frontend/src/components/user/StoreList.jsx:104-107 | the modal closes and the selection clears |
| StoreListView.StoreList.ClickWindowButton | frontend/src/components/user/StoreList.jsx:311-326 | every button of the page window is a page the list accepts |
| OwnerDashboardView.SortToggled | frontend/src/components/store/StoreDashboard.jsx:55-62 | the column is set and the page reset; the order is ascending exactly when the same column was sorted descending |
| OwnerDashboardView.SameColumnAlternates | frontend/src/components/store/StoreDashboard.jsx:55-62 | clicking the same column again always flips the order |
| OwnerDashboardView.HighRatingsCountSpec | frontend/src/components/store/StoreDashboard.jsx:436 | the tile counts each 4- or 5-star rating of the page as often as it is listed and nothing else, and with the low ones it accounts for the whole page |
| OwnerDashboardView.RecentActivity | frontend/src/components/store/StoreDashboard.jsx:382-384 | recent activity is the first min(5, n) ratings of the page, in order |
| OwnerDashboardView.StoreDashboard.constructor | frontend/src/components/store/StoreDashboard.jsx:11-17 | the dashboard starts on page 1 of 10, newest first, with no ratings |
| OwnerDashboardView.StoreDashboard.HandlePageChange | frontend/src/components/store/StoreDashboard.jsx:49-53 | a page is taken exactly when it is between 1 and the known page count |
| OwnerDashboardView.StoreDashboard.HandleSortChange | frontend/src/components/store/StoreDashboard.jsx:55-62 | the filters become the toggled sort |
| OwnerDashboardView.StoreDashboard.Fetch | frontend/src/components/store/StoreDashboard.jsx:23-47 | a response replaces the ratings and the pagination block (with its defaults) and clears the error; a failure sets the error and keeps the ratings shown before |
| StoreManagementView.RenderStars | frontend/src/components/admin/StoreManagement.jsx:89-97 | the cell is a dash exactly for a falsy average, and otherwise shows that average |
| StoreManagementView.RatingCountLabel | frontend/src/components/admin/StoreManagement.jsx:348-352 | the label is shown exactly for a positive count; it starts with the count, and ends in "s" exactly when the count is not 1 |
| StoreManagementView.StoreManagement.constructor | frontend/src/components/admin/StoreManagement.jsx:11-23 | the table starts newest first on page 1 of 10, with the form hidden and empty |
| StoreManagementView.StoreManagement.HandleFilterChange | frontend/src/components/admin/StoreManagement.jsx:69-75 | the filters become the old filters with the key changed and the page reset |
| StoreManagementView.StoreManagement.HandlePageChange | frontend/src/components/admin/StoreManagement.jsx:77-79 | any page is taken, with no bounds check |
| StoreManagementView.StoreManagement.Fetch | frontend/src/components/admin/StoreManagement.jsx:38-53 | a response replaces the rows and the pagination block as sent and leaves an earlier error in place; a failure sets the error and keeps the rows |
| StoreManagementView.StoreManagement.ShowPagination | frontend/src/components/admin/StoreManagement.jsx:376 | the pagination bar shows exactly when the page count is known and above 1 |
| StoreManagementView.StoreManagement.PageButtons | frontend/src/components/admin/StoreManagement.jsx:422-425 | the buttons are exactly the pages 1 to the page count, in increasing order, and there are none before a count is known |
| StoreManagementView.StoreManagement.OnSubmit | frontend/src/components/admin/StoreManagement.jsx:55-67 | called only with data the create-store schema accepts (`FormSchemas.CreateStoreValid`, so `CreateStoreFormPassesServer` applies); the form data is sent; on success the notice is set, the form is reset and hidden, and the list is fetched again; on failure only the error is set |
| StoreManagementView.StoreManagement.ToggleCreateForm | frontend/src/components/admin/StoreManagement.jsx:112 | the create form's visibility flips |
| RatingModalView.RatingText | frontend/src/components/user/RatingModal.jsx:43-52 | the word is empty exactly for values outside 1..5 |
| RatingModalView.DisplayedAverage | frontend/src/components/user/RatingModal.jsx:55-59 | a falsy average shows no average, and any other is converted, with NaN showing none |
| RatingModalView.RatingModal.constructor | frontend/src/components/user/RatingModal.jsx:3-6 | the modal opens on the existing rating, or on 0 stars, not hovering and not submitting |
| RatingModalView.RatingModal.ClickStar | frontend/src/components/user/RatingModal.jsx:29-33 | a click chooses that star unless a submission is in flight |
| RatingModalView.RatingModal.HoverStar | frontend/src/components/user/RatingModal.jsx:30 | hovering a star records it |
| RatingModalView.RatingModal.LeaveStar | frontend/src/components/user/RatingModal.jsx:31 | leaving a star clears the hover |
| RatingModalView.RatingModal.BeginSubmit | frontend/src/components/user/RatingModal.jsx:8-13 | the rating is handed on exactly when a star is chosen and no submission is in flight, and the modal is then marked as submitting |
| RatingModalView.RatingModal.FinishSubmit | frontend/src/components/user/RatingModal.jsx:14-16 | the modal is no longer submitting once the call settles, whether it succeeded or threw |
| RatingModalView.RatingModal.StarActive | frontend/src/components/user/RatingModal.jsx:22-23 | a star lights up exactly when it is at most the hovered star, or the chosen rating when none is hovered |
| RatingModalView.RatingModal.SubmitDisabled | frontend/src/components/user/RatingModal.jsx:151 | the button is disabled exactly when no star is chosen or a submission is in flight |
| RatingModalView.RatingModal.Title | frontend/src/components/user/RatingModal.jsx:69 | the title offers an update exactly when there is an existing non-zero rating |
| RatingModalView.RatingModal.ButtonLabel | frontend/src/components/user/RatingModal.jsx:154-164 | the label says submitting while in flight, and otherwise offers an update exactly when there is an existing non-zero rating |
| RatingModalView.EnabledButtonSubmits | frontend/src/components/user/RatingModal.jsx:151 | an enabled submit button always passes the submit gate, and a disabled one never would |
| ClientRoutes.ProtectedRoute | frontend/src/App.jsx:24-40 | spinner while loading; /login without a user; the page exactly when signed in with an allowed role (or any role for an empty list); /unauthorized exactly otherwise |
| ClientRoutes.DashboardFor | frontend/src/App.jsx:52-61 | a landing page exists exactly for the three roles |
| ClientRoutes.PublicRoute | frontend/src/App.jsx:43-65 | spinner while loading; the page exactly for a visitor; a signed-in user goes to their landing page, or to "/" for an unknown role |
| ClientRoutes.HomeRedirect | frontend/src/App.jsx:68-85 | always a redirect: to the role's landing page, or to /login for a visitor or an unknown role |
| ClientRoutes.StripTrailing | frontend/src/App.jsx:112-171 | the result is a prefix of the path that does not end in a slash, and everything removed is slashes |
| ClientRoutes.GuardOf | frontend/src/App.jsx:112-171 | a location is served by a route of the table whose pattern matches it regardless of letter case and trailing slashes, or by the open catch-all |
| ClientRoutes.GuardInFirst | frontend/src/App.jsx:112-171 | with the keys before it all different, a route's key finds that route's guard |
| ClientRoutes.PlainPathKey | frontend/src/App.jsx:112-171 | a path with no upper-case letter and no trailing slash is its own key |
| ClientRoutes.TablePatternsLowerCase | frontend/src/App.jsx:112-171 | the table's patterns have no upper-case letter, so folding only the location is exact |
| ClientRoutes.DistinctPatternKeys | frontend/src/App.jsx:112-171 | no two routes of the table match the same location |
| ClientRoutes.GuardOfKey | frontend/src/App.jsx:112-171 | every location whose key is a route's pattern is served by that route |
| ClientRoutes.Visit | frontend/src/App.jsx:110-185 | what a location renders: its route's guard applied to the session |
| ClientRoutes.VisitIgnoresCaseAndTrailingSlash | frontend/src/App.jsx:110-185 | lower-casing a location or adding a trailing slash never changes what it renders |
| ClientRoutes.VisitorSentToLogin | frontend/src/App.jsx:132-136 | a visitor who opens /Admin/Users/ is sent to /login |
| ClientRoutes.RoleRoutesHaveOneRole | frontend/src/App.jsx:127-167 | every role-specific page admits exactly one role, and /profile is the only protected page that admits every signed-in user |
| ClientRoutes.AdminPageGuards | frontend/src/App.jsx:127-141 | the three administrator pages, however spelt, admit only the administrator |
| ClientRoutes.UserPageGuards | frontend/src/App.jsx:144-153 | the two normal-user pages, however spelt, admit only the normal user |
| ClientRoutes.OwnerPageGuard | frontend/src/App.jsx:156-160 | the owner's dashboard, however spelt, admits only the store owner |
| ClientRoutes.LandingGuard | frontend/src/App.jsx:127-160 | each role's landing page is guarded by that role alone |
| ClientRoutes.LandingPageAdmitsRole | frontend/src/App.jsx:68-85 | "/" sends each role to its landing page, and that page renders for it, so signing in never lands on /unauthorized |
| ClientRoutes.UnknownRoleBounces | frontend/src/App.jsx:43-85 | a signed-in user with an unknown role is sent from /login to "/" and from "/" back to /login |
| ClientRoutes.StoreListPageButNoData | frontend/src/App.jsx:149-153 | the client shows a normal user the store list page while the server's user router, as written, refuses that user, and would admit them with the intended role list |
| Navigation.NavItems | frontend/src/components/layout/Navbar.jsx:16-36 | each role's exact links; the list is empty exactly for no user or an unknown role |
| Navigation.DashboardLinkIsLanding | frontend/src/components/layout/Navbar.jsx:16-36 | each role's first link is "Dashboard" and goes where the home redirect sends that role |
| Navigation.NavLinksAdmitRole | frontend/src/components/layout/Navbar.jsx:16-36 | every link a role is shown opens a page that renders for that role |
| Navigation.AtMostOneActive | frontend/src/components/layout/Navbar.jsx:56 | at most one link of a role is highlighted at a time |
| Navigation.RoleLabel | frontend/src/components/layout/Navbar.jsx:71 | the label keeps the length, removes exactly one underscore when there is one, and is the role unchanged when there is none |
| Navigation.FirstUnderscore | frontend/src/components/layout/Navbar.jsx:71 | only the first underscore becomes a space, and everything else is kept |
| Navigation.SystemAdminLabel | frontend/src/components/layout/Navbar.jsx:71 | the administrator's role reads "system admin" |
| Navigation.StoreOwnerLabel | frontend/src/components/layout/Navbar.jsx:71 | the owner's role reads "store owner" |
| Navigation.PlainRoleLabel | frontend/src/components/layout/Navbar.jsx:71 | a role without an underscore is shown as it is |
| Navigation.Navbar.constructor | frontend/src/components/layout/Navbar.jsx:9 | the menu starts closed |
| Navigation.Navbar.ToggleMenu | frontend/src/components/layout/Navbar.jsx:92 | the menu button flips the menu |
| Navigation.Navbar.CloseMenu | frontend/src/components/layout/Navbar.jsx:123 | a menu link, the profile link and the logout button close the menu |

## Left out

- SQL execution: ORDER BY is not applied, so listings keep table order; only the whitelisted column and the direction are modelled. JOIN and GROUP BY are modelled through their results (per-store aggregates, the user's own rating, the `ur` join's fan-out).
- Common.Mentions: LIKE is a case-sensitive substring test, and `%` and `_` in the search text are taken literally, while the database treats them as wildcards (storeController.js:19-20, admin.js:54-55), so `Tables.MatchingStores` and `Admin.MatchingUsers` select fewer rows than the database for such a search and ignore the collation's case folding.
- Tables.EmailTaken: `=` on e-mails and roles compares exactly, while MySQL's default collation compares case-insensitively (admin.js:59, 120, 229, 235); `Admin.FindStoreOwner`, `Admin.UserMatches` and `Tables.StoreEmailTaken` share this, so an e-mail differing only in case counts as unused in the model but as taken in the database.
- StoreController.GetStoreById: path ids are integers in the model. The handlers receive `:id` and `:storeId` as text (storeController.js:69, 104; authController.js:137, 185), and MySQL coerces a text such as '5abc' to 5 when comparing or inserting it (storeController.js:108, authController.js:142, 158-161). That coercion is not modelled; `StoreController.GetStoreRatings`, `UserRatings.SubmitRating` and `UserRatings.UpdateRating` share this.
- Query.Paginate: `page` and `limit` are integers, while the handlers receive query-string text and parse it (storeController.js:28, 44-45, 58; admin.js:67). A fractional text such as "2.5" (offset 15, currentPage 2) and a non-numeric one (NaN, then a 500) are not modelled; `Query.PageOf` shares this.
- The display columns of the rating lists (user and store names, `created_at`/`updated_at` formatting). `StoreController.GetStoreRatings`, `UserRatings.MyRatings` and `OwnerStore.OwnerRatings` take their rows from the ratings table alone, without the inner JOIN with users or stores (storeController.js:121, authController.js:229, store.js:90). That equals the source's lists only while every rating names an existing user and store. `Database.Valid()` keeps this invariant and `Tables.InnerJoinsKeepEveryRating` states its consequence, but the list functions do not require it.
- Floating point: `AVG`, `parseFloat`, `toFixed(1)`, `Math.round(Number(...))` and the star rendering. Averages are exact ratios; the rounding to one decimal in `/stats` and the statistics endpoint is not modelled.
- The mysql2 driver returns DECIMAL averages as strings. The views' truthiness tests on them are modelled on `Common.Js` values, without string-to-number parsing.
- `jwt.verify`, `bcrypt.hash` and the e-mail validators are parameters. `Number(...)` in the rating modal is a parameter too.
- The 500 answers of every handler, which come from exceptions of the database driver.
- The check-then-insert race in rating submit and in user and store creation: the model is sequential.
- The recent-ratings lists of `/stats` and the statistics endpoint (`ORDER BY created_at DESC LIMIT 5/10`) are not modelled, since they depend on ORDER BY.
- `UserRatings.StoreListParams`: the no-op `.replace('ur.user_id = ?', '1=1')` on the count query is the identity, so the count query's WHERE clause is the main query's.
- User ids are integers, so the `req.user.userId \|\| req.user.id` fallback always takes the same id.
- The client's session role is a string, without the AuthContext that loads it. `api.js` (axios, localStorage, `window.location`) is replaced by the outcome datatypes.
- Timers (the five-second notice clearing in the store list), effects that refetch on filter change, loading flags and spinners, date formatting and all markup.
- The owner dashboard's store summary tile (`averageRating \|\| 0` display), the previous/next buttons (their `handlePageChange(currentPage ± 1)` is covered by `HandlePageChange`), and the store list's "Your Rating" badge.
- UserDashboard, UserProfile, AdminDashboard and UserManagement views: fetch-and-display views that are not part of this model.
- Unicode: strings are sequences of characters; `toLowerCase` folds only ASCII letters. Route matching folds only ASCII too, which is exact because every route pattern is ASCII and the router's case-insensitive match never folds a non-ASCII character to an ASCII one.
- ClientRoutes.GuardOf: the router's ranking of routes and its percent-decoding of the location are not modelled; every pattern of the table is static, so ranking picks the one route whose key matches, as the first-match search does.
- StoreController.StoreListingSpec: the per-row count and average are promised only with no user or with one rating per pair; with duplicate ratings of the user's pair the `ur` join multiplies the store's count (`JoinInflatesCount`), which the handlers' invariant rules out.
- UserRatings.UserStoresSpec: promised only with one rating per pair, for the same join fan-out.
- FormSchemas.CreateUserFormPassesServer: the form measures `length` in UTF-16 code units and the server's `isLength` counts characters less presentation selectors, so the implication is stated for names and passwords without astral characters or presentation selectors; `SelectorNameSplitsFormAndServer` shows it failing otherwise.
- FormSchemas.ServerAcceptsEmptyAddress: carries the same proviso on the name and the password.
- FormSchemas.RatingRulesAgree: stated for whole numbers only; a fractional or non-numeric rating, which both sides refuse, is not related between the form's number rule and the server's text rule.
- StoreListView.StoreList.HandleSubmitRating: the notice's number is printed by `Common.NumberText`, which covers integers only; the rating reaching the handler is always an integer star value.

## Findings

| source | as written | input that shows it | evidently intended | confidence | as-written member | corrected member |
|---|---|---|---|---|---|---|
| backend/controllers/authController.js:10 | the user router installs `requireRole(['normal_user'])`, but the role the schema, the validators and the client give normal users is `user` | any signed-in normal user calling `GET /api/user/stores` or `POST /api/user/stores/1/rating` gets 403 | `requireRole(['user'])`, so normal users reach their statistics, store list and rating routes | not executed | Auth.UserRoutesRefuseEveryRole | Auth.EachRoleReachesItsOwnRouter |
