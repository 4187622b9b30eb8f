# Store-Rater request handling, modelled in Dafny

Store-Rater is a store rating site with three kinds of account: Normal Users
rate stores, Store Owners see a dashboard of their store's ratings, and System
Administrators create stores, owners and users and browse filtered listings.
This project models the Express back end's request handlers and the React
pages' list controls as Dafny code, and proves the properties the handlers are
written to keep.

The MySQL database is a `Tables.Database` object with one sequence of rows per
table (`users`, `stores`, `ratings`) and an AUTO_INCREMENT counter per table.
Its invariant `Valid()` says that ids grow in insertion order and stay below the
counter. Each route that writes is a method on that object. Each route that only
reads is a function of the rows.

bcrypt and JWT are modelled symbolically (`Credentials`):
- A hash is a free constructor over the salt and the plaintext. A password
  verifies against its own hash and against no other password's.
- A token is its claims, an expiry one hour after signing, and a signature
  over the secret, the claims and the expiry. It verifies only with its own
  secret, only before it expires, and only with unchanged claims.

The clock, the bcrypt salt, the JWT secret and the outcome of each client HTTP
call are parameters.

Each listing route builds its SQL as text parts and `?` placeholders plus a
parameter list (`Sql`). The model proves three things about every listing:
- The placeholder count equals the parameter count.
- There is one `LIKE ?` per non-empty filter, in the route's fixed order.
- The ORDER BY field and direction always come from the allow-list.

Modules, one per source file, plus shared support:
- `Common`, `Credentials`, `Tables`, `Sql`, `Ordering`, `Reports`: values, the
  symbolic crypto, the tables, SQL text, newest-first ordering with averages,
  and the rating joins.
- `Auth`, `UserRoutes`, `AdminRoutes`, `OwnerRoutes`: `backend/routes/auth.js`,
  `user.js`, `admin.js` and `owner.js`.
- `ListControls`: the sort toggle and single-key state update the three list
  pages share.
- `StoreListPage`, `AdminStoresPage`, `AdminUsersPage`, `PrivateRouteGate`:
  `frontend/src/pages/StoreList.js`, `AdminStores.js`, `AdminUsers.js` and
  `frontend/src/components/PrivateRoute.js`.

## Model

| member | source | states |
|---|---|---|
| Common.ParseRole | backend/routes/admin.js:98-101 | a role string is accepted exactly when it is one of the three allowed names, and it reads back as the role with that name |
| Common.Lower | backend/routes/user.js:38 | `toLowerCase` keeps the length and maps each character (ASCII range) |
| Common.Upper | backend/routes/user.js:39 | `toUpperCase` keeps the length and maps each character (ASCII range) |
| Common.FirstIndex | backend/routes/auth.js:84-90 | `rows[0]` of a `SELECT ... WHERE`: none exactly when no row matches, else the first matching position |
| Common.Select | backend/routes/owner.js:15 | the rows of a `SELECT ... WHERE`: only matching rows, every matching row, and the first match first |
| Credentials.HashPassword | backend/routes/auth.js:41-42 | the hash verifies the password it was made from and no other, with cost factor 10 |
| Credentials.SignToken | backend/routes/auth.js:55 | the token carries the given claims and expires 3600 seconds after signing |
| Credentials.VerifyToken | backend/routes/auth.js:133 | verification succeeds exactly for an unexpired token signed with this secret over its own claims, and yields those claims |
| Credentials.SignedTokenVerifiesForOneHour | backend/routes/auth.js:100-105 | a freshly signed token verifies, with its claims, exactly until one hour has passed |
| Credentials.TamperedClaimsRejected | backend/routes/auth.js:133 | changing a signed token's claims (for example raising the role) makes it fail verification |
| Credentials.ForeignSecretRejected | backend/routes/auth.js:133 | a token signed under a different secret never verifies |
| Tables.UserByEmail | backend/routes/auth.js:35-36 | `SELECT * FROM users WHERE email = ?`: found exactly when some row has the email, and the row found has it |
| Tables.UserById | backend/routes/auth.js:159-160 | `SELECT ... FROM users WHERE id = ?`: found exactly when some row has the id |
| Tables.StoreById | backend/routes/user.js:72-73 | `SELECT id FROM stores WHERE id = ?`: found exactly when some store has the id |
| Tables.RatingFor | backend/routes/user.js:80 | the (store, user) lookup finds a row exactly when one exists, and the row is for that pair |
| Tables.RatingById | backend/routes/user.js:101 | `SELECT * FROM ratings WHERE id = ?`: found exactly when some row has the id |
| Tables.AppendedUserFound | backend/routes/auth.js:49-52 | a user appended under an id no earlier row has is what the re-select by `insertId` returns |
| Tables.AppendedStoreFound | backend/routes/admin.js:78-81 | a store appended under a fresh id is what the re-select by `insertId` returns |
| Tables.AppendedRatingFound | backend/routes/user.js:99-102 | a rating appended under a fresh id is what the re-select by `insertId` returns |
| Tables.SetRating | backend/routes/user.js:83-86 | the UPDATE keeps the row count; rows of the pair take the new value and timestamp; every other row is unchanged |
| Tables.SetPassword | backend/routes/auth.js:173 | the UPDATE keeps the row count; the caller's row takes the new hash and timestamp; every other row is unchanged |
| Tables.Database.constructor | backend/database/init.js:5-11 | the freshly created schema has empty tables and counters at 1, and is valid |
| Tables.Database.InsertUser | backend/routes/auth.js:45-49 | appends exactly one user under the next id, which no earlier row has, and changes no other table |
| Tables.Database.InsertStore | backend/routes/admin.js:74-78 | appends exactly one store under the next id and changes no other table |
| Tables.Database.InsertRating | backend/routes/user.js:95-100 | appends exactly one rating under the next id and changes no other table |
| Tables.Database.UpdateRating | backend/routes/user.js:83-86 | the ratings table becomes `SetRating` of the old one; nothing else changes |
| Tables.Database.UpdatePassword | backend/routes/auth.js:173 | the users table becomes `SetPassword` of the old one; nothing else changes |
| Sql.PlaceholdersAppend | backend/routes/user.js:30-41 | the placeholders of concatenated query text add up |
| Sql.LikePattern | backend/routes/user.js:23 | `%v%` is the value with one `%` on each side |
| Sql.LikeConditionPlaceholders | backend/routes/user.js:22 | each `column LIKE ?` condition holds exactly one placeholder |
| Sql.ActiveFilters | backend/routes/admin.js:155-166 | the filters that take part are exactly the non-empty ones: each kept filter is a non-empty filter of the input, every non-empty filter is kept, and none is kept when every filter is empty (their order is stated by `ActiveFiltersSnoc`) |
| Sql.Conditions | backend/routes/admin.js:155-166 | one condition per non-empty filter |
| Sql.LikeParams | backend/routes/admin.js:155-166 | one parameter per non-empty filter |
| Sql.ActiveFiltersSnoc | backend/routes/admin.js:163-166 | testing one more filter adds it to the active list exactly when its value is non-empty |
| Sql.FilterStep | backend/routes/admin.js:163-166 | one more `if (value)` block pushes one condition and one `%value%` when the value is non-empty, and nothing otherwise |
| Sql.PushFilter | backend/routes/admin.js:155-166 | an `if (value)` block pushes `column LIKE ?` and `%value%` exactly when the value is non-empty, and leaves both lists unchanged otherwise |
| Sql.WhereFrom | backend/routes/admin.js:168-170 | a WHERE clause joins the conditions with AND when there is at least one, and is empty otherwise |
| Sql.ListingPlaceholders | backend/routes/admin.js:168-179 | head, WHERE clause and a tail without placeholders hold the head's placeholders plus one per filter parameter |
| Sql.JoinAndPlaceholders | backend/routes/user.js:31 | joining single-placeholder conditions with AND keeps one placeholder per condition |
| Sql.WhereClauseMatchesParams | backend/routes/admin.js:168-170 | the WHERE clause holds as many placeholders as the filters push parameters, and is absent exactly when every filter is empty |
| Sql.SortField | backend/routes/admin.js:175-176 | the sort field is always in the allow-list; it is the lower-cased request exactly when that is allowed, otherwise `name` |
| Sql.SortOrder | backend/routes/admin.js:177 | the direction is always ASC or DESC, and DESC exactly when the upper-cased request is DESC |
| Sql.OrderWordKept | backend/routes/user.js:39 | a request of ASC or DESC is passed through unchanged |
| Sql.OrderByPlaceholders | backend/routes/user.js:41 | the ORDER BY part holds no placeholder, so request text never reaches it as a parameter |
| Sql.LowercaseFieldKept | backend/routes/user.js:38 | an allowed field already in lower case is passed through unchanged |
| Ordering.InsertDesc | backend/routes/owner.js:37 | inserting into a newest-first list keeps it newest-first and adds exactly that row |
| Ordering.SortDesc | backend/routes/owner.js:37 | `ORDER BY created_at DESC` yields a newest-first ordering of exactly the same rows |
| Ordering.AverageOf | backend/routes/owner.js:25-29 | `AVG` is NULL exactly over no rows |
| Ordering.SumBounds | backend/routes/owner.js:25-26 | a sum of values in [lo, hi] lies between n·lo and n·hi |
| Ordering.MeanWithinBounds | backend/routes/owner.js:25-29 | the average of values in [lo, hi] lies in [lo, hi] |
| Reports.StoreRatingValues | backend/routes/owner.js:25-28 | the averaged values are ratings of that store, and there are none exactly when the store has no rating |
| Reports.StoreRatingValuesSnoc | backend/routes/owner.js:25-28 | appending a rating appends its value exactly when it belongs to the store: every matching rating is averaged once, in table order |
| Reports.JoinRowsSound | backend/routes/owner.js:32-39 | every row of the inner join is the join of one of the store's ratings with that rating's existing user |
| Reports.JoinRowsComplete | backend/routes/owner.js:32-39 | every rating of the store whose user exists yields its joined row |
| Auth.RegexMeansPolicy | backend/routes/auth.js:26-27 | the password regular expression accepts exactly 8 to 16 characters on one line with an A-Z letter and a special character |
| Auth.Authenticate | backend/routes/auth.js:121-140 | no token gives 401 "No token…", a token that fails verification gives 401 "Token is not valid", otherwise the request passes with the token's claims |
| Auth.Authorize | backend/routes/auth.js:197-202 | 403 exactly when the role is not listed; otherwise the claims pass unchanged |
| Auth.Guard | backend/routes/user.js:55 | `auth` then `authorize(roles)`: passes exactly for a verified token whose role is listed; the `auth` error is kept |
| Auth.RegistrationError | backend/routes/auth.js:10-31 | registration input is accepted exactly when all four fields are present, the name is 20-60 long, the address at most 400 and the password meets the rule; a missing field is reported first |
| Auth.Register | backend/routes/auth.js:7-71 | any rejection (bad input, used email) gives 400 and leaves every table unchanged; success appends exactly one Normal User with the hashed password and returns 201 with a token for {id, role} and the user without the password; the user id counter moves by one exactly on success, the store and rating counters never |
| Auth.Login | backend/routes/auth.js:74-118 | success exactly for a known email with the matching password, returning a token for {id, role}; an unknown email and a wrong password get the same 400 "Invalid credentials" |
| Auth.LoginAfterRegistration | backend/routes/auth.js:45-55 | right after registering, the same email and password log in as a Normal User under the new id |
| Auth.PasswordChangeAnswer | backend/routes/auth.js:146-168 | missing fields and a new password that breaks the rule are refused before any lookup; 404 exactly for a missing caller row; a wrong old password gives 400 "Old password is incorrect"; success exactly when the old password matches |
| Auth.UpdatePassword | backend/routes/auth.js:143-180 | the `auth` error or `PasswordChangeAnswer`; on success only the caller's password and timestamp change, on failure nothing changes; no id counter moves |
| Auth.PasswordUpdateTakesEffect | backend/routes/auth.js:170-173 | after the update the new password verifies, a different old one no longer does, and every other user row is untouched |
| Auth.CurrentUser | backend/routes/auth.js:183-191 | the `auth` error with its own status and message, or 200 with the caller's public columns when the row exists and an empty body when it does not |
| UserRoutes.UserStoreSelectPlaceholders | backend/routes/user.js:13-17 | the SELECT holds exactly one placeholder, filled by the caller's id |
| UserRoutes.PushUserStoreFilters | backend/routes/user.js:17-28 | the parameters start with the caller's id, then one `LIKE ?` condition and one `%v%` per non-empty name and address filter, in that order |
| UserRoutes.UserStoreParams | backend/routes/user.js:21-28 | the filter parameters are `%name%` exactly when a name is given, then `%address%` exactly when an address is given |
| UserRoutes.BuildStoreListing | backend/routes/user.js:10-41 | parameters are the caller's id, then `%name%` if given, then `%address%` if given; placeholders match parameters; the query is the SELECT, the WHERE clause, GROUP BY and the allow-listed ORDER BY |
| UserRoutes.TailPlaceholders | backend/routes/user.js:34-41 | GROUP BY and ORDER BY add no placeholder |
| UserRoutes.RatingError | backend/routes/user.js:62-67 | a rating is accepted exactly when present and within [1, 5], fractions included; absent or 0 gives "Please provide a rating" |
| UserRoutes.Upsert | backend/routes/user.js:80-106 | afterwards the pair has a row; an existing row of the pair changes only its rating and `updated_at`; rows of other pairs are unchanged; when the pair had no row, exactly one row is appended with the next id, the pair, the value and both timestamps set to now |
| UserRoutes.UpsertKeepsScale | backend/routes/user.js:62-67 | with an accepted value, a table whose ratings are all in [1, 5] keeps them all in [1, 5] |
| UserRoutes.UpsertKeepsOneRatingPerPair | backend/routes/user.js:80-106 | if each (store, user) pair had at most one row before, it still does after |
| UserRoutes.RatingAgainReplaces | backend/routes/user.js:80-93 | rating the same store twice leaves the row count of the first rating and the latest value |
| UserRoutes.RateStore | backend/routes/user.js:55-112 | 401/403 from the guard, 400 for a bad rating and 404 for an unknown store, each leaving the tables unchanged; otherwise the ratings become `Upsert` of the old ones, with 200 for an update and 201 for an insert, the reply row is the pair's row with the new value, one rating per pair is preserved, and so is every rating being in [1, 5]; the rating id counter moves by one exactly on an insert, the user and store counters never |
| AdminRoutes.RepeatedGuard | backend/routes/admin.js:7-8 | running `auth` and `authorize` again after the router-level pair decides exactly as one guard does |
| AdminRoutes.NewStoreError | backend/routes/admin.js:15-46 | store creation input is accepted exactly when all seven fields are present, both names are 20-60 long, both addresses at most 400 and the owner password meets the rule |
| AdminRoutes.StoreClashCheck | backend/routes/admin.js:51-52 | the duplicate check fires exactly when some store has the email or the name |
| AdminRoutes.CreateStore | backend/routes/admin.js:11-86 | the guard error; 400 for bad input, a clashing store or a used owner email, each with no row inserted; success adds exactly one Store Owner with the hashed password and one store owned by that new id, and returns 201 with the store; the dashboard counts then show one more user and one more store; the user and store id counters move by one exactly on success, the rating counter never |
| AdminRoutes.CreatedStoreOwnedByNewOwner | backend/routes/admin.js:67-78 | the new store's `owner_id` names the new owner, who has the Store Owner role and logs in with the form's password |
| AdminRoutes.NewUserError | backend/routes/admin.js:93-119 | user creation input is accepted exactly when all fields are present, the role is one of the three names, and the name, address and password rules hold; an unknown role gives "Invalid user role" |
| AdminRoutes.CreateUser | backend/routes/admin.js:89-143 | the guard error; 400 for bad input or a used email with no change; success adds exactly one user with the requested role and hashed password and returns 201 without the password; the dashboard counts then show one more user; the user id counter moves by one exactly on success, the store and rating counters never |
| AdminRoutes.TextOnly | backend/routes/admin.js:149-151 | a fixed SELECT text holds no placeholder |
| AdminRoutes.PushStoreFilters | backend/routes/admin.js:152-166 | one `LIKE ?` condition and one `%v%` per non-empty name, email, address filter, in that order |
| AdminRoutes.BuildStoreListing | backend/routes/admin.js:146-179 | one `LIKE ?` and one `%v%` per non-empty name, email, address filter in that order; placeholders match parameters; GROUP BY then the allow-listed ORDER BY |
| AdminRoutes.PushUserFilters | backend/routes/admin.js:198-217 | one `LIKE ?` condition and one `%v%` per non-empty name, email, address, role filter, in that order |
| AdminRoutes.BuildUserListing | backend/routes/admin.js:194-230 | one `LIKE ?` and one `%v%` per non-empty name, email, address, role filter in that order; placeholders match parameters; the allow-listed ORDER BY |
| AdminRoutes.NoFiltersNoWhere | backend/routes/admin.js:221-223 | with every filter empty there is no WHERE clause and no parameter |
| AdminRoutes.OwnsStoreCheck | backend/routes/admin.js:260-263 | the join condition holds exactly when a store with that id belongs to the owner |
| AdminRoutes.OwnerRatingValues | backend/routes/admin.js:260-264 | the owner's average is over no rows exactly when none of their stores has a rating |
| AdminRoutes.OwnerRatingValuesSnoc | backend/routes/admin.js:260-264 | appending a rating appends its value exactly when the owner owns its store: every rating of an owned store is averaged once, in table order |
| AdminRoutes.UserDetailOf | backend/routes/admin.js:245-273 | 404 exactly for an unknown id; otherwise that user's public columns, with `overall_rating` exactly for a Store Owner, and N/A exactly when their stores have no rating |
| AdminRoutes.StoreDetailOf | backend/routes/admin.js:276-299 | 404 exactly for an unknown store; otherwise the store, an average that is NULL exactly without ratings, and its raters newest-first, the same rows as the join |
| AdminRoutes.CountsRoute | backend/routes/admin.js:302-317 | the guard's 401/403, otherwise 200 with the user, store and rating counts (`DashboardCounts`) as the sizes of the three tables; an answer of 200 implies a verified System Administrator token |
| AdminRoutes.UserDetailRoute | backend/routes/admin.js:245-273 | the guard's 401/403, otherwise `UserDetailOf`; an answer of 200 implies a verified System Administrator token |
| AdminRoutes.StoreDetailRoute | backend/routes/admin.js:276-299 | the guard's 401/403, otherwise `StoreDetailOf`; an answer of 200 implies a verified System Administrator token |
| AdminRoutes.StoreListingRoute | backend/routes/admin.js:146-191 | the guard's 401/403, otherwise the store listing query with one `%v%` per non-empty filter and matching placeholders; an answer of 200 implies a verified System Administrator token |
| AdminRoutes.UserListingRoute | backend/routes/admin.js:194-242 | the guard's 401/403, otherwise the user listing query with one `%v%` per non-empty filter and matching placeholders; an answer of 200 implies a verified System Administrator token |
| OwnerRoutes.Dashboard | backend/routes/owner.js:10-45 | 404 exactly when the owner has no store; otherwise the owner's first store, an average that is N/A exactly when that store has no rating, and that store's joined ratings newest-first, the same rows as the join |
| OwnerRoutes.DashboardAverageOnScale | backend/routes/owner.js:25-29 | when every rating is in [1, 5], as `RateStore` keeps it, the dashboard average is in [1, 5] |
| OwnerRoutes.DashboardRoute | backend/routes/owner.js:6-7 | the guard's 401/403, otherwise the caller's dashboard; an answer of 200 implies a verified Store Owner token |
| ListControls.NextSort | frontend/src/pages/StoreList.js:64-69 | the clicked field becomes the sort field; the order is DESC exactly when the same field was sorted ASC, otherwise ASC |
| ListControls.OtherHeaderAscends | frontend/src/pages/AdminStores.js:68-73 | clicking a different header always sorts ascending |
| ListControls.RepeatedClicksAlternate | frontend/src/pages/AdminUsers.js:58-63 | n clicks on the sorted header from ASC give DESC for odd n and ASC for even n |
| ListControls.LastClickSorts | frontend/src/pages/StoreList.js:64-69 | after any clicks the sort field is the last header clicked, `name` before any click, and the order is ASC or DESC |
| ListControls.ReachableSortHonoured | frontend/src/pages/StoreList.js:153-155 | after any header clicks, the server's normalisation keeps the page's field and direction unchanged |
| ListControls.Spread | frontend/src/pages/StoreList.js:57-62 | `{ ...prev, [key]: value }` sets that key and leaves every other entry untouched |
| StoreListPage.ChoiceOf | frontend/src/pages/StoreList.js:46 | a store's form value is empty exactly when its submitted rating is absent or 0, else that rating |
| StoreListPage.ChoicesOfKeys | frontend/src/pages/StoreList.js:44-48 | `initialRatings` has one key per fetched store id and no other |
| StoreListPage.ChoicesOfValue | frontend/src/pages/StoreList.js:44-48 | each store's entry is its own rating or empty, unless a later row repeats the id |
| StoreListPage.InitialRatings | frontend/src/pages/StoreList.js:44-48 | the `forEach` loop builds exactly `ChoicesOf(rows)`, keyed by the fetched ids |
| StoreListPage.Trunc | frontend/src/pages/StoreList.js:90 | `parseInt` of a number truncates toward zero |
| StoreListPage.ClientRatingOkMeans | frontend/src/pages/StoreList.js:90-97 | the client submits exactly a chosen value in [1, 6), sending its integer part |
| StoreListPage.ClientCheckedRatingAccepted | frontend/src/pages/StoreList.js:93-102 | every rating the client sends passes the server's rating checks |
| StoreListPage.ClientTruncatesFraction | frontend/src/pages/StoreList.js:90-102 | every fractional choice in [1, 5] (4.5, say) is sent as the whole number below it, though the server would have taken it as it is |
| StoreListPage.StoreList.constructor | frontend/src/pages/StoreList.js:6-20 | empty name and address filters, sort name/ASC, no ratings chosen, form closed, no message |
| StoreListPage.StoreList.LoadStores | frontend/src/pages/StoreList.js:36-48 | the fetched rows and their initial rating choices replace the old ones; nothing else changes |
| StoreListPage.StoreList.HandleFilterChange | frontend/src/pages/StoreList.js:57-62 | only the named filter changes |
| StoreListPage.StoreList.HandleSortChange | frontend/src/pages/StoreList.js:64-69 | the sort becomes `NextSort` of the old sort; nothing else changes |
| StoreListPage.StoreList.HandleRatingChange | frontend/src/pages/StoreList.js:71-76 | only that store's rating choice changes |
| StoreListPage.StoreList.OpenRatingForm | frontend/src/pages/StoreList.js:78-82 | the form opens on the store, pre-filled with its own rating; other choices are untouched |
| StoreListPage.StoreList.CloseRatingForm | frontend/src/pages/StoreList.js:84-87 | the form closes and the store is cleared |
| StoreListPage.StoreList.HandleSubmitRating | frontend/src/pages/StoreList.js:89-113 | nothing is sent, and an error message is set, exactly when the parsed rating is falsy or outside 1..5; what is sent passes the server's checks; success closes the form, failure shows the server's message when it is present and non-empty, else "Failed to submit rating." |
| AdminStoresPage.ServerAcceptedClientAccepts | frontend/src/pages/AdminStores.js:87 | every owner password the server's rule accepts, the page's rule accepts |
| AdminStoresPage.UnderscoreOnlyPassword | frontend/src/pages/AdminStores.js:87-88 | every password of 8-16 characters on one line, with an upper-case letter and `_` as its only special character, passes the page's rule and fails the server's |
| AdminStoresPage.ClientLooserThanServer | backend/routes/admin.js:41-42 | such passwords exist: "Abcdefg_" passes the page's rule and fails the server's |
| AdminStoresPage.AdminStores.constructor | frontend/src/pages/AdminStores.js:10-31 | empty name/email/address filters, sort name/ASC, an empty seven-field form, hidden, no message, no details |
| AdminStoresPage.AdminStores.HandleFilterChange | frontend/src/pages/AdminStores.js:61-66 | only the named filter changes |
| AdminStoresPage.SetStoreFormField | frontend/src/pages/AdminStores.js:75-79 | the input's form field takes the value and every other field keeps its own; an input name outside the seven fields changes nothing |
| AdminStoresPage.AdminStores.HandleNewStoreChange | frontend/src/pages/AdminStores.js:75-79 | the form becomes `SetStoreFormField` of the old form; nothing else changes |
| AdminStoresPage.AdminStores.HandleSortChange | frontend/src/pages/AdminStores.js:68-73 | the sort becomes `NextSort` of the old sort; nothing else changes |
| AdminStoresPage.AdminStores.HandleSubmitAddStore | frontend/src/pages/AdminStores.js:82-111 | a password failing the page's rule sets the error message and sends nothing; otherwise the form is sent, and on success all seven fields reset to empty and the form hides; on failure the banner shows the server's message when it is present and non-empty, else "Failed to add store and owner." |
| AdminStoresPage.AdminStores.CloseStoreDetailsModal | frontend/src/pages/AdminStores.js:128-131 | the details modal hides and the selected store is cleared |
| AdminUsersPage.RoleOptionsMatchServer | frontend/src/pages/AdminUsers.js:124-127 | the non-empty role options are exactly the server's three allowed role names |
| AdminUsersPage.AdminUsers.constructor | frontend/src/pages/AdminUsers.js:10-21 | empty name/email/address/role filters, sort name/ASC, modal hidden, no user selected |
| AdminUsersPage.AdminUsers.HandleFilterChange | frontend/src/pages/AdminUsers.js:51-56 | only the named filter changes |
| AdminUsersPage.AdminUsers.HandleSortChange | frontend/src/pages/AdminUsers.js:58-63 | the sort becomes `NextSort` of the old sort; nothing else changes |
| AdminUsersPage.AdminUsers.CloseUserDetailsModal | frontend/src/pages/AdminUsers.js:80-83 | the modal hides and the selected user is cleared |
| PrivateRouteGate.Decide | frontend/src/components/PrivateRoute.js:5-23 | loading shows the placeholder; no user redirects to /login; a listed role set without the user's role redirects to /; the children render exactly for a user with no role list or a listed role |
| PrivateRouteGate.RenderedMeansAuthorized | frontend/src/components/PrivateRoute.js:17-22 | a page the client renders for a role list is one the server's `authorize` lets that role through |
| PrivateRouteGate.LoadedUserSeesOwnPages | frontend/src/components/PrivateRoute.js:12-22 | the user loaded with a valid token is rendered on the pages for their own role |

## Left out

- SQL execution: LIKE matching, collation, GROUP BY and the row order of an unsorted SELECT are not modelled. The model covers the query text, the parameters, and the tables that the lookups and writes read.
- Ids are unique and increase (`Database.Valid`). The first-match lookups therefore stand for the SELECTs that return one row.
- Concurrency: every handler runs alone. The check-then-act of the rating upsert and the two inserts of store creation are not atomic in the source, and the model does not claim they are.
- 500 paths (a failed query, a JWT signing error in the login callback) are not modelled.
- Request bodies and query parameters are strings or absent. Non-string JSON values, arrays, and the string-to-number coercion of `:storeId`/`:id` are not modelled.
- UserRoutes.RateStore: the rating is a number or absent. A string rating and its coercion in `rating < 1` are not modelled. The value is stored as given; the column type in the schema file, which is not part of this model, may round it.
- Common.Lower, Common.Upper: the case mapping covers ASCII only. JavaScript's full Unicode mapping, such as U+017F upper-casing to `S`, is not modelled.
- String length is the number of `char` values, not JavaScript's UTF-16 code-unit count.
- bcrypt's 72-byte input limit and its real digest are not modelled. The hash is symbolic, as described above.
- The GET /user/stores fallback to user id 1 when `req.user` is missing is not modelled. It is unreachable behind `auth`.
- AdminRoutes.StoreDetailOf: for a store without ratings the source sends the string "NaN" (`parseFloat(null).toFixed(2)`). The model returns `NotAvailable` instead.
- Ordering.AverageOf: averages are exact reals. The `toFixed(2)` formatting and floating point are not modelled.
- StoreListPage.Trunc: `parseInt` is modelled as truncation of the number. The exponent notation of very small or very large numbers is not modelled.
- Client HTTP calls, debounce timers, `setTimeout` message clearing, loading and error flags, and console logging: an HTTP call's outcome is a parameter, and the rest is not modelled.
- The refetch after a successful submit is not modelled. `LoadStores` models what a completed fetch sets.
- `openStoreDetailsModal` and `openUserDetailsModal` are not modelled: they fetch a detail and copy the reply into state. The replies themselves are modelled by `StoreDetailOf` and `UserDetailOf`.
- AdminStoresPage.SetStoreFormField: an input name outside the seven form fields would add an extra key to the JavaScript object. The model leaves the form unchanged, and the server ignores such a key.
- The login page, register page, dashboards' presentation, `App.js` and `AuthContext` are not part of this model, apart from the `/auth/user` reply the context loads.
