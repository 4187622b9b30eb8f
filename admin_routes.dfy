/** The `/admin` routes, all behind `auth` and `authorize(['System
    Administrator'])`: store-plus-owner creation, user creation, the two
    filtered listings, the user and store detail pages and the counts. */
module AdminRoutes {
  import opened Common
  import opened Credentials
  import opened Tables
  import opened Sql
  import opened Ordering
  import opened Reports
  import opened Auth

  const AdminRoles: seq<Role> := [SystemAdministrator]

  /** `GET /users/:id` and `GET /stores/:storeId` repeat `auth` and
      `authorize` after the router-level pair. */
  function RepeatedGuard(header: Option<Token>, secret: string, now: int): (g: Gate)
    ensures g == Guard(header, AdminRoles, secret, now)
  {
    match Guard(header, AdminRoles, secret, now)
    case Deny(s, m) => Deny(s, m)
    case Pass(_) =>
      match Authenticate(header, secret, now)
      case Deny(s, m) => Deny(s, m)
      case Pass(c) => Authorize(AdminRoles, c)
  }

  // ---------------------------------------------------------------------
  // POST /admin/stores
  // ---------------------------------------------------------------------

  datatype NewStoreBody = NewStoreBody(name: string, email: string, address: string,
                                       ownerName: string, ownerEmail: string,
                                       ownerPassword: string, ownerAddress: string)

  const MissingStoreFieldsMsg: string := "Please enter all store and owner fields"
  const StoreNameLengthMsg: string := "Store name must be between 20 and 60 characters"
  const StoreAddressLengthMsg: string := "Store address cannot exceed 400 characters"
  const OwnerNameLengthMsg: string := "Owner name must be between 20 and 60 characters"
  const OwnerAddressLengthMsg: string := "Owner address cannot exceed 400 characters"
  const OwnerPasswordRuleMsg: string :=
    "Owner password must be 8-16 characters long, include at least one uppercase letter and one special character"
  const StoreExistsMsg: string := "Store with this email or name already exists"
  const OwnerExistsMsg: string := "User with this owner email already exists"

  predicate AnyBlank(b: NewStoreBody)
  {
    Blank(b.name) || Blank(b.email) || Blank(b.address) || Blank(b.ownerName)
    || Blank(b.ownerEmail) || Blank(b.ownerPassword) || Blank(b.ownerAddress)
  }

  /** The checks made before the database is touched, in the route's order. */
  function NewStoreError(b: NewStoreBody): (r: Option<string>)
    ensures r.None? <==> && !AnyBlank(b)
                         && NameLengthOk(b.name) && AddressLengthOk(b.address)
                         && NameLengthOk(b.ownerName) && AddressLengthOk(b.ownerAddress)
                         && PasswordPolicy(b.ownerPassword, ServerSpecials)
    ensures AnyBlank(b) ==> r == Some(MissingStoreFieldsMsg)
  {
    RegexMeansPolicy(b.ownerPassword, ServerSpecials);
    if AnyBlank(b) then Some(MissingStoreFieldsMsg)
    else if !NameLengthOk(b.name) then Some(StoreNameLengthMsg)
    else if !AddressLengthOk(b.address) then Some(StoreAddressLengthMsg)
    else if !NameLengthOk(b.ownerName) then Some(OwnerNameLengthMsg)
    else if !AddressLengthOk(b.ownerAddress) then Some(OwnerAddressLengthMsg)
    else if !ServerPasswordOk(b.ownerPassword) then Some(OwnerPasswordRuleMsg)
    else None
  }

  /** `SELECT * FROM stores WHERE email = ? OR name = ?` returns a row. */
  predicate StoreClash(stores: seq<Store>, email: string, name: string)
  {
    exists k :: 0 <= k < |stores| && (stores[k].email == email || stores[k].name == name)
  }

  function StoreClashCheck(stores: seq<Store>, email: string, name: string): (r: bool)
    ensures r <==> StoreClash(stores, email, name)
  {
    FirstIndex(stores, (s: Store) => s.email == email || s.name == name).Some?
  }

  /** The owner row the route inserts: role fixed to Store Owner. */
  function OwnerRow(id: nat, b: NewStoreBody, salt: nat, now: int): User
  {
    User(id, b.ownerName, b.ownerEmail, HashPassword(b.ownerPassword, salt), b.ownerAddress, StoreOwner, now, now)
  }

  method CreateStore(db: Database, header: Option<Token>, b: NewStoreBody, salt: nat, secret: string, now: int)
    returns (r: Response<Store>)
    requires db.Valid()
    modifies db
    ensures db.Valid()
    ensures r.Error? ==> unchanged(db)
    ensures Guard(header, AdminRoles, secret, now).Deny? ==>
              r == Error(Guard(header, AdminRoles, secret, now).status, Guard(header, AdminRoles, secret, now).msg)
    ensures Guard(header, AdminRoles, secret, now).Pass? ==>
              && (NewStoreError(b).Some? ==> r == Error(400, NewStoreError(b).value))
              && (NewStoreError(b).None? && StoreClash(old(db.stores), b.email, b.name) ==>
                    r == Error(400, StoreExistsMsg))
              && ((NewStoreError(b).None? && !StoreClash(old(db.stores), b.email, b.name)
                   && UserByEmail(old(db.users), b.ownerEmail).Some?) ==> r == Error(400, OwnerExistsMsg))
              && (r.Ok? <==> NewStoreError(b).None? && !StoreClash(old(db.stores), b.email, b.name)
                             && UserByEmail(old(db.users), b.ownerEmail).None?)
    ensures r.Ok? ==>
              var owner := OwnerRow(old(db.nextUserId), b, salt, now);
              var store := Store(old(db.nextStoreId), b.name, b.email, b.address, owner.id);
              && db.users == old(db.users) + [owner]
              && db.stores == old(db.stores) + [store]
              && db.ratings == old(db.ratings)
              && r == Ok(201, store)
    ensures r.Ok? ==> DashboardCounts(db.users, db.stores, db.ratings)
                      == Counts(|old(db.users)| + 1, |old(db.stores)| + 1, |old(db.ratings)|)
    ensures db.nextUserId == old(db.nextUserId) + (if r.Ok? then 1 else 0)
    ensures db.nextStoreId == old(db.nextStoreId) + (if r.Ok? then 1 else 0)
    ensures db.nextRatingId == old(db.nextRatingId)
  {
    var gate := Guard(header, AdminRoles, secret, now);
    if gate.Deny? {
      return Error(gate.status, gate.msg);
    }
    var invalid := NewStoreError(b);
    if invalid.Some? {
      return Error(400, invalid.value);
    }
    if StoreClashCheck(db.stores, b.email, b.name) {
      return Error(400, StoreExistsMsg);
    }
    if UserByEmail(db.users, b.ownerEmail).Some? {
      return Error(400, OwnerExistsMsg);
    }
    var hashed := HashPassword(b.ownerPassword, salt);
    var newOwnerId := db.InsertUser(b.ownerName, b.ownerEmail, hashed, b.ownerAddress, StoreOwner, now);
    ghost var storesBefore := db.stores;
    var newStoreId := db.InsertStore(b.name, b.email, b.address, newOwnerId);
    AppendedStoreFound(storesBefore, Store(newStoreId, b.name, b.email, b.address, newOwnerId));
    var newStore := StoreById(db.stores, newStoreId);
    r := Ok(201, newStore.value);
  }

  /** A created store is owned by the owner created with it, and the owner
      logs in with the password the form gave. */
  lemma CreatedStoreOwnedByNewOwner(users: seq<User>, stores: seq<Store>, b: NewStoreBody,
                                    ownerId: nat, storeId: nat, salt: nat, secret: string, now: int)
    requires forall k :: 0 <= k < |users| ==> users[k].id != ownerId && users[k].email != b.ownerEmail
    requires !Blank(b.ownerEmail) && !Blank(b.ownerPassword)
    ensures var owner := OwnerRow(ownerId, b, salt, now);
            var after := users + [owner];
            && UserById(after, Store(storeId, b.name, b.email, b.address, ownerId).ownerId) == Some(owner)
            && owner.role == StoreOwner
            && Login(after, LoginBody(b.ownerEmail, b.ownerPassword), secret, now)
               == Ok(200, LoginResult(SignToken(Claims(ownerId, StoreOwner), secret, now), StoreOwner))
  {
    var owner := OwnerRow(ownerId, b, salt, now);
    AppendedUserFound(users, owner);
    var after := users + [owner];
    assert after[|users|] == owner;
    assert UserByEmail(after, b.ownerEmail) == Some(owner);
  }

  // ---------------------------------------------------------------------
  // POST /admin/users
  // ---------------------------------------------------------------------

  datatype NewUserBody = NewUserBody(name: string, email: string, address: string, password: string, role: string)

  const InvalidRoleMsg: string := "Invalid user role"
  const UserEmailExistsMsg: string := "User already exists with this email"

  /** The checks made before the database is touched, in the route's order:
      all fields, the role, then the shared field rules. */
  function NewUserError(b: NewUserBody): (r: Option<string>)
    ensures r.None? <==> && !Blank(b.name) && !Blank(b.email) && !Blank(b.address) && !Blank(b.password)
                         && b.role in AllowedRoleNames
                         && NameLengthOk(b.name) && AddressLengthOk(b.address)
                         && PasswordPolicy(b.password, ServerSpecials)
    ensures (Blank(b.name) || Blank(b.email) || Blank(b.address) || Blank(b.password) || Blank(b.role))
            ==> r == Some(MissingFieldsMsg)
    ensures (!Blank(b.name) && !Blank(b.email) && !Blank(b.address) && !Blank(b.password) && !Blank(b.role)
             && ParseRole(b.role).None?) ==> r == Some(InvalidRoleMsg)
  {
    RegexMeansPolicy(b.password, ServerSpecials);
    if Blank(b.name) || Blank(b.email) || Blank(b.address) || Blank(b.password) || Blank(b.role) then
      Some(MissingFieldsMsg)
    else if ParseRole(b.role).None? then Some(InvalidRoleMsg)
    else if !NameLengthOk(b.name) then Some(NameLengthMsg)
    else if !AddressLengthOk(b.address) then Some(AddressLengthMsg)
    else if !ServerPasswordOk(b.password) then Some(PasswordRuleMsg)
    else None
  }

  method CreateUser(db: Database, header: Option<Token>, b: NewUserBody, salt: nat, secret: string, now: int)
    returns (r: Response<PublicUser>)
    requires db.Valid()
    modifies db
    ensures db.Valid()
    ensures r.Error? ==> unchanged(db)
    ensures Guard(header, AdminRoles, secret, now).Deny? ==>
              r == Error(Guard(header, AdminRoles, secret, now).status, Guard(header, AdminRoles, secret, now).msg)
    ensures Guard(header, AdminRoles, secret, now).Pass? ==>
              && (NewUserError(b).Some? ==> r == Error(400, NewUserError(b).value))
              && (NewUserError(b).None? && UserByEmail(old(db.users), b.email).Some? ==>
                    r == Error(400, UserEmailExistsMsg))
              && (r.Ok? <==> NewUserError(b).None? && UserByEmail(old(db.users), b.email).None?)
    ensures r.Ok? ==>
              var u := User(old(db.nextUserId), b.name, b.email, HashPassword(b.password, salt), b.address,
                            ParseRole(b.role).value, now, now);
              && db.users == old(db.users) + [u]
              && db.stores == old(db.stores) && db.ratings == old(db.ratings)
              && r == Ok(201, Public(u))
              && RoleName(u.role) == b.role
    ensures r.Ok? ==> DashboardCounts(db.users, db.stores, db.ratings)
                      == Counts(|old(db.users)| + 1, |old(db.stores)|, |old(db.ratings)|)
    ensures db.nextUserId == old(db.nextUserId) + (if r.Ok? then 1 else 0)
    ensures db.nextStoreId == old(db.nextStoreId) && db.nextRatingId == old(db.nextRatingId)
  {
    var gate := Guard(header, AdminRoles, secret, now);
    if gate.Deny? {
      return Error(gate.status, gate.msg);
    }
    var invalid := NewUserError(b);
    if invalid.Some? {
      return Error(400, invalid.value);
    }
    if UserByEmail(db.users, b.email).Some? {
      return Error(400, UserEmailExistsMsg);
    }
    var role := ParseRole(b.role).value;
    var hashed := HashPassword(b.password, salt);
    ghost var usersBefore := db.users;
    var newUserId := db.InsertUser(b.name, b.email, hashed, b.address, role, now);
    AppendedUserFound(usersBefore, User(newUserId, b.name, b.email, hashed, b.address, role, now, now));
    var newUser := UserById(db.users, newUserId);
    r := Ok(201, Public(newUser.value));
  }

  // ---------------------------------------------------------------------
  // GET /admin/stores and GET /admin/users
  // ---------------------------------------------------------------------

  datatype StoreQuery = StoreQuery(name: string, email: string, address: string,
                                   sortBy: Option<string>, order: Option<string>)

  datatype UserQuery = UserQuery(name: string, email: string, address: string, role: string,
                                 sortBy: Option<string>, order: Option<string>)

  const StoreSortFields: seq<string> := ["name", "email", "address", "overall_rating"]
  const UserSortFields: seq<string> := ["name", "email", "address", "role"]

  const StoreSelect: seq<SqlPart> := [
    Text("SELECT s.id, s.name, s.email, s.address, AVG(r.rating) AS overall_rating "
         + "FROM stores s LEFT JOIN ratings r ON s.id = r.store_id")
  ]
  const UserSelect: seq<SqlPart> := [Text("SELECT u.id, u.name, u.email, u.address, u.role FROM users u")]

  function StoreFilters(q: StoreQuery): seq<Filter>
  {
    [Filter("s.name", q.name), Filter("s.email", q.email), Filter("s.address", q.address)]
  }

  function UserFilters(q: UserQuery): seq<Filter>
  {
    [Filter("u.name", q.name), Filter("u.email", q.email), Filter("u.address", q.address), Filter("u.role", q.role)]
  }

  /** A part with no `Param` in it, such as each route's fixed SELECT. */
  lemma TextOnly(t: string)
    ensures Placeholders([Text(t)]) == 0
  {
    assert [Text(t)][1..] == [];
  }

  /** The route's `if (name)`, `if (email)`, `if (address)` blocks. */
  method PushStoreFilters(q: StoreQuery) returns (conditions: seq<seq<SqlPart>>, params: seq<SqlValue>)
    ensures conditions == Conditions(StoreFilters(q))
    ensures params == LikeParams(StoreFilters(q))
  {
    ghost var seen: seq<Filter> := [];
    params := [];
    conditions := [];
    assert Conditions(seen) == [] && LikeParams(seen) == [];
    var f := Filter("s.name", q.name);
    conditions, params := PushFilter(conditions, params, f);
    FilterStep(seen, f);
    seen := seen + [f];
    assert conditions == Conditions(seen) && params == LikeParams(seen);
    f := Filter("s.email", q.email);
    conditions, params := PushFilter(conditions, params, f);
    FilterStep(seen, f);
    seen := seen + [f];
    assert conditions == Conditions(seen) && params == LikeParams(seen);
    f := Filter("s.address", q.address);
    conditions, params := PushFilter(conditions, params, f);
    FilterStep(seen, f);
    seen := seen + [f];
    assert seen == StoreFilters(q);
  }

  method BuildStoreListing(q: StoreQuery) returns (query: seq<SqlPart>, params: seq<SqlValue>)
    ensures params == LikeParams(StoreFilters(q))
    ensures Placeholders(query) == |params|
    ensures query == StoreSelect + WhereClause(StoreFilters(q)) + GroupByStore
                     + OrderBy(SortField(q.sortBy, StoreSortFields), SortOrder(q.order))
  {
    var conditions;
    conditions, params := PushStoreFilters(q);
    var where := WhereFrom(conditions);
    var sortField := SortField(q.sortBy, StoreSortFields);
    var sortOrder := SortOrder(q.order);
    var tail := GroupByStore + OrderBy(sortField, sortOrder);
    query := StoreSelect + where + tail;
    OrderByPlaceholders(sortField, sortOrder);
    TextOnly(" GROUP BY s.id");
    PlaceholdersAppend(GroupByStore, OrderBy(sortField, sortOrder));
    TextOnly(StoreSelect[0].text);
    ListingPlaceholders(StoreSelect, StoreFilters(q), tail);
  }

  /** The route's `if (name)`, `if (email)`, `if (address)`, `if (role)` blocks. */
  method PushUserFilters(q: UserQuery) returns (conditions: seq<seq<SqlPart>>, params: seq<SqlValue>)
    ensures conditions == Conditions(UserFilters(q))
    ensures params == LikeParams(UserFilters(q))
  {
    ghost var seen: seq<Filter> := [];
    params := [];
    conditions := [];
    assert Conditions(seen) == [] && LikeParams(seen) == [];
    var f := Filter("u.name", q.name);
    conditions, params := PushFilter(conditions, params, f);
    FilterStep(seen, f);
    seen := seen + [f];
    assert conditions == Conditions(seen) && params == LikeParams(seen);
    f := Filter("u.email", q.email);
    conditions, params := PushFilter(conditions, params, f);
    FilterStep(seen, f);
    seen := seen + [f];
    assert conditions == Conditions(seen) && params == LikeParams(seen);
    f := Filter("u.address", q.address);
    conditions, params := PushFilter(conditions, params, f);
    FilterStep(seen, f);
    seen := seen + [f];
    assert conditions == Conditions(seen) && params == LikeParams(seen);
    f := Filter("u.role", q.role);
    conditions, params := PushFilter(conditions, params, f);
    FilterStep(seen, f);
    seen := seen + [f];
    assert seen == UserFilters(q);
  }

  method BuildUserListing(q: UserQuery) returns (query: seq<SqlPart>, params: seq<SqlValue>)
    ensures params == LikeParams(UserFilters(q))
    ensures Placeholders(query) == |params|
    ensures query == UserSelect + WhereClause(UserFilters(q))
                     + OrderBy(SortField(q.sortBy, UserSortFields), SortOrder(q.order))
  {
    var conditions;
    conditions, params := PushUserFilters(q);
    var where := WhereFrom(conditions);
    var sortField := SortField(q.sortBy, UserSortFields);
    var sortOrder := SortOrder(q.order);
    query := UserSelect + where + OrderBy(sortField, sortOrder);
    OrderByPlaceholders(sortField, sortOrder);
    TextOnly(UserSelect[0].text);
    ListingPlaceholders(UserSelect, UserFilters(q), OrderBy(sortField, sortOrder));
  }

  /** With every filter empty the listing has no WHERE clause and no parameter. */
  lemma NoFiltersNoWhere(q: UserQuery)
    requires Blank(q.name) && Blank(q.email) && Blank(q.address) && Blank(q.role)
    ensures WhereClause(UserFilters(q)) == [] && LikeParams(UserFilters(q)) == []
  {
    WhereClauseMatchesParams(UserFilters(q));
  }

  // ---------------------------------------------------------------------
  // GET /admin/users/:id
  // ---------------------------------------------------------------------

  const UserNotFoundMsg: string := "User not found"

  /** The public columns, plus `overall_rating` for a Store Owner only. */
  datatype UserDetail = UserDetail(user: PublicUser, overallRating: Option<Average>)

  /** `SELECT id FROM stores WHERE owner_id = ?` finds the store `storeId`. */
  predicate OwnsStore(stores: seq<Store>, ownerId: nat, storeId: nat)
  {
    exists k :: 0 <= k < |stores| && stores[k].id == storeId && stores[k].ownerId == ownerId
  }

  function OwnsStoreCheck(stores: seq<Store>, ownerId: nat, storeId: nat): (r: bool)
    ensures r <==> OwnsStore(stores, ownerId, storeId)
  {
    FirstIndex(stores, (s: Store) => s.id == storeId && s.ownerId == ownerId).Some?
  }

  /** The ratings `stores s JOIN ratings r ON s.id = r.store_id WHERE s.owner_id = ?`
      averages: those of every store the owner has. */
  function OwnerRatingValues(stores: seq<Store>, ratings: seq<Rating>, ownerId: nat): (r: seq<real>)
    ensures r == [] <==> forall k :: 0 <= k < |ratings| ==> !OwnsStore(stores, ownerId, ratings[k].storeId)
  {
    if ratings == [] then []
    else
      var rest := OwnerRatingValues(stores, ratings[1..], ownerId);
      assert forall k :: 1 <= k < |ratings| ==> ratings[k] == ratings[1..][k - 1];
      (if OwnsStoreCheck(stores, ownerId, ratings[0].storeId) then [ratings[0].rating] else []) + rest
  }

  /** Appending a rating appends its value exactly when the owner owns its
      store: with the empty case above, every rating of an owned store is
      counted once, in table order. */
  lemma {:induction false} OwnerRatingValuesSnoc(stores: seq<Store>, ratings: seq<Rating>, x: Rating, ownerId: nat)
    ensures OwnerRatingValues(stores, ratings + [x], ownerId)
            == OwnerRatingValues(stores, ratings, ownerId)
               + (if OwnsStore(stores, ownerId, x.storeId) then [x.rating] else [])
  {
    var last := if OwnsStoreCheck(stores, ownerId, x.storeId) then [x.rating] else [];
    if ratings == [] {
      assert ratings + [x] == [x];
      assert [x][1..] == [];
      assert OwnerRatingValues(stores, [x], ownerId) == last + OwnerRatingValues(stores, [], ownerId);
    } else {
      var head := if OwnsStoreCheck(stores, ownerId, ratings[0].storeId) then [ratings[0].rating] else [];
      assert (ratings + [x])[0] == ratings[0];
      assert (ratings + [x])[1..] == ratings[1..] + [x];
      OwnerRatingValuesSnoc(stores, ratings[1..], x, ownerId);
      calc {
        OwnerRatingValues(stores, ratings + [x], ownerId);
        head + OwnerRatingValues(stores, ratings[1..] + [x], ownerId);
        head + (OwnerRatingValues(stores, ratings[1..], ownerId) + last);
        (head + OwnerRatingValues(stores, ratings[1..], ownerId)) + last;
      }
    }
  }

  function UserDetailOf(users: seq<User>, stores: seq<Store>, ratings: seq<Rating>, id: nat)
    : (r: Response<UserDetail>)
    ensures r.Error? <==> forall k :: 0 <= k < |users| ==> users[k].id != id
    ensures r.Error? ==> r == Error(404, UserNotFoundMsg)
    ensures r.Ok? ==> r.status == 200 && r.body.user.id == id
                      && exists k :: 0 <= k < |users| && r.body.user == Public(users[k])
    ensures r.Ok? ==> (r.body.overallRating.Some? <==> r.body.user.role == StoreOwner)
    ensures r.Ok? && r.body.overallRating.Some? ==>
              (r.body.overallRating.value.NotAvailable? <==>
                 forall k :: 0 <= k < |ratings| ==> !OwnsStore(stores, id, ratings[k].storeId))
  {
    match UserById(users, id)
    case None => Error(404, UserNotFoundMsg)
    case Some(u) =>
      var rating := if u.role == StoreOwner then Some(AverageOf(OwnerRatingValues(stores, ratings, id))) else None;
      Ok(200, UserDetail(Public(u), rating))
  }

  // ---------------------------------------------------------------------
  // GET /admin/stores/:storeId
  // ---------------------------------------------------------------------

  const StoreNotFoundMsg: string := "Store not found"

  /** One row of `ratings r JOIN users u`: `r.rating, r.created_at, u.name, u.email`. */
  datatype RaterRow = RaterRow(rating: real, createdAt: int, userName: string, userEmail: string)

  function Rater(row: UserRating): RaterRow
  {
    RaterRow(row.rating, row.createdAt, row.userName, row.userEmail)
  }

  function RaterCreatedAt(row: RaterRow): int
  {
    row.createdAt
  }

  datatype StoreDetail = StoreDetail(store: Store, overallRating: Average, ratings: seq<RaterRow>)

  function StoreDetailOf(users: seq<User>, stores: seq<Store>, ratings: seq<Rating>, storeId: nat)
    : (r: Response<StoreDetail>)
    ensures r.Error? <==> forall k :: 0 <= k < |stores| ==> stores[k].id != storeId
    ensures r.Error? ==> r == Error(404, StoreNotFoundMsg)
    ensures r.Ok? ==> r.status == 200 && r.body.store.id == storeId && r.body.store in stores
    ensures r.Ok? ==> (r.body.overallRating.NotAvailable? <==>
                         forall k :: 0 <= k < |ratings| ==> ratings[k].storeId != storeId)
    ensures r.Ok? ==> Descending(r.body.ratings, RaterCreatedAt)
    ensures r.Ok? ==>
              var joined := JoinRows(users, ratings, storeId);
              multiset(r.body.ratings) == multiset(seq(|joined|, i requires 0 <= i < |joined| => Rater(joined[i])))
  {
    match StoreById(stores, storeId)
    case None => Error(404, StoreNotFoundMsg)
    case Some(s) =>
      var joined := JoinRows(users, ratings, storeId);
      var rows := seq(|joined|, i requires 0 <= i < |joined| => Rater(joined[i]));
      Ok(200, StoreDetail(s, AverageOf(StoreRatingValues(ratings, storeId)), SortDesc(rows, RaterCreatedAt)))
  }

  // ---------------------------------------------------------------------
  // GET /admin/dashboard-counts
  // ---------------------------------------------------------------------

  datatype Counts = Counts(totalUsers: nat, totalStores: nat, totalRatings: nat)

  /** `SELECT COUNT(*)` of each table. */
  function DashboardCounts(users: seq<User>, stores: seq<Store>, ratings: seq<Rating>): Counts
  {
    Counts(|users|, |stores|, |ratings|)
  }

  /** The route: the guard, then the three counts with status 200. */
  function CountsRoute(users: seq<User>, stores: seq<Store>, ratings: seq<Rating>,
                       header: Option<Token>, secret: string, now: int)
    : (r: Response<Counts>)
    ensures Guard(header, AdminRoles, secret, now).Deny? ==>
              r == Error(Guard(header, AdminRoles, secret, now).status, Guard(header, AdminRoles, secret, now).msg)
    ensures Guard(header, AdminRoles, secret, now).Pass? ==>
              r == Ok(200, Counts(|users|, |stores|, |ratings|))
    ensures r.Ok? ==> Authenticate(header, secret, now).Pass?
                      && Authenticate(header, secret, now).claims.role == SystemAdministrator
  {
    match Guard(header, AdminRoles, secret, now)
    case Deny(s, m) => Error(s, m)
    case Pass(_) => Ok(200, DashboardCounts(users, stores, ratings))
  }

  // ---------------------------------------------------------------------
  // The read routes behind the router-level guard
  // ---------------------------------------------------------------------

  /** `GET /admin/users/:id`, with its repeated guard. */
  function UserDetailRoute(users: seq<User>, stores: seq<Store>, ratings: seq<Rating>,
                           header: Option<Token>, secret: string, now: int, id: nat)
    : (r: Response<UserDetail>)
    ensures Guard(header, AdminRoles, secret, now).Deny? ==>
              r == Error(Guard(header, AdminRoles, secret, now).status, Guard(header, AdminRoles, secret, now).msg)
    ensures Guard(header, AdminRoles, secret, now).Pass? ==> r == UserDetailOf(users, stores, ratings, id)
    ensures r.Ok? ==> Authenticate(header, secret, now).Pass?
                      && Authenticate(header, secret, now).claims.role == SystemAdministrator
  {
    match RepeatedGuard(header, secret, now)
    case Deny(s, m) => Error(s, m)
    case Pass(_) => UserDetailOf(users, stores, ratings, id)
  }

  /** `GET /admin/stores/:storeId`, with its repeated guard. */
  function StoreDetailRoute(users: seq<User>, stores: seq<Store>, ratings: seq<Rating>,
                            header: Option<Token>, secret: string, now: int, storeId: nat)
    : (r: Response<StoreDetail>)
    ensures Guard(header, AdminRoles, secret, now).Deny? ==>
              r == Error(Guard(header, AdminRoles, secret, now).status, Guard(header, AdminRoles, secret, now).msg)
    ensures Guard(header, AdminRoles, secret, now).Pass? ==> r == StoreDetailOf(users, stores, ratings, storeId)
    ensures r.Ok? ==> Authenticate(header, secret, now).Pass?
                      && Authenticate(header, secret, now).claims.role == SystemAdministrator
  {
    match RepeatedGuard(header, secret, now)
    case Deny(s, m) => Error(s, m)
    case Pass(_) => StoreDetailOf(users, stores, ratings, storeId)
  }

  /** The SQL a listing route sends: the query text and its parameters. */
  datatype Listing = Listing(query: seq<SqlPart>, params: seq<SqlValue>)

  /** `GET /admin/stores`: the guard, then the listing query. */
  method StoreListingRoute(header: Option<Token>, secret: string, now: int, q: StoreQuery)
    returns (r: Response<Listing>)
    ensures Guard(header, AdminRoles, secret, now).Deny? ==>
              r == Error(Guard(header, AdminRoles, secret, now).status, Guard(header, AdminRoles, secret, now).msg)
    ensures Guard(header, AdminRoles, secret, now).Pass? ==>
              && r.Ok? && r.status == 200
              && r.body.params == LikeParams(StoreFilters(q))
              && Placeholders(r.body.query) == |r.body.params|
              && r.body.query == StoreSelect + WhereClause(StoreFilters(q)) + GroupByStore
                                 + OrderBy(SortField(q.sortBy, StoreSortFields), SortOrder(q.order))
    ensures r.Ok? ==> Authenticate(header, secret, now).Pass?
                      && Authenticate(header, secret, now).claims.role == SystemAdministrator
  {
    var gate := Guard(header, AdminRoles, secret, now);
    if gate.Deny? {
      return Error(gate.status, gate.msg);
    }
    var query, params := BuildStoreListing(q);
    r := Ok(200, Listing(query, params));
  }

  /** `GET /admin/users`: the guard, then the listing query. */
  method UserListingRoute(header: Option<Token>, secret: string, now: int, q: UserQuery)
    returns (r: Response<Listing>)
    ensures Guard(header, AdminRoles, secret, now).Deny? ==>
              r == Error(Guard(header, AdminRoles, secret, now).status, Guard(header, AdminRoles, secret, now).msg)
    ensures Guard(header, AdminRoles, secret, now).Pass? ==>
              && r.Ok? && r.status == 200
              && r.body.params == LikeParams(UserFilters(q))
              && Placeholders(r.body.query) == |r.body.params|
              && r.body.query == UserSelect + WhereClause(UserFilters(q))
                                 + OrderBy(SortField(q.sortBy, UserSortFields), SortOrder(q.order))
    ensures r.Ok? ==> Authenticate(header, secret, now).Pass?
                      && Authenticate(header, secret, now).claims.role == SystemAdministrator
  {
    var gate := Guard(header, AdminRoles, secret, now);
    if gate.Deny? {
      return Error(gate.status, gate.msg);
    }
    var query, params := BuildUserListing(q);
    r := Ok(200, Listing(query, params));
  }
}
