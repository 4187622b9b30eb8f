/** The `/user` routes: the store listing a signed-in user sees (with their
    own rating per store) and the rating upsert for Normal Users. */
module UserRoutes {
  import opened Common
  import opened Credentials
  import opened Tables
  import opened Sql
  import opened Auth

  // ---------------------------------------------------------------------
  // GET /user/stores (behind `auth`)
  // ---------------------------------------------------------------------

  /** The query string: `name`, `address`, `sort_by`, `order`. An absent
      filter is `""`; an absent sort parameter is `None`. */
  datatype StoreListQuery = StoreListQuery(name: string, address: string, sortBy: Option<string>, order: Option<string>)

  const RaterStoreSortFields: seq<string> := ["name", "address", "overall_rating"]

  /** The SELECT up to the LEFT JOIN. Its one placeholder is the caller's id
      in the correlated sub-query for `user_submitted_rating`. */
  const UserStoreSelect: seq<SqlPart> := [
    Text("SELECT s.id, s.name, s.address, AVG(r.rating) AS overall_rating, "
         + "(SELECT ur.rating FROM ratings ur WHERE ur.store_id = s.id AND ur.user_id = "),
    Param,
    Text(") AS user_submitted_rating FROM stores s LEFT JOIN ratings r ON s.id = r.store_id")
  ]

  /** The listing's filters in the order the route tests them. */
  function UserStoreFilters(q: StoreListQuery): seq<Filter>
  {
    [Filter("s.name", q.name), Filter("s.address", q.address)]
  }

  lemma UserStoreSelectPlaceholders()
    ensures Placeholders(UserStoreSelect) == 1
  {
    var q := UserStoreSelect;
    calc {
      Placeholders(q);
      Placeholders(q[1..]);
      1 + Placeholders(q[1..][1..]);
      { assert Placeholders(q[1..][1..][1..]) == 0; }
      1;
    }
  }

  /** The route's `queryParams` seeded with the caller's id, then its
      `if (name)` and `if (address)` blocks. */
  method PushUserStoreFilters(userId: nat, q: StoreListQuery)
    returns (conditions: seq<seq<SqlPart>>, params: seq<SqlValue>)
    ensures conditions == Conditions(UserStoreFilters(q))
    ensures params == [IntValue(userId)] + LikeParams(UserStoreFilters(q))
  {
    ghost var seen: seq<Filter> := [];
    params := [IntValue(userId)];
    conditions := [];
    assert Conditions(seen) == [] && LikeParams(seen) == [];
    var f := Filter("s.name", q.name);
    conditions, params := PushFilter(conditions, params, f);
    FilterStep(seen, f);
    seen := seen + [f];
    assert conditions == Conditions(seen) && params == [IntValue(userId)] + LikeParams(seen);
    f := Filter("s.address", q.address);
    conditions, params := PushFilter(conditions, params, f);
    FilterStep(seen, f);
    seen := seen + [f];
    assert seen == UserStoreFilters(q);
  }

  /** Builds the listing query and its parameters the way the route does:
      the caller's id first, then one `%value%` per non-empty filter, and an
      ORDER BY taken from the allow-lists. */
  method BuildStoreListing(userId: nat, q: StoreListQuery) returns (query: seq<SqlPart>, params: seq<SqlValue>)
    ensures params == [IntValue(userId)] + LikeParams(UserStoreFilters(q))
    ensures params == [IntValue(userId)]
                      + (if Blank(q.name) then [] else [StrValue(LikePattern(q.name))])
                      + (if Blank(q.address) then [] else [StrValue(LikePattern(q.address))])
    ensures Placeholders(query) == |params|
    ensures query == UserStoreSelect + WhereClause(UserStoreFilters(q)) + GroupByStore
                     + OrderBy(SortField(q.sortBy, RaterStoreSortFields), SortOrder(q.order))
  {
    var conditions;
    conditions, params := PushUserStoreFilters(userId, q);
    UserStoreParams(q);
    var where := WhereFrom(conditions);
    var sortField := SortField(q.sortBy, RaterStoreSortFields);
    var sortOrder := SortOrder(q.order);
    var tail := GroupByStore + OrderBy(sortField, sortOrder);
    query := UserStoreSelect + where + tail;
    OrderByPlaceholders(sortField, sortOrder);
    TailPlaceholders(OrderBy(sortField, sortOrder));
    ListingPlaceholders(UserStoreSelect, UserStoreFilters(q), tail);
    UserStoreSelectPlaceholders();
  }

  /** The two filters' parameters: `%name%` if given, then `%address%` if given. */
  lemma UserStoreParams(q: StoreListQuery)
    ensures LikeParams(UserStoreFilters(q))
            == (if Blank(q.name) then [] else [StrValue(LikePattern(q.name))])
               + (if Blank(q.address) then [] else [StrValue(LikePattern(q.address))])
  {
    var name := Filter("s.name", q.name);
    FilterStep([], name);
    assert [] + [name] == [name];
    FilterStep([name], Filter("s.address", q.address));
    assert [name] + [Filter("s.address", q.address)] == UserStoreFilters(q);
  }

  /** Nothing after the WHERE clause has a placeholder. */
  lemma TailPlaceholders(orderBy: seq<SqlPart>)
    requires Placeholders(orderBy) == 0
    ensures Placeholders(GroupByStore + orderBy) == 0
  {
    assert GroupByStore[1..] == [];
    PlaceholdersAppend(GroupByStore, orderBy);
  }

  // ---------------------------------------------------------------------
  // POST /user/stores/:storeId/rate (behind `auth` and `authorize(['Normal User'])`)
  // ---------------------------------------------------------------------

  const MissingRatingMsg: string := "Please provide a rating"
  const RatingRangeMsg: string := "Rating must be between 1 and 5"
  const StoreNotFoundMsg: string := "Store not found"
  const RatingUpdatedMsg: string := "Rating updated successfully"
  const RatingSubmittedMsg: string := "Rating submitted successfully"

  /** The roles `authorize` lets through to the rating route. */
  const RaterRoles: seq<Role> := [NormalUser]

  /** The body's checks: `!rating` (absent, `null` or `0`), then the range.
      Any value in [1, 5] passes, whole or not. */
  function RatingError(rating: Option<real>): (r: Option<string>)
    ensures r.None? <==> rating.Some? && 1.0 <= rating.value <= 5.0
    ensures r == Some(MissingRatingMsg) <==> rating.None? || rating.value == 0.0
    ensures r.Some? ==> r.value == MissingRatingMsg || r.value == RatingRangeMsg
  {
    if rating.None? || rating.value == 0.0 then Some(MissingRatingMsg)
    else if rating.value < 1.0 || rating.value > 5.0 then Some(RatingRangeMsg)
    else None
  }

  /** The table after the route's SELECT-then-UPDATE-or-INSERT: every row of
      the pair takes the new value when one exists, otherwise one row with
      the next id is appended. */
  function Upsert(ratings: seq<Rating>, storeId: nat, userId: nat, value: real, nextId: nat, now: int)
    : (r: seq<Rating>)
    ensures HasRating(r, storeId, userId)
    ensures forall k :: 0 <= k < |r| && IsPair(r[k], storeId, userId) ==> r[k].rating == value
    ensures |r| == |ratings| + (if HasRating(ratings, storeId, userId) then 0 else 1)
    ensures forall k :: 0 <= k < |ratings| && !IsPair(ratings[k], storeId, userId) ==> r[k] == ratings[k]
    ensures forall k :: 0 <= k < |ratings| && IsPair(ratings[k], storeId, userId) ==>
              r[k] == ratings[k].(rating := value, updatedAt := now)
    ensures !HasRating(ratings, storeId, userId) ==> r[|ratings|] == Rating(nextId, storeId, userId, value, now, now)
  {
    if HasRating(ratings, storeId, userId) then
      var k :| 0 <= k < |ratings| && IsPair(ratings[k], storeId, userId);
      var after := SetRating(ratings, storeId, userId, value, now);
      assert IsPair(after[k], storeId, userId);
      after
    else
      var after := ratings + [Rating(nextId, storeId, userId, value, now, now)];
      assert IsPair(after[|ratings|], storeId, userId);
      after
  }

  /** The route keeps at most one rating per (store, user): an update keeps
      every row's pair, an insert adds a pair no row had. */
  lemma UpsertKeepsOneRatingPerPair(ratings: seq<Rating>, storeId: nat, userId: nat, value: real, nextId: nat, now: int)
    requires OneRatingPerPair(ratings)
    ensures OneRatingPerPair(Upsert(ratings, storeId, userId, value, nextId, now))
  {
    var r := Upsert(ratings, storeId, userId, value, nextId, now);
    if HasRating(ratings, storeId, userId) {
      forall i, j | 0 <= i < j < |r|
        ensures !IsPair(r[j], r[i].storeId, r[i].userId)
      {
        assert r[i].storeId == ratings[i].storeId && r[i].userId == ratings[i].userId;
        assert r[j].storeId == ratings[j].storeId && r[j].userId == ratings[j].userId;
      }
    } else {
      forall i, j | 0 <= i < j < |r|
        ensures !IsPair(r[j], r[i].storeId, r[i].userId)
      {
        if j == |ratings| {
          assert r[i] == ratings[i];
        }
      }
    }
  }

  /** Ratings stay on the 1-to-5 scale: the upsert writes only an accepted
      value, into the pair's rows or one new row. */
  lemma UpsertKeepsScale(ratings: seq<Rating>, storeId: nat, userId: nat, value: real, nextId: nat, now: int)
    requires 1.0 <= value <= 5.0
    requires OnScale(ratings)
    ensures OnScale(Upsert(ratings, storeId, userId, value, nextId, now))
  {
    var r := Upsert(ratings, storeId, userId, value, nextId, now);
    forall k | 0 <= k < |r|
      ensures 1.0 <= r[k].rating <= 5.0
    {
      if k < |ratings| && !IsPair(ratings[k], storeId, userId) {
        assert r[k] == ratings[k];
      }
    }
  }

  /** Rating the same store again replaces the earlier rating instead of
      adding a row: the table has the length of the first upsert and the
      pair's row holds the latest value. */
  lemma {:induction false} RatingAgainReplaces(ratings: seq<Rating>, storeId: nat, userId: nat,
                                               first: real, second: real, nextId: nat, t1: int, t2: int)
    ensures var once := Upsert(ratings, storeId, userId, first, nextId, t1);
            var twice := Upsert(once, storeId, userId, second, nextId + 1, t2);
            && |twice| == |once|
            && forall k :: 0 <= k < |twice| && IsPair(twice[k], storeId, userId) ==> twice[k].rating == second
  {
    var once := Upsert(ratings, storeId, userId, first, nextId, t1);
    assert HasRating(once, storeId, userId);
  }

  /** The JSON the route answers with on success. */
  datatype RatingReply = RatingReply(msg: string, rating: Rating)

  method RateStore(db: Database, header: Option<Token>, storeId: nat, rating: Option<real>,
                   secret: string, now: int)
    returns (r: Response<RatingReply>)
    requires db.Valid()
    modifies db
    ensures db.Valid()
    ensures r.Error? ==> unchanged(db)
    ensures Guard(header, RaterRoles, secret, now).Deny? ==>
              r == Error(Guard(header, RaterRoles, secret, now).status, Guard(header, RaterRoles, secret, now).msg)
    ensures Guard(header, RaterRoles, secret, now).Pass? ==>
              var userId := Guard(header, RaterRoles, secret, now).claims.id;
              && (RatingError(rating).Some? ==> r == Error(400, RatingError(rating).value))
              && (RatingError(rating).None? && StoreById(old(db.stores), storeId).None? ==>
                    r == Error(404, StoreNotFoundMsg))
              && (r.Ok? <==> RatingError(rating).None? && StoreById(old(db.stores), storeId).Some?)
              && (r.Ok? ==>
                    && db.ratings == Upsert(old(db.ratings), storeId, userId, rating.value, old(db.nextRatingId), now)
                    && r.status == (if HasRating(old(db.ratings), storeId, userId) then 200 else 201)
                    && r.body.msg == (if r.status == 200 then RatingUpdatedMsg else RatingSubmittedMsg)
                    && r.body.rating in db.ratings
                    && IsPair(r.body.rating, storeId, userId)
                    && r.body.rating.rating == rating.value)
    ensures r.Ok? ==> db.users == old(db.users) && db.stores == old(db.stores)
    ensures db.nextUserId == old(db.nextUserId) && db.nextStoreId == old(db.nextStoreId)
    ensures db.nextRatingId == old(db.nextRatingId) + (if r.Ok? && r.status == 201 then 1 else 0)
    ensures OneRatingPerPair(old(db.ratings)) ==> OneRatingPerPair(db.ratings)
    ensures OnScale(old(db.ratings)) ==> OnScale(db.ratings)
  {
    var gate := Guard(header, RaterRoles, secret, now);
    if gate.Deny? {
      return Error(gate.status, gate.msg);
    }
    var userId := gate.claims.id;
    var invalid := RatingError(rating);
    if invalid.Some? {
      return Error(400, invalid.value);
    }
    var value := rating.value;
    if StoreById(db.stores, storeId).None? {
      return Error(404, StoreNotFoundMsg);
    }
    ghost var before := db.ratings;
    ghost var nextId := db.nextRatingId;
    if OneRatingPerPair(before) {
      UpsertKeepsOneRatingPerPair(before, storeId, userId, value, nextId, now);
    }
    if OnScale(before) {
      UpsertKeepsScale(before, storeId, userId, value, nextId, now);
    }
    var existing := RatingFor(db.ratings, storeId, userId);
    if existing.Some? {
      db.UpdateRating(storeId, userId, value, now);
      assert db.ratings == Upsert(before, storeId, userId, value, nextId, now);
      var updated := RatingFor(db.ratings, storeId, userId);
      r := Ok(200, RatingReply(RatingUpdatedMsg, updated.value));
    } else {
      var newId := db.InsertRating(storeId, userId, value, now);
      var row := Rating(newId, storeId, userId, value, now, now);
      AppendedRatingFound(before, row);
      var inserted := RatingById(db.ratings, newId);
      r := Ok(201, RatingReply(RatingSubmittedMsg, inserted.value));
    }
  }
}
