/** The three MySQL tables (`users`, `stores`, `ratings`) as an in-memory
    database: one sequence of rows per table in retrieval order, plus the
    AUTO_INCREMENT counter that hands out each table's next id. */
module Tables {
  import opened Common
  import opened Credentials

  datatype User = User(id: nat, name: string, email: string, password: PasswordHash,
                       address: string, role: Role, createdAt: int, updatedAt: int)

  datatype Store = Store(id: nat, name: string, email: string, address: string, ownerId: nat)

  datatype Rating = Rating(id: nat, storeId: nat, userId: nat, rating: real,
                           createdAt: int, updatedAt: int)

  /** The user columns the routes send back: `SELECT id, name, email, address, role`. */
  datatype PublicUser = PublicUser(id: nat, name: string, email: string, address: string, role: Role)

  function Public(u: User): PublicUser
  {
    PublicUser(u.id, u.name, u.email, u.address, u.role)
  }

  /** Every stored rating lies on the 1-to-5 scale the rating route enforces. */
  predicate OnScale(ratings: seq<Rating>)
  {
    forall k :: 0 <= k < |ratings| ==> 1.0 <= ratings[k].rating <= 5.0
  }

  /** `SELECT * FROM users WHERE email = ?`, first row. */
  function UserByEmail(users: seq<User>, email: string): (r: Option<User>)
    ensures r.None? <==> forall k :: 0 <= k < |users| ==> users[k].email != email
    ensures r.Some? ==> r.value in users && r.value.email == email
  {
    match FirstIndex(users, (u: User) => u.email == email)
    case None => None
    case Some(i) => Some(users[i])
  }

  /** `SELECT ... FROM users WHERE id = ?`, first row. */
  function UserById(users: seq<User>, id: nat): (r: Option<User>)
    ensures r.None? <==> forall k :: 0 <= k < |users| ==> users[k].id != id
    ensures r.Some? ==> r.value in users && r.value.id == id
  {
    match FirstIndex(users, (u: User) => u.id == id)
    case None => None
    case Some(i) => Some(users[i])
  }

  /** `SELECT ... FROM stores WHERE id = ?`, first row. */
  function StoreById(stores: seq<Store>, id: nat): (r: Option<Store>)
    ensures r.None? <==> forall k :: 0 <= k < |stores| ==> stores[k].id != id
    ensures r.Some? ==> r.value in stores && r.value.id == id
  {
    match FirstIndex(stores, (s: Store) => s.id == id)
    case None => None
    case Some(i) => Some(stores[i])
  }

  /** A row appended with an id no earlier row has is what `WHERE id = ?` finds. */
  lemma {:induction false} AppendedUserFound(users: seq<User>, u: User)
    requires forall k :: 0 <= k < |users| ==> users[k].id != u.id
    ensures UserById(users + [u], u.id) == Some(u)
  {
    var all := users + [u];
    assert all[|users|] == u;
  }

  lemma {:induction false} AppendedStoreFound(stores: seq<Store>, s: Store)
    requires forall k :: 0 <= k < |stores| ==> stores[k].id != s.id
    ensures StoreById(stores + [s], s.id) == Some(s)
  {
    var all := stores + [s];
    assert all[|stores|] == s;
  }

  predicate IsPair(r: Rating, storeId: nat, userId: nat)
  {
    r.storeId == storeId && r.userId == userId
  }

  /** `SELECT * FROM ratings WHERE store_id = ? AND user_id = ?` returns a row. */
  predicate HasRating(ratings: seq<Rating>, storeId: nat, userId: nat)
  {
    exists k :: 0 <= k < |ratings| && IsPair(ratings[k], storeId, userId)
  }

  /** `SELECT * FROM ratings WHERE store_id = ? AND user_id = ?`, first row. */
  function RatingFor(ratings: seq<Rating>, storeId: nat, userId: nat): (r: Option<Rating>)
    ensures r.None? <==> !HasRating(ratings, storeId, userId)
    ensures r.Some? ==> r.value in ratings && IsPair(r.value, storeId, userId)
  {
    match FirstIndex(ratings, (x: Rating) => IsPair(x, storeId, userId))
    case None => None
    case Some(i) => Some(ratings[i])
  }

  /** `SELECT * FROM ratings WHERE id = ?`, first row. */
  function RatingById(ratings: seq<Rating>, id: nat): (r: Option<Rating>)
    ensures r.None? <==> forall k :: 0 <= k < |ratings| ==> ratings[k].id != id
    ensures r.Some? ==> r.value in ratings && r.value.id == id
  {
    match FirstIndex(ratings, (x: Rating) => x.id == id)
    case None => None
    case Some(i) => Some(ratings[i])
  }

  lemma {:induction false} AppendedRatingFound(ratings: seq<Rating>, x: Rating)
    requires forall k :: 0 <= k < |ratings| ==> ratings[k].id != x.id
    ensures RatingById(ratings + [x], x.id) == Some(x)
  {
    var all := ratings + [x];
    assert all[|ratings|] == x;
  }

  /** The invariant the rating route is written to keep: at most one rating
      per (store_id, user_id). The schema itself does not enforce it. */
  ghost predicate OneRatingPerPair(ratings: seq<Rating>)
  {
    forall i, j :: 0 <= i < j < |ratings| ==>
      !IsPair(ratings[j], ratings[i].storeId, ratings[i].userId)
  }

  /** `UPDATE ratings SET rating = ?, updated_at = CURRENT_TIMESTAMP
      WHERE store_id = ? AND user_id = ?`: every matching row changes. */
  function SetRating(ratings: seq<Rating>, storeId: nat, userId: nat, value: real, now: int): (r: seq<Rating>)
    ensures |r| == |ratings|
    ensures forall k :: 0 <= k < |r| ==>
      r[k] == if IsPair(ratings[k], storeId, userId)
              then ratings[k].(rating := value, updatedAt := now) else ratings[k]
  {
    seq(|ratings|, k requires 0 <= k < |ratings| =>
      if IsPair(ratings[k], storeId, userId) then ratings[k].(rating := value, updatedAt := now) else ratings[k])
  }

  /** `UPDATE users SET password = ?, updated_at = CURRENT_TIMESTAMP WHERE id = ?` */
  function SetPassword(users: seq<User>, id: nat, hash: PasswordHash, now: int): (r: seq<User>)
    ensures |r| == |users|
    ensures forall k :: 0 <= k < |r| ==>
      r[k] == if users[k].id == id then users[k].(password := hash, updatedAt := now) else users[k]
  {
    seq(|users|, k requires 0 <= k < |users| =>
      if users[k].id == id then users[k].(password := hash, updatedAt := now) else users[k])
  }

  ghost predicate UserIdsBelow(users: seq<User>, next: nat)
  {
    && (forall i, j :: 0 <= i < j < |users| ==> users[i].id < users[j].id)
    && (forall k :: 0 <= k < |users| ==> users[k].id < next)
  }

  ghost predicate StoreIdsBelow(stores: seq<Store>, next: nat)
  {
    && (forall i, j :: 0 <= i < j < |stores| ==> stores[i].id < stores[j].id)
    && (forall k :: 0 <= k < |stores| ==> stores[k].id < next)
  }

  ghost predicate RatingIdsBelow(ratings: seq<Rating>, next: nat)
  {
    && (forall i, j :: 0 <= i < j < |ratings| ==> ratings[i].id < ratings[j].id)
    && (forall k :: 0 <= k < |ratings| ==> ratings[k].id < next)
  }

  class Database {
    var users: seq<User>
    var stores: seq<Store>
    var ratings: seq<Rating>
    var nextUserId: nat
    var nextStoreId: nat
    var nextRatingId: nat

    /** What AUTO_INCREMENT guarantees: ids grow in insertion order and the
        counter is above every id handed out. */
    ghost predicate Valid()
      reads this
    {
      && UserIdsBelow(users, nextUserId)
      && StoreIdsBelow(stores, nextStoreId)
      && RatingIdsBelow(ratings, nextRatingId)
    }

    /** Freshly created schema: empty tables, ids starting at 1. */
    constructor ()
      ensures Valid()
      ensures users == [] && stores == [] && ratings == []
      ensures nextUserId == 1 && nextStoreId == 1 && nextRatingId == 1
    {
      users, stores, ratings := [], [], [];
      nextUserId, nextStoreId, nextRatingId := 1, 1, 1;
    }

    /** `INSERT INTO users (...) VALUES (...)`, returning `insertId`. */
    method InsertUser(name: string, email: string, password: PasswordHash, address: string,
                      role: Role, now: int) returns (id: nat)
      requires Valid()
      modifies this
      ensures Valid()
      ensures id == old(nextUserId) && nextUserId == id + 1
      ensures users == old(users) + [User(id, name, email, password, address, role, now, now)]
      ensures forall k :: 0 <= k < |old(users)| ==> old(users)[k].id != id
      ensures stores == old(stores) && ratings == old(ratings)
      ensures nextStoreId == old(nextStoreId) && nextRatingId == old(nextRatingId)
    {
      id := nextUserId;
      users := users + [User(id, name, email, password, address, role, now, now)];
      nextUserId := nextUserId + 1;
    }

    /** `INSERT INTO stores (name, email, address, owner_id) VALUES (...)`. */
    method InsertStore(name: string, email: string, address: string, ownerId: nat) returns (id: nat)
      requires Valid()
      modifies this
      ensures Valid()
      ensures id == old(nextStoreId) && nextStoreId == id + 1
      ensures stores == old(stores) + [Store(id, name, email, address, ownerId)]
      ensures forall k :: 0 <= k < |old(stores)| ==> old(stores)[k].id != id
      ensures users == old(users) && ratings == old(ratings)
      ensures nextUserId == old(nextUserId) && nextRatingId == old(nextRatingId)
    {
      id := nextStoreId;
      stores := stores + [Store(id, name, email, address, ownerId)];
      nextStoreId := nextStoreId + 1;
    }

    /** `INSERT INTO ratings (store_id, user_id, rating) VALUES (...)`. */
    method InsertRating(storeId: nat, userId: nat, value: real, now: int) returns (id: nat)
      requires Valid()
      modifies this
      ensures Valid()
      ensures id == old(nextRatingId) && nextRatingId == id + 1
      ensures ratings == old(ratings) + [Rating(id, storeId, userId, value, now, now)]
      ensures forall k :: 0 <= k < |old(ratings)| ==> old(ratings)[k].id != id
      ensures users == old(users) && stores == old(stores)
      ensures nextUserId == old(nextUserId) && nextStoreId == old(nextStoreId)
    {
      id := nextRatingId;
      ratings := ratings + [Rating(id, storeId, userId, value, now, now)];
      nextRatingId := nextRatingId + 1;
    }

    method UpdateRating(storeId: nat, userId: nat, value: real, now: int)
      requires Valid()
      modifies this
      ensures Valid()
      ensures ratings == SetRating(old(ratings), storeId, userId, value, now)
      ensures users == old(users) && stores == old(stores)
      ensures nextUserId == old(nextUserId) && nextStoreId == old(nextStoreId) && nextRatingId == old(nextRatingId)
    {
      ratings := SetRating(ratings, storeId, userId, value, now);
    }

    method UpdatePassword(id: nat, hash: PasswordHash, now: int)
      requires Valid()
      modifies this
      ensures Valid()
      ensures users == SetPassword(old(users), id, hash, now)
      ensures stores == old(stores) && ratings == old(ratings)
      ensures nextUserId == old(nextUserId) && nextStoreId == old(nextStoreId) && nextRatingId == old(nextRatingId)
    {
      users := SetPassword(users, id, hash, now);
    }
  }
}
