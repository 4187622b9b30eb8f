/** The read-side joins the dashboards share: a store's rating values (the
    rows `AVG(rating)` averages) and the inner join of a store's ratings with
    the users who gave them. */
module Reports {
  import opened Tables

  /** One row of `users u JOIN ratings r ON u.id = r.user_id`. */
  datatype UserRating = UserRating(userId: nat, userName: string, userEmail: string, rating: real, createdAt: int)

  function JoinRow(u: User, x: Rating): UserRating
  {
    UserRating(u.id, u.name, u.email, x.rating, x.createdAt)
  }

  /** The joined row a rating contributes: present exactly when its user exists. */
  predicate JoinedFrom(users: seq<User>, x: Rating, row: UserRating)
  {
    UserById(users, x.userId).Some? && row == JoinRow(UserById(users, x.userId).value, x)
  }

  /** `SELECT rating FROM ratings WHERE store_id = ?`, in table order. */
  function StoreRatingValues(ratings: seq<Rating>, storeId: nat): (r: seq<real>)
    ensures r == [] <==> forall k :: 0 <= k < |ratings| ==> ratings[k].storeId != storeId
    ensures forall i :: 0 <= i < |r| ==>
              exists k :: 0 <= k < |ratings| && ratings[k].storeId == storeId && ratings[k].rating == r[i]
  {
    if ratings == [] then []
    else
      var rest := StoreRatingValues(ratings[1..], storeId);
      assert forall i :: 0 <= i < |rest| ==>
               exists k :: 0 <= k < |ratings| && ratings[k].storeId == storeId && ratings[k].rating == rest[i] by {
        forall i | 0 <= i < |rest|
          ensures exists k :: 0 <= k < |ratings| && ratings[k].storeId == storeId && ratings[k].rating == rest[i]
        {
          var k :| 0 <= k < |ratings[1..]| && ratings[1..][k].storeId == storeId && ratings[1..][k].rating == rest[i];
          assert ratings[k + 1] == ratings[1..][k];
        }
      }
      if ratings[0].storeId == storeId then [ratings[0].rating] + rest else rest
  }

  /** Appending a rating appends its value exactly when it belongs to the
      store: with the empty case above, every matching row is counted once,
      in table order. */
  lemma {:induction false} StoreRatingValuesSnoc(ratings: seq<Rating>, x: Rating, storeId: nat)
    ensures StoreRatingValues(ratings + [x], storeId)
            == StoreRatingValues(ratings, storeId) + (if x.storeId == storeId then [x.rating] else [])
  {
    if ratings == [] {
      assert ratings + [x] == [x];
      assert [x][1..] == [];
    } else {
      assert (ratings + [x])[0] == ratings[0];
      assert (ratings + [x])[1..] == ratings[1..] + [x];
      StoreRatingValuesSnoc(ratings[1..], x, storeId);
    }
  }

  /** The inner join of the store's ratings with their users, in table order. */
  function JoinRows(users: seq<User>, ratings: seq<Rating>, storeId: nat): seq<UserRating>
  {
    if ratings == [] then []
    else
      var x := ratings[0];
      (if x.storeId == storeId && UserById(users, x.userId).Some? then [JoinRow(UserById(users, x.userId).value, x)] else [])
      + JoinRows(users, ratings[1..], storeId)
  }

  /** The row is the join of some rating of the store with its user. */
  predicate FromStore(users: seq<User>, ratings: seq<Rating>, storeId: nat, row: UserRating)
  {
    exists k :: 0 <= k < |ratings| && ratings[k].storeId == storeId && JoinedFrom(users, ratings[k], row)
  }

  /** Every joined row comes from a rating of the store whose user exists. */
  lemma {:induction false} JoinRowsSound(users: seq<User>, ratings: seq<Rating>, storeId: nat)
    ensures forall i :: 0 <= i < |JoinRows(users, ratings, storeId)| ==>
              FromStore(users, ratings, storeId, JoinRows(users, ratings, storeId)[i])
  {
    if ratings == [] {
      assert JoinRows(users, ratings, storeId) == [];
    } else {
      var r := JoinRows(users, ratings, storeId);
      var rest := JoinRows(users, ratings[1..], storeId);
      JoinRowsSound(users, ratings[1..], storeId);
      var x := ratings[0];
      var head := if x.storeId == storeId && UserById(users, x.userId).Some? then [JoinRow(UserById(users, x.userId).value, x)] else [];
      assert r == head + rest;
      forall i | 0 <= i < |r|
        ensures FromStore(users, ratings, storeId, r[i])
      {
        if i < |head| {
          assert ratings[0].storeId == storeId && JoinedFrom(users, ratings[0], r[i]);
        } else {
          var j := i - |head|;
          assert 0 <= j < |rest| && r[i] == rest[j];
          assert FromStore(users, ratings[1..], storeId, rest[j]);
          var k :| 0 <= k < |ratings[1..]| && ratings[1..][k].storeId == storeId && JoinedFrom(users, ratings[1..][k], rest[j]);
          assert ratings[k + 1] == ratings[1..][k];
          assert ratings[k + 1].storeId == storeId && JoinedFrom(users, ratings[k + 1], r[i]);
        }
      }
    }
  }

  /** Every rating of the store whose user exists yields its joined row. */
  lemma {:induction false} JoinRowsComplete(users: seq<User>, ratings: seq<Rating>, storeId: nat)
    ensures forall k :: 0 <= k < |ratings| && ratings[k].storeId == storeId && UserById(users, ratings[k].userId).Some? ==>
              JoinRow(UserById(users, ratings[k].userId).value, ratings[k]) in JoinRows(users, ratings, storeId)
  {
    if ratings != [] {
      var r := JoinRows(users, ratings, storeId);
      var rest := JoinRows(users, ratings[1..], storeId);
      JoinRowsComplete(users, ratings[1..], storeId);
      var x := ratings[0];
      var head := if x.storeId == storeId && UserById(users, x.userId).Some? then [JoinRow(UserById(users, x.userId).value, x)] else [];
      assert r == head + rest;
      forall k | 0 <= k < |ratings| && ratings[k].storeId == storeId && UserById(users, ratings[k].userId).Some?
        ensures JoinRow(UserById(users, ratings[k].userId).value, ratings[k]) in r
      {
        if k > 0 {
          assert ratings[k] == ratings[1..][k - 1];
          assert JoinRow(UserById(users, ratings[k].userId).value, ratings[k]) in rest;
        }
      }
    }
  }

  function CreatedAt(row: UserRating): int
  {
    row.createdAt
  }
}
