/** The `/owner` routes, all behind `auth` and `authorize(['Store Owner'])`:
    the dashboard of the owner's first store. */
module OwnerRoutes {
  import opened Common
  import opened Credentials
  import opened Tables
  import opened Ordering
  import opened Reports
  import opened Auth

  const OwnerRoles: seq<Role> := [StoreOwner]

  const NoStoresMsg: string := "No stores found for this owner."

  /** `SELECT id, name, email, address FROM stores`: a store without its owner. */
  datatype StoreInfo = StoreInfo(id: nat, name: string, email: string, address: string)

  function Info(s: Store): StoreInfo
  {
    StoreInfo(s.id, s.name, s.email, s.address)
  }

  datatype OwnerDashboard = OwnerDashboard(store: StoreInfo, averageRating: Average, userRatings: seq<UserRating>)

  /** The dashboard for `ownerId`: 404 when the owner has no store; else the
      first of their stores, the average of its ratings (`N/A` when it has
      none) and its raters, newest rating first. */
  function Dashboard(users: seq<User>, stores: seq<Store>, ratings: seq<Rating>, ownerId: nat)
    : (r: Response<OwnerDashboard>)
    ensures r.Error? <==> forall k :: 0 <= k < |stores| ==> stores[k].ownerId != ownerId
    ensures r.Error? ==> r == Error(404, NoStoresMsg)
    ensures r.Ok? ==> r.status == 200
    ensures r.Ok? ==> exists k :: 0 <= k < |stores| && stores[k].ownerId == ownerId
                                  && r.body.store == Info(stores[k])
                                  && forall j :: 0 <= j < k ==> stores[j].ownerId != ownerId
    ensures r.Ok? ==> (r.body.averageRating.NotAvailable? <==>
                         forall k :: 0 <= k < |ratings| ==> ratings[k].storeId != r.body.store.id)
    ensures r.Ok? ==> Descending(r.body.userRatings, CreatedAt)
    ensures r.Ok? ==> multiset(r.body.userRatings) == multiset(JoinRows(users, ratings, r.body.store.id))
  {
    var owns := (s: Store) => s.ownerId == ownerId;
    var owned := Select(stores, owns);
    if owned == [] then Error(404, NoStoresMsg)
    else
      var primary := owned[0];
      assert FirstIndex(stores, owns).Some?;
      var k := FirstIndex(stores, owns).value;
      assert primary == stores[k];
      Ok(200, OwnerDashboard(Info(primary),
                             AverageOf(StoreRatingValues(ratings, primary.id)),
                             SortDesc(JoinRows(users, ratings, primary.id), CreatedAt)))
  }

  /** With every stored rating on the 1-to-5 scale, the dashboard's average
      is on that scale too. */
  lemma DashboardAverageOnScale(users: seq<User>, stores: seq<Store>, ratings: seq<Rating>, ownerId: nat)
    requires OnScale(ratings)
    ensures var r := Dashboard(users, stores, ratings, ownerId);
            r.Ok? && r.body.averageRating.Mean? ==> 1.0 <= r.body.averageRating.value <= 5.0
  {
    var r := Dashboard(users, stores, ratings, ownerId);
    if r.Ok? {
      var values := StoreRatingValues(ratings, r.body.store.id);
      forall i | 0 <= i < |values|
        ensures 1.0 <= values[i] <= 5.0
      {
      }
      MeanWithinBounds(values, 1.0, 5.0);
    }
  }

  /** The route: the guard, then the dashboard of the caller's own stores. */
  function DashboardRoute(users: seq<User>, stores: seq<Store>, ratings: seq<Rating>,
                          header: Option<Token>, secret: string, now: int)
    : (r: Response<OwnerDashboard>)
    ensures Guard(header, OwnerRoles, secret, now).Deny? ==>
              r == Error(Guard(header, OwnerRoles, secret, now).status, Guard(header, OwnerRoles, secret, now).msg)
    ensures Guard(header, OwnerRoles, secret, now).Pass? ==>
              r == Dashboard(users, stores, ratings, Guard(header, OwnerRoles, secret, now).claims.id)
    ensures r.Ok? ==> Authenticate(header, secret, now).Pass? && Authenticate(header, secret, now).claims.role == StoreOwner
  {
    match Guard(header, OwnerRoles, secret, now)
    case Deny(s, m) => Error(s, m)
    case Pass(c) => Dashboard(users, stores, ratings, c.id)
  }
}
