/** `PrivateRoute`: what the client shows for a guarded page, from the
    auth context's `loading` and `user` and the route's optional `roles`. */
module PrivateRouteGate {
  import opened Common
  import opened Credentials
  import opened Tables
  import opened Auth

  datatype View = ShowLoading | RedirectTo(path: string) | RenderChildren

  /** `roles` is absent (`None`) or an array; an empty array is truthy, so
      `Some([])` admits nobody. */
  function Decide(loading: bool, user: Option<PublicUser>, roles: Option<seq<Role>>): (v: View)
    ensures loading ==> v == ShowLoading
    ensures !loading && user.None? ==> v == RedirectTo("/login")
    ensures !loading && user.Some? && roles.Some? && user.value.role !in roles.value ==> v == RedirectTo("/")
    ensures v == RenderChildren <==> !loading && user.Some? && (roles.None? || user.value.role in roles.value)
  {
    if loading then ShowLoading
    else if user.None? then RedirectTo("/login")
    else if roles.Some? && user.value.role !in roles.value then RedirectTo("/")
    else RenderChildren
  }

  /** A page the client renders for a role list is one whose API the server
      lets the same role through: the client check is `authorize`'s. */
  lemma RenderedMeansAuthorized(user: PublicUser, roles: seq<Role>, c: Claims)
    requires c.role == user.role
    requires Decide(false, Some(user), Some(roles)) == RenderChildren
    ensures Authorize(roles, c) == Pass(c)
  {
  }

  /** The user the context loads from `GET /auth/user` with a valid token is
      rendered on a page for that token's role. */
  lemma {:induction false} LoadedUserSeesOwnPages(users: seq<User>, header: Option<Token>, secret: string, now: int, k: nat)
    requires k < |users| && Authenticate(header, secret, now).Pass?
    requires users[k].id == Authenticate(header, secret, now).claims.id
    requires forall j :: 0 <= j < |users| && j != k ==> users[j].id != users[k].id
    ensures var r := CurrentUser(users, header, secret, now);
            r.Ok? && r.body.Some? && Decide(false, r.body, Some([users[k].role])) == RenderChildren
  {
    var r := CurrentUser(users, header, secret, now);
    var u := r.body.value;
    var j :| 0 <= j < |users| && u == Public(users[j]);
    assert users[j].id == u.id;
  }
}
