/** Values shared by the server routes and the client pages: optional values,
    the three user roles, HTTP-style replies, JavaScript string truthiness and
    ASCII case mapping, and first-match / filter lookups over table rows. */
module Common {

  datatype Option<+T> = None | Some(value: T)

  /** The three roles stored in the users table and carried in session tokens. */
  datatype Role = NormalUser | SystemAdministrator | StoreOwner

  function RoleName(r: Role): string
  {
    match r
    case NormalUser => "Normal User"
    case SystemAdministrator => "System Administrator"
    case StoreOwner => "Store Owner"
  }

  /** The allow-list that admin user creation checks the requested role against. */
  const AllowedRoleNames: seq<string> := ["Normal User", "System Administrator", "Store Owner"]

  /** Reads a role name back; only the three names of the allow-list are roles. */
  function ParseRole(s: string): (r: Option<Role>)
    ensures r.Some? <==> s in AllowedRoleNames
    ensures r.Some? ==> RoleName(r.value) == s
    ensures forall role: Role :: s == RoleName(role) ==> r == Some(role)
  {
    if s == "Normal User" then Some(NormalUser)
    else if s == "System Administrator" then Some(SystemAdministrator)
    else if s == "Store Owner" then Some(StoreOwner)
    else None
  }

  /** A handler's answer: a success status with a body, or an error status
      with the `{msg}` text the route sends. */
  datatype Response<+T> = Ok(status: int, body: T) | Error(status: int, msg: string)

  /** A JavaScript string is falsy exactly when it is empty. */
  predicate Blank(s: string)
  {
    |s| == 0
  }

  predicate IsUpper(c: char)
  {
    'A' <= c <= 'Z'
  }

  predicate IsLower(c: char)
  {
    'a' <= c <= 'z'
  }

  function LowerChar(c: char): char
  {
    if IsUpper(c) then (c as int + 32) as char else c
  }

  function UpperChar(c: char): char
  {
    if IsLower(c) then (c as int - 32) as char else c
  }

  /** `toLowerCase()` on the ASCII range. */
  function Lower(s: string): (r: string)
    ensures |r| == |s|
    ensures forall i :: 0 <= i < |s| ==> r[i] == LowerChar(s[i])
  {
    if s == [] then [] else [LowerChar(s[0])] + Lower(s[1..])
  }

  /** `toUpperCase()` on the ASCII range. */
  function Upper(s: string): (r: string)
    ensures |r| == |s|
    ensures forall i :: 0 <= i < |s| ==> r[i] == UpperChar(s[i])
  {
    if s == [] then [] else [UpperChar(s[0])] + Upper(s[1..])
  }

  /** Position of the first element satisfying `p`: the row a route reads as
      `rows[0]` after a `SELECT ... WHERE`. */
  function FirstIndex<T>(s: seq<T>, p: T -> bool): (r: Option<nat>)
    ensures r.None? <==> forall k :: 0 <= k < |s| ==> !p(s[k])
    ensures r.Some? ==> r.value < |s| && p(s[r.value])
    ensures r.Some? ==> forall k :: 0 <= k < r.value ==> !p(s[k])
  {
    if s == [] then None
    else if p(s[0]) then Some(0)
    else
      match FirstIndex(s[1..], p)
      case None => None
      case Some(i) => Some(i + 1)
  }

  /** The rows satisfying `p`, in table order: a `SELECT ... WHERE p`. */
  function Select<T>(s: seq<T>, p: T -> bool): (r: seq<T>)
    ensures |r| <= |s|
    ensures forall k :: 0 <= k < |r| ==> r[k] in s && p(r[k])
    ensures forall k :: 0 <= k < |s| && p(s[k]) ==> s[k] in r
    ensures r == [] <==> forall k :: 0 <= k < |s| ==> !p(s[k])
    ensures forall k :: 0 <= k < |s| && p(s[k]) && (forall j :: 0 <= j < k ==> !p(s[j])) ==> r[0] == s[k]
  {
    if s == [] then []
    else if p(s[0]) then [s[0]] + Select(s[1..], p)
    else Select(s[1..], p)
  }
}
