/** The `/auth` routes and the two middlewares every other route group uses:
    field validation, registration, login, the token check (`auth`), the
    role check (`authorize`), password update and "who am I". */
module Auth {
  import opened Common
  import opened Credentials
  import opened Tables

  // ---------------------------------------------------------------------
  // Field rules shared by registration and the admin creation routes
  // ---------------------------------------------------------------------

  /** `name.length < 20 || name.length > 60` is the rejection test. */
  predicate NameLengthOk(name: string)
  {
    20 <= |name| <= 60
  }

  /** `address.length > 400` is the rejection test. */
  predicate AddressLengthOk(address: string)
  {
    |address| <= 400
  }

  /** The characters `.` does not match in a JavaScript regular expression. */
  predicate IsLineTerminator(c: char)
  {
    c == '\n' || c == '\r' || c == '\U{2028}' || c == '\U{2029}'
  }

  /** `(?=.*[C])` tried at the start of the input: a character of class C
      occurs before the first line terminator. */
  predicate LookaheadFinds(p: string, inClass: char -> bool)
  {
    exists i :: 0 <= i < |p| && inClass(p[i]) && forall k :: 0 <= k < i ==> !IsLineTerminator(p[k])
  }

  /** `/^(?=.*[A-Z])(?=.*[S])(?=.{8,16}$)/.test(p)` for the special set S,
      read as the regular expression engine reads it. */
  predicate PasswordRegexTest(p: string, specials: string)
  {
    && LookaheadFinds(p, IsUpper)
    && LookaheadFinds(p, (c: char) => c in specials)
    && 8 <= |p| <= 16
    && forall k :: 0 <= k < |p| ==> !IsLineTerminator(p[k])
  }

  /** The special characters of the server's password rule. */
  const ServerSpecials: string := "!@#$%^&*"

  /** The rule in plain words: 8 to 16 characters on one line, at least one
      upper-case A-Z and at least one special character. */
  predicate PasswordPolicy(p: string, specials: string)
  {
    && 8 <= |p| <= 16
    && (forall k :: 0 <= k < |p| ==> !IsLineTerminator(p[k]))
    && (exists i :: 0 <= i < |p| && IsUpper(p[i]))
    && (exists j :: 0 <= j < |p| && p[j] in specials)
  }

  /** The regular expression accepts exactly the passwords of the rule. */
  lemma RegexMeansPolicy(p: string, specials: string)
    ensures PasswordRegexTest(p, specials) <==> PasswordPolicy(p, specials)
  {
    if PasswordPolicy(p, specials) {
      var i :| 0 <= i < |p| && IsUpper(p[i]);
      var j :| 0 <= j < |p| && p[j] in specials;
      assert IsUpper(p[i]) && forall k :: 0 <= k < i ==> !IsLineTerminator(p[k]);
      assert ((c: char) => c in specials)(p[j]);
    }
  }

  predicate ServerPasswordOk(p: string)
  {
    PasswordRegexTest(p, ServerSpecials)
  }

  // ---------------------------------------------------------------------
  // The token middleware and the role middleware
  // ---------------------------------------------------------------------

  /** What a middleware does with a request: let it through with the decoded
      claims as `req.user`, or answer it with an error status. */
  datatype Gate = Pass(claims: Claims) | Deny(status: int, msg: string)

  /** `!token`: the `x-auth-token` header is absent or empty. */
  predicate NoToken(header: Option<Token>)
  {
    header.None? || header.value == Garbage("")
  }

  const NoTokenMsg: string := "No token, authorization denied"
  const BadTokenMsg: string := "Token is not valid"
  const ForbiddenMsg: string := "Access denied: Insufficient permissions"

  /** The `auth` middleware. */
  function Authenticate(header: Option<Token>, secret: string, now: int): (g: Gate)
    ensures NoToken(header) ==> g == Deny(401, NoTokenMsg)
    ensures !NoToken(header) && VerifyToken(header.value, secret, now).None? ==> g == Deny(401, BadTokenMsg)
    ensures g.Pass? <==> !NoToken(header) && VerifyToken(header.value, secret, now).Some?
    ensures g.Pass? ==> header.Some? && g.claims == header.value.claims
  {
    if NoToken(header) then Deny(401, NoTokenMsg)
    else match VerifyToken(header.value, secret, now)
      case None => Deny(401, BadTokenMsg)
      case Some(decoded) => Pass(decoded)
  }

  /** `authorize(roles)`: 403 exactly when the caller's role is not listed;
      otherwise the request goes on unchanged. */
  function Authorize(roles: seq<Role>, claims: Claims): (g: Gate)
    ensures g.Deny? <==> claims.role !in roles
    ensures g.Deny? ==> g == Deny(403, ForbiddenMsg)
    ensures g.Pass? ==> g.claims == claims
  {
    if claims.role in roles then Pass(claims) else Deny(403, ForbiddenMsg)
  }

  /** `auth` followed by `authorize(roles)`. */
  function Guard(header: Option<Token>, roles: seq<Role>, secret: string, now: int): (g: Gate)
    ensures g.Pass? <==> Authenticate(header, secret, now).Pass?
                          && Authenticate(header, secret, now).claims.role in roles
    ensures Authenticate(header, secret, now).Deny? ==> g == Authenticate(header, secret, now)
    ensures g.Pass? ==> g == Authenticate(header, secret, now)
  {
    match Authenticate(header, secret, now)
    case Deny(s, m) => Deny(s, m)
    case Pass(c) => Authorize(roles, c)
  }

  // ---------------------------------------------------------------------
  // POST /auth/register
  // ---------------------------------------------------------------------

  datatype RegisterBody = RegisterBody(name: string, email: string, address: string, password: string)

  /** The token and the public user a successful registration returns. */
  datatype Session = Session(token: Token, user: PublicUser)

  const MissingFieldsMsg: string := "Please enter all fields"
  const NameLengthMsg: string := "Name must be between 20 and 60 characters"
  const AddressLengthMsg: string := "Address cannot exceed 400 characters"
  const PasswordRuleMsg: string :=
    "Password must be 8-16 characters long, include at least one uppercase letter and one special character"
  const UserExistsMsg: string := "User already exists"

  /** The checks made before the database is touched, in the route's order;
      `Some(msg)` is the 400 answer. */
  function RegistrationError(b: RegisterBody): (r: Option<string>)
    ensures r.None? <==> !Blank(b.name) && !Blank(b.email) && !Blank(b.address) && !Blank(b.password)
                         && NameLengthOk(b.name) && AddressLengthOk(b.address)
                         && PasswordPolicy(b.password, ServerSpecials)
    ensures (Blank(b.name) || Blank(b.email) || Blank(b.address) || Blank(b.password)) ==> r == Some(MissingFieldsMsg)
  {
    RegexMeansPolicy(b.password, ServerSpecials);
    if Blank(b.name) || Blank(b.email) || Blank(b.address) || Blank(b.password) then Some(MissingFieldsMsg)
    else if !NameLengthOk(b.name) then Some(NameLengthMsg)
    else if !AddressLengthOk(b.address) then Some(AddressLengthMsg)
    else if !ServerPasswordOk(b.password) then Some(PasswordRuleMsg)
    else None
  }

  /** The row registration inserts: role fixed to Normal User. */
  function RegisteredUser(id: nat, b: RegisterBody, salt: nat, now: int): User
  {
    User(id, b.name, b.email, HashPassword(b.password, salt), b.address, NormalUser, now, now)
  }

  method Register(db: Database, b: RegisterBody, salt: nat, secret: string, now: int)
    returns (r: Response<Session>)
    requires db.Valid()
    modifies db
    ensures db.Valid()
    ensures RegistrationError(b).Some? ==> r == Error(400, RegistrationError(b).value)
    ensures RegistrationError(b).None? && UserByEmail(old(db.users), b.email).Some? ==> r == Error(400, UserExistsMsg)
    ensures r.Ok? <==> RegistrationError(b).None? && UserByEmail(old(db.users), b.email).None?
    ensures r.Error? ==> unchanged(db)
    ensures r.Ok? ==>
      var u := RegisteredUser(old(db.nextUserId), b, salt, now);
      && r == Ok(201, Session(SignToken(Claims(u.id, NormalUser), secret, now), Public(u)))
      && db.users == old(db.users) + [u]
      && db.stores == old(db.stores) && db.ratings == old(db.ratings)
    ensures db.nextUserId == old(db.nextUserId) + (if r.Ok? then 1 else 0)
    ensures db.nextStoreId == old(db.nextStoreId) && db.nextRatingId == old(db.nextRatingId)
  {
    var invalid := RegistrationError(b);
    if invalid.Some? {
      return Error(400, invalid.value);
    }
    if UserByEmail(db.users, b.email).Some? {
      return Error(400, UserExistsMsg);
    }
    var hashed := HashPassword(b.password, salt);
    var newUserId := db.InsertUser(b.name, b.email, hashed, b.address, NormalUser, now);
    AppendedUserFound(old(db.users), RegisteredUser(newUserId, b, salt, now));
    var newUser := UserById(db.users, newUserId).value;
    var token := SignToken(Claims(newUser.id, newUser.role), secret, now);
    r := Ok(201, Session(token, Public(newUser)));
  }

  // ---------------------------------------------------------------------
  // POST /auth/login
  // ---------------------------------------------------------------------

  datatype LoginBody = LoginBody(email: string, password: string)

  datatype LoginResult = LoginResult(token: Token, role: Role)

  const InvalidCredentialsMsg: string := "Invalid credentials"

  /** Login reads the first user with the email and compares the password;
      an unknown email and a wrong password get the same answer. */
  function Login(users: seq<User>, b: LoginBody, secret: string, now: int): (r: Response<LoginResult>)
    ensures Blank(b.email) || Blank(b.password) ==> r == Error(400, MissingFieldsMsg)
    ensures r.Ok? <==> !Blank(b.email) && !Blank(b.password)
                       && UserByEmail(users, b.email).Some?
                       && ComparePassword(b.password, UserByEmail(users, b.email).value.password)
    ensures r.Ok? ==> var u := UserByEmail(users, b.email).value;
                      r == Ok(200, LoginResult(SignToken(Claims(u.id, u.role), secret, now), u.role))
    ensures r.Error? && !Blank(b.email) && !Blank(b.password) ==> r == Error(400, InvalidCredentialsMsg)
  {
    if Blank(b.email) || Blank(b.password) then Error(400, MissingFieldsMsg)
    else match UserByEmail(users, b.email)
      case None => Error(400, InvalidCredentialsMsg)
      case Some(u) =>
        if !ComparePassword(b.password, u.password) then Error(400, InvalidCredentialsMsg)
        else Ok(200, LoginResult(SignToken(Claims(u.id, u.role), secret, now), u.role))
  }

  /** After a successful registration, logging in with the same email and
      password succeeds and the token names the new user as a Normal User. */
  lemma {:induction false} LoginAfterRegistration(users: seq<User>, b: RegisterBody, id: nat,
                                                  salt: nat, secret: string, t0: int, t1: int)
    requires RegistrationError(b).None? && UserByEmail(users, b.email).None?
    ensures var after := users + [RegisteredUser(id, b, salt, t0)];
            Login(after, LoginBody(b.email, b.password), secret, t1)
            == Ok(200, LoginResult(SignToken(Claims(id, NormalUser), secret, t1), NormalUser))
  {
    var u := RegisteredUser(id, b, salt, t0);
    var after := users + [u];
    assert after[|users|] == u;
    assert forall k :: 0 <= k < |users| ==> after[k] == users[k];
    assert UserByEmail(after, b.email) == Some(u) by {
      var i := FirstIndex(after, (x: User) => x.email == b.email);
      assert i == Some(|users|);
    }
  }

  // ---------------------------------------------------------------------
  // PUT /auth/update-password (behind `auth`)
  // ---------------------------------------------------------------------

  datatype PasswordChange = PasswordChange(oldPassword: string, newPassword: string)

  const MissingPasswordsMsg: string := "Please enter both old and new passwords"
  const NewPasswordRuleMsg: string :=
    "New password must be 8-16 characters long, include at least one uppercase letter and one special character"
  const UserNotFoundMsg: string := "User not found"
  const OldPasswordWrongMsg: string := "Old password is incorrect"
  const PasswordUpdatedMsg: string := "Password updated successfully"

  /** The answer of the password update for the caller `id`, given the
      users table as the route reads it. The new password is checked
      against the rule before any row is read. */
  function PasswordChangeAnswer(users: seq<User>, id: nat, b: PasswordChange): (r: Response<string>)
    ensures Blank(b.oldPassword) || Blank(b.newPassword) ==> r == Error(400, MissingPasswordsMsg)
    ensures !Blank(b.oldPassword) && !Blank(b.newPassword) && !PasswordPolicy(b.newPassword, ServerSpecials)
            ==> r == Error(400, NewPasswordRuleMsg)
    ensures r == Error(404, UserNotFoundMsg) <==>
              !Blank(b.oldPassword) && !Blank(b.newPassword) && PasswordPolicy(b.newPassword, ServerSpecials)
              && UserById(users, id).None?
    ensures r.Ok? <==> !Blank(b.oldPassword) && !Blank(b.newPassword) && PasswordPolicy(b.newPassword, ServerSpecials)
                       && UserById(users, id).Some?
                       && ComparePassword(b.oldPassword, UserById(users, id).value.password)
    ensures !Blank(b.oldPassword) && !Blank(b.newPassword) && PasswordPolicy(b.newPassword, ServerSpecials)
            && UserById(users, id).Some? && !ComparePassword(b.oldPassword, UserById(users, id).value.password)
            ==> r == Error(400, OldPasswordWrongMsg)
    ensures r.Ok? ==> r == Ok(200, PasswordUpdatedMsg)
  {
    RegexMeansPolicy(b.newPassword, ServerSpecials);
    if Blank(b.oldPassword) || Blank(b.newPassword) then Error(400, MissingPasswordsMsg)
    else if !ServerPasswordOk(b.newPassword) then Error(400, NewPasswordRuleMsg)
    else match UserById(users, id)
      case None => Error(404, UserNotFoundMsg)
      case Some(u) =>
        if !ComparePassword(b.oldPassword, u.password) then Error(400, OldPasswordWrongMsg)
        else Ok(200, PasswordUpdatedMsg)
  }

  /** The route: `auth`, then the checks, then the UPDATE of the caller's row. */
  method UpdatePassword(db: Database, header: Option<Token>, b: PasswordChange,
                        secret: string, salt: nat, now: int)
    returns (r: Response<string>)
    requires db.Valid()
    modifies db
    ensures db.Valid()
    ensures r.Error? ==> unchanged(db)
    ensures Authenticate(header, secret, now).Deny? ==>
              r == Error(Authenticate(header, secret, now).status, Authenticate(header, secret, now).msg)
    ensures Authenticate(header, secret, now).Pass? ==>
              r == PasswordChangeAnswer(old(db.users), Authenticate(header, secret, now).claims.id, b)
    ensures r.Ok? ==>
              && db.users == SetPassword(old(db.users), Authenticate(header, secret, now).claims.id,
                                         HashPassword(b.newPassword, salt), now)
              && db.stores == old(db.stores) && db.ratings == old(db.ratings)
    ensures db.nextUserId == old(db.nextUserId) && db.nextStoreId == old(db.nextStoreId)
            && db.nextRatingId == old(db.nextRatingId)
  {
    var gate := Authenticate(header, secret, now);
    if gate.Deny? {
      return Error(gate.status, gate.msg);
    }
    var id := gate.claims.id;
    if Blank(b.oldPassword) || Blank(b.newPassword) {
      return Error(400, MissingPasswordsMsg);
    }
    if !ServerPasswordOk(b.newPassword) {
      return Error(400, NewPasswordRuleMsg);
    }
    var found := UserById(db.users, id);
    if found.None? {
      return Error(404, UserNotFoundMsg);
    }
    if !ComparePassword(b.oldPassword, found.value.password) {
      return Error(400, OldPasswordWrongMsg);
    }
    var hashed := HashPassword(b.newPassword, salt);
    db.UpdatePassword(id, hashed, now);
    r := Ok(200, PasswordUpdatedMsg);
  }

  /** After a password update only the new password logs in, and only the
      caller's row changed. */
  lemma PasswordUpdateTakesEffect(users: seq<User>, id: nat, b: PasswordChange, salt: nat, now: int, k: nat)
    requires k < |users| && users[k].id == id
    ensures var after := SetPassword(users, id, HashPassword(b.newPassword, salt), now);
            && ComparePassword(b.newPassword, after[k].password)
            && (b.oldPassword != b.newPassword ==> !ComparePassword(b.oldPassword, after[k].password))
            && forall j :: 0 <= j < |users| && users[j].id != id ==> after[j] == users[j]
  {
  }

  // ---------------------------------------------------------------------
  // GET /auth/user (behind `auth`)
  // ---------------------------------------------------------------------

  /** `res.json(userRows[0])`: the caller's public columns, or an empty
      body when the row is gone. */
  function CurrentUser(users: seq<User>, header: Option<Token>, secret: string, now: int)
    : (r: Response<Option<PublicUser>>)
    ensures Authenticate(header, secret, now).Deny? <==> r.Error?
    ensures Authenticate(header, secret, now).Deny? ==>
              r == Error(Authenticate(header, secret, now).status, Authenticate(header, secret, now).msg)
    ensures r.Ok? ==> r.status == 200
    ensures r.Ok? ==>
              (r.body.Some? <==> exists k :: 0 <= k < |users| && users[k].id == Authenticate(header, secret, now).claims.id)
    ensures r.Ok? && r.body.Some? ==>
              && r.body.value.id == Authenticate(header, secret, now).claims.id
              && exists k :: 0 <= k < |users| && r.body.value == Public(users[k])
  {
    match Authenticate(header, secret, now)
    case Deny(s, m) => Error(s, m)
    case Pass(c) =>
      match UserById(users, c.id)
      case None => Ok(200, None)
      case Some(u) => Ok(200, Some(Public(u)))
  }
}
