/** Password hashing (bcrypt) and session tokens (JWT), modelled symbolically.

    A bcrypt digest is a free constructor over the salt and the plaintext, so
    the model knows exactly the two facts the routes rely on: a password
    verifies against its own hash, and against no other password's. A JWT is
    the claims, an expiry and an HMAC that is again a free constructor over
    the secret, the claims and the expiry: a token verifies only with the
    secret that signed it, only before it expires, and only with the claims
    it was signed over. */
module Credentials {
  import opened Common

  /** Cost factor passed to `bcrypt.genSalt` by every route that hashes. */
  const SaltRounds: nat := 10

  datatype PasswordHash = Bcrypt(rounds: nat, salt: nat, digestOf: string)

  /** `bcrypt.compare(plain, hash)` */
  predicate ComparePassword(plain: string, hash: PasswordHash)
  {
    hash.digestOf == plain
  }

  /** `bcrypt.hash(plain, await bcrypt.genSalt(10))`; the salt is random and
      so a parameter. */
  function HashPassword(plain: string, salt: nat): (h: PasswordHash)
    ensures ComparePassword(plain, h)
    ensures forall other :: ComparePassword(other, h) ==> other == plain
    ensures h.rounds == SaltRounds
  {
    Bcrypt(SaltRounds, salt, plain)
  }

  /** The claims every token carries: `{ id, role }`. */
  datatype Claims = Claims(id: nat, role: Role)

  datatype Signature = Hmac(secret: string, claims: Claims, expiresAt: int)

  /** A presented token: one issued by `SignToken`, or any other text. */
  datatype Token = Jwt(claims: Claims, expiresAt: int, signature: Signature) | Garbage(text: string)

  /** `expiresIn: '1h'` at registration and `expiresIn: 3600` at login. */
  const SessionSeconds: int := 3600

  /** `jwt.sign(claims, JWT_SECRET, { expiresIn: 3600 })` at time `now`. */
  function SignToken(claims: Claims, secret: string, now: int): (t: Token)
    ensures t.Jwt? && t.claims == claims && t.expiresAt == now + SessionSeconds
  {
    Jwt(claims, now + SessionSeconds, Hmac(secret, claims, now + SessionSeconds))
  }

  /** `jwt.verify(token, JWT_SECRET)` at time `now`: the decoded claims, or
      `None` where the library throws (bad signature, expired, unparsable). */
  function VerifyToken(t: Token, secret: string, now: int): (r: Option<Claims>)
    ensures r.Some? <==> t.Jwt? && t.signature == Hmac(secret, t.claims, t.expiresAt) && now < t.expiresAt
    ensures r.Some? ==> r.value == t.claims
  {
    match t
    case Garbage(_) => None
    case Jwt(c, exp, sig) => if sig == Hmac(secret, c, exp) && now < exp then Some(c) else None
  }

  /** A token signed at `issuedAt` verifies, with its own claims, for exactly one hour. */
  lemma SignedTokenVerifiesForOneHour(c: Claims, secret: string, issuedAt: int, now: int)
    ensures VerifyToken(SignToken(c, secret, issuedAt), secret, now)
            == if now < issuedAt + SessionSeconds then Some(c) else None
  {
  }

  /** Changing the claims of a signed token (say, to raise the role) makes it
      fail, whatever secret the server holds. */
  lemma TamperedClaimsRejected(c: Claims, forged: Claims, signer: string, secret: string, issuedAt: int, now: int)
    requires forged != c
    ensures var t := SignToken(c, signer, issuedAt);
            VerifyToken(Jwt(forged, t.expiresAt, t.signature), secret, now) == None
  {
  }

  /** A token signed under another secret never verifies. */
  lemma ForeignSecretRejected(c: Claims, signer: string, secret: string, issuedAt: int, now: int)
    requires signer != secret
    ensures VerifyToken(SignToken(c, signer, issuedAt), secret, now) == None
  {
  }
}
