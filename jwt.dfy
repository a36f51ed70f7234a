/** The token utility (JwtUtil): issuing a signed token that carries a
    username and a role, reading claims back out of a token, and checking
    a token against a username and the current time.

    Signing, the compact serialization and the HMAC key derivation are
    abstract: a token string decodes (through `parse`) to a Token record
    that remembers the secret it was signed with, and a token verifies
    exactly when that secret is the configured one. */
module Jwt {
  import opened Outcomes

  /** The claims of a token, with the secret whose key signed it. Times are
      milliseconds since the epoch. */
  datatype Token = Token(subject: string, role: string, issuedAt: int, expiration: int, signedWithKey: string)

  /** Why the token library refuses a token string. */
  datatype JwtError = MalformedJwt | SignatureInvalid

  /** The outcome of reading a claim: its value, or the library's refusal. */
  datatype Claim<+T> = Extracted(value: T) | Rejected(reason: JwtError)

  /** The configured utility: the signing secret, the token lifetime, and
      the token library's compact serialization and its parser. */
  datatype JwtUtil = JwtUtil(
    signingSecret: string,
    expirationMillis: int,
    compact: Token -> string,
    parse: string -> Option<Token>)

  /** What the token library guarantees of its own format: a serialized
      token parses back to the same claims. */
  ghost predicate SerializationRoundTrips(jwt: JwtUtil) {
    forall t: Token :: jwt.parse(jwt.compact(t)) == Some(t)
  }

  /** The token string is well formed and signed with the configured key. */
  predicate Verifies(jwt: JwtUtil, token: string) {
    jwt.parse(token).Some? && jwt.parse(token).value.signedWithKey == jwt.signingSecret
  }

  /** extractClaim: parse the token and check its signature before any
      claim is handed out. */
  function ExtractClaims(jwt: JwtUtil, token: string): (claims: Claim<Token>)
    ensures claims.Extracted? <==> Verifies(jwt, token)
    ensures claims.Extracted? ==> claims.value.signedWithKey == jwt.signingSecret
    ensures claims.Extracted? ==> jwt.parse(token) == Some(claims.value)
  {
    match jwt.parse(token)
    case None => Rejected(MalformedJwt)
    case Some(t) =>
      if t.signedWithKey == jwt.signingSecret then Extracted(t) else Rejected(SignatureInvalid)
  }

  function ExtractUsername(jwt: JwtUtil, token: string): (username: Claim<string>)
    ensures username.Extracted? <==> Verifies(jwt, token)
    ensures username.Extracted? ==> username.value == jwt.parse(token).value.subject
  {
    match ExtractClaims(jwt, token)
    case Rejected(e) => Rejected(e)
    case Extracted(claims) => Extracted(claims.subject)
  }

  /** The `role` claim. */
  function ExtractRole(jwt: JwtUtil, token: string): (role: Claim<string>)
    ensures role.Extracted? <==> Verifies(jwt, token)
    ensures role.Extracted? ==> role.value == jwt.parse(token).value.role
  {
    match ExtractClaims(jwt, token)
    case Rejected(e) => Rejected(e)
    case Extracted(claims) => Extracted(claims.role)
  }

  function ExtractExpiration(jwt: JwtUtil, token: string): (expiration: Claim<int>)
    ensures expiration.Extracted? <==> Verifies(jwt, token)
    ensures expiration.Extracted? ==> expiration.value == jwt.parse(token).value.expiration
  {
    match ExtractClaims(jwt, token)
    case Rejected(e) => Rejected(e)
    case Extracted(claims) => Extracted(claims.expiration)
  }

  /** generateToken at clock reading `now`: subject and role claim as given,
      issued now, expiring expirationMillis later, signed with the key. */
  function GenerateToken(jwt: JwtUtil, username: string, role: string, now: int): (token: string)
    ensures SerializationRoundTrips(jwt) ==> Verifies(jwt, token)
    ensures SerializationRoundTrips(jwt) ==> jwt.parse(token).value.issuedAt == now
    ensures SerializationRoundTrips(jwt) ==> ExtractUsername(jwt, token) == Extracted(username)
    ensures SerializationRoundTrips(jwt) ==> ExtractRole(jwt, token) == Extracted(role)
    ensures SerializationRoundTrips(jwt) ==> ExtractExpiration(jwt, token) == Extracted(now + jwt.expirationMillis)
  {
    jwt.compact(Token(username, role, now, now + jwt.expirationMillis, jwt.signingSecret))
  }

  /** validateToken: the subject is the given username and the expiration
      lies strictly after `now`. It fails, as the source's call throws,
      when the token does not verify. */
  function ValidateToken(jwt: JwtUtil, token: string, username: string, now: int): (valid: Claim<bool>)
    ensures valid.Extracted? <==> Verifies(jwt, token)
    ensures valid.Extracted? ==>
      (valid.value <==> jwt.parse(token).value.subject == username && now < jwt.parse(token).value.expiration)
  {
    var extracted := ExtractUsername(jwt, token);
    if extracted.Rejected? then Rejected(extracted.reason)
    else Extracted(extracted.value == username && ExtractExpiration(jwt, token).value > now)
  }

  /** A freshly issued token validates for its own subject exactly until
      its lifetime has run out: at issue time + expirationMillis it is
      already invalid, and it never validates for another username. */
  lemma GeneratedTokenValidity(jwt: JwtUtil, username: string, role: string, issuedAt: int, name: string, now: int)
    requires SerializationRoundTrips(jwt)
    ensures ValidateToken(jwt, GenerateToken(jwt, username, role, issuedAt), name, now)
         == Extracted(name == username && now < issuedAt + jwt.expirationMillis)
  {
  }

  /** A token checked at its own issue time validates iff the configured
      lifetime is positive. */
  lemma FreshTokenValidatesAtIssue(jwt: JwtUtil, username: string, role: string, now: int)
    requires SerializationRoundTrips(jwt)
    ensures ValidateToken(jwt, GenerateToken(jwt, username, role, now), username, now)
         == Extracted(jwt.expirationMillis > 0)
  {
  }

  /** No claim is ever read from a token signed with another secret. */
  lemma ForeignSignatureRejected(jwt: JwtUtil, token: string)
    requires jwt.parse(token).Some? && jwt.parse(token).value.signedWithKey != jwt.signingSecret
    ensures ExtractClaims(jwt, token) == Rejected(SignatureInvalid)
    ensures ExtractUsername(jwt, token).Rejected? && ExtractRole(jwt, token).Rejected?
    ensures ExtractExpiration(jwt, token).Rejected?
  {
  }
}
