/**
 * Token issuance and validation (TokenManager, BaseTokenManager). A token is
 * a JWT signed with HMAC-SHA256 under the manager's secret. The JWT library
 * is a collaborator: `sign` either produces the token string or fails, and
 * `verify` gives back the claims a token was signed with when the secret is
 * the one it was signed under. The clock is the parameter `now`, in seconds.
 */
module Tokens {
  import opened Wrappers
  import opened Crypto

  datatype TokenType = ACCESS_TOKEN | REFRESH_TOKEN

  function TokenTypeString(t: TokenType): string
  {
    match t
    case ACCESS_TOKEN => "access"
    case REFRESH_TOKEN => "refresh"
  }

  function TokenTypeFromString(s: string): (r: Option<TokenType>)
  {
    if s == "access" then Some(ACCESS_TOKEN)
    else if s == "refresh" then Some(REFRESH_TOKEN)
    else None
  }

  /** Each token type round-trips through its string, and a string names a type exactly when it is that type's string. */
  lemma TokenTypeRoundTrip(t: TokenType, s: string)
    ensures TokenTypeFromString(TokenTypeString(t)) == Some(t)
    ensures TokenTypeFromString(s) == Some(t) <==> s == TokenTypeString(t)
  {
  }

  const CLIENT_ID := "client_id"
  const TOKEN_TYPE := "token_type"

  /** The registered claims the code uses (issuer, expiry) and its private string claims. */
  datatype Jwt = Jwt(issuer: Option<string>, claims: map<string, string>, expiresAt: Option<int>)

  /** The JWT library with HMAC-SHA256 over a secret. */
  datatype JwtLibrary = JwtLibrary(sign: (Blob, Jwt) -> Option<string>, verify: (Blob, string) -> Option<Jwt>)

  /**
   * What the code relies on from the library: a token verifies under the
   * secret it was signed with and gives back its claims, and under no other
   * secret.
   */
  ghost predicate Lawful(lib: JwtLibrary)
  {
    (forall secret, jwt :: lib.sign(secret, jwt).Some? ==> lib.verify(secret, lib.sign(secret, jwt).value) == Some(jwt))
    && (forall secret, secret', jwt :: secret' != secret && lib.sign(secret, jwt).Some? ==>
          lib.verify(secret', lib.sign(secret, jwt).value).None?)
  }

  /** A BaseTokenManager: its secret, its issuer and the library it signs with. */
  datatype TokenManager = TokenManager(secret: Blob, issuer: string, lib: JwtLibrary)

  /** The claims of a token of type `t` for `clientId`, issued at `now` and living `lifetime` seconds. */
  function TokenClaims(tm: TokenManager, t: TokenType, clientId: string, lifetime: int, now: int): Jwt
  {
    Jwt(Some(tm.issuer), map[CLIENT_ID := clientId, TOKEN_TYPE := TokenTypeString(t)], Some(now + lifetime))
  }

  /** `generateToken`: null when the library cannot create the token. */
  function GenerateToken(tm: TokenManager, t: TokenType, clientId: string, lifetime: int, now: int): Option<string>
  {
    tm.lib.sign(tm.secret, TokenClaims(tm, t, clientId, lifetime, now))
  }

  /**
   * `verifier.verify`: the token's signature must check under the secret,
   * its issuer must be the manager's, and a token whose expiry has passed is
   * refused.
   */
  function VerifyToken(tm: TokenManager, token: string, now: int): (r: Option<Jwt>)
    ensures r.Some? ==> r.value.issuer == Some(tm.issuer)
    ensures r.Some? && r.value.expiresAt.Some? ==> now <= r.value.expiresAt.value
  {
    match tm.lib.verify(tm.secret, token)
    case None => None
    case Some(jwt) =>
      if jwt.issuer != Some(tm.issuer) then None
      else if jwt.expiresAt.Some? && now > jwt.expiresAt.value then None
      else Some(jwt)
  }

  /** The token_type claim read back: absent or unknown gives null. */
  function EncodedTokenType(jwt: Jwt): Option<TokenType>
  {
    if TOKEN_TYPE in jwt.claims then TokenTypeFromString(jwt.claims[TOKEN_TYPE]) else None
  }

  /** `validateAndDecodeToken`: verification, then the token type, then the presence of client_id. */
  function ValidateAndDecodeToken(tm: TokenManager, token: string, t: TokenType, now: int): (r: Option<Jwt>)
    ensures r.Some? <==>
      VerifyToken(tm, token, now).Some? && EncodedTokenType(VerifyToken(tm, token, now).value) == Some(t)
      && CLIENT_ID in VerifyToken(tm, token, now).value.claims
    ensures r.Some? ==> r == VerifyToken(tm, token, now)
  {
    match VerifyToken(tm, token, now)
    case None => None
    case Some(jwt) =>
      if EncodedTokenType(jwt) != Some(t) then None
      else if CLIENT_ID !in jwt.claims then None
      else Some(jwt)
  }

  /** `getClientIdFromToken`: the client_id claim, or null. */
  function ClientIdFromToken(jwt: Jwt): (r: Option<string>)
    ensures r.Some? <==> CLIENT_ID in jwt.claims
    ensures r.Some? ==> r.value == jwt.claims[CLIENT_ID]
  {
    if CLIENT_ID in jwt.claims then Some(jwt.claims[CLIENT_ID]) else None
  }

  // ---------------------------------------------------------------------------
  // Properties

  /**
   * A token the manager generates validates as its own type until it
   * expires, and its client_id is the one it was issued for.
   */
  lemma GeneratedTokenValidates(tm: TokenManager, t: TokenType, clientId: string, lifetime: int, now: int, later: int)
    requires Lawful(tm.lib)
    requires GenerateToken(tm, t, clientId, lifetime, now).Some?
    requires later <= now + lifetime
    ensures var jwt := ValidateAndDecodeToken(tm, GenerateToken(tm, t, clientId, lifetime, now).value, t, later);
      jwt == Some(TokenClaims(tm, t, clientId, lifetime, now)) && ClientIdFromToken(jwt.value) == Some(clientId)
  {
    var claims := TokenClaims(tm, t, clientId, lifetime, now);
    assert tm.lib.verify(tm.secret, tm.lib.sign(tm.secret, claims).value) == Some(claims);
    TokenTypeRoundTrip(t, TokenTypeString(t));
  }

  /** An access token never validates as a refresh token, nor a refresh token as an access token. */
  lemma TokenTypesDoNotMix(tm: TokenManager, t: TokenType, u: TokenType, clientId: string, lifetime: int, now: int, later: int)
    requires Lawful(tm.lib)
    requires GenerateToken(tm, t, clientId, lifetime, now).Some?
    requires u != t
    ensures ValidateAndDecodeToken(tm, GenerateToken(tm, t, clientId, lifetime, now).value, u, later).None?
  {
    var claims := TokenClaims(tm, t, clientId, lifetime, now);
    assert tm.lib.verify(tm.secret, tm.lib.sign(tm.secret, claims).value) == Some(claims);
    TokenTypeRoundTrip(u, TokenTypeString(t));
  }

  /** Once its lifetime has passed, a generated token no longer validates. */
  lemma ExpiredTokenRejected(tm: TokenManager, t: TokenType, clientId: string, lifetime: int, now: int, later: int)
    requires Lawful(tm.lib)
    requires GenerateToken(tm, t, clientId, lifetime, now).Some?
    requires later > now + lifetime
    ensures ValidateAndDecodeToken(tm, GenerateToken(tm, t, clientId, lifetime, now).value, t, later).None?
  {
    var claims := TokenClaims(tm, t, clientId, lifetime, now);
    assert tm.lib.verify(tm.secret, tm.lib.sign(tm.secret, claims).value) == Some(claims);
  }

  /** A token signed under another secret does not validate. */
  lemma ForeignSecretRejected(tm: TokenManager, other: Blob, t: TokenType, clientId: string, lifetime: int, now: int, later: int)
    requires Lawful(tm.lib) && other != tm.secret
    requires GenerateToken(tm.(secret := other), t, clientId, lifetime, now).Some?
    ensures ValidateAndDecodeToken(tm, GenerateToken(tm.(secret := other), t, clientId, lifetime, now).value, t, later).None?
  {
    var claims := TokenClaims(tm.(secret := other), t, clientId, lifetime, now);
    assert tm.lib.verify(tm.secret, tm.lib.sign(other, claims).value).None?;
  }

  /** A verified token without a client_id claim, or without a token_type claim, is refused. */
  lemma MissingClaimRejected(tm: TokenManager, token: string, t: TokenType, now: int)
    requires VerifyToken(tm, token, now).Some?
    requires CLIENT_ID !in VerifyToken(tm, token, now).value.claims || TOKEN_TYPE !in VerifyToken(tm, token, now).value.claims
    ensures ValidateAndDecodeToken(tm, token, t, now).None?
  {
  }
}
