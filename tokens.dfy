/**
 * The token manager (src/tokens/token_manager.go): pulls credentials out of
 * request headers, parses a JWT with the one process-wide secret, and hands
 * out the role and issuer claims only from a token that is still valid.
 * Signature and expiry checking belong to the JWT library, which is a
 * parameter (`JwtParser`) here.
 */
module Tokens {
  import opened Wrappers
  import opened Domain
  import opened Http

  /** The registered claims the gateway reads; only the issuer is used. */
  datatype StandardClaims = StandardClaims(issuer: string, subject: string, expiresAt: int, issuedAt: int)

  /**
   * The claims a parsed token holds: the gateway's own `ClaimsWithRole`, or
   * any other claims type, for which the type assertion fails.
   */
  datatype Claims =
    | ClaimsWithRole(userRoleSlug: string, userRoleLabel: string, username: string, standard: StandardClaims)
    | OtherClaims

  /** A parsed token; `valid` is the library's verdict on signature and expiry. */
  datatype Token = Token(raw: string, claims: Claims, valid: bool)

  /** The callback the library asks for the verification key of a token. */
  type Keyfunc = Token -> string

  /** `jwt.ParseWithClaims`: a token string and a key callback to a token or an error. */
  type JwtParser = (string, Keyfunc) -> Result<Token, string>

  /** `DefaultTokenManager`: holds the signing secret, fixed at start-up. */
  datatype TokenManager = TokenManager(jwtSecret: string)

  const AuthorizationHeader := "Authorization"
  /** `Header.Get("refresh-token")` looks up the canonical name. */
  const RefreshTokenHeader := "Refresh-Token"
  const BearerPrefix := "Bearer "

  /**
   * The bearer token of the Authorization header: "" when the header is
   * absent or empty, otherwise the header minus its first seven characters.
   * Go panics on a non-empty header shorter than `"Bearer "`; callers must
   * not pass one. The prefix itself is never compared.
   */
  function GetJWTTokenFromHeaders(r: Request): (token: string)
    requires var h := HeaderGet(r.headers, AuthorizationHeader); h == "" || |h| >= |BearerPrefix|
    ensures var h := HeaderGet(r.headers, AuthorizationHeader);
      (h == "" ==> token == "") &&
      (h != "" ==> |token| == |h| - |BearerPrefix| && h == h[..|BearerPrefix|] + token)
  {
    var authHeader := HeaderGet(r.headers, AuthorizationHeader);
    if |authHeader| == 0 then ""
    else authHeader[|BearerPrefix|..]
  }

  /** The refresh token header, unchanged, or "" when absent. */
  function GetRefreshTokenFromHeaders(r: Request): (token: string)
    ensures RefreshTokenHeader in r.headers ==> token == r.headers[RefreshTokenHeader]
    ensures RefreshTokenHeader !in r.headers ==> token == ""
  {
    HeaderGet(r.headers, RefreshTokenHeader)
  }

  /** `IsTokenValid`: the flag the parser stored, nothing more. */
  function IsTokenValid(token: Token): (valid: bool)
    ensures valid <==> token.valid
  {
    token.valid
  }

  /** The issuer claim, given only for `ClaimsWithRole` claims of a valid token. */
  function GetTokenIssuer(token: Token): (r: Result<string, DomainError>)
    ensures r.Success? <==> token.claims.ClaimsWithRole? && IsTokenValid(token)
    ensures r.Success? ==> r.value == token.claims.standard.issuer
    ensures r.Failure? ==> r.error == ErrInvalidToken
  {
    if token.claims.ClaimsWithRole? && IsTokenValid(token) then Success(token.claims.standard.issuer)
    else Failure(ErrInvalidToken)
  }

  /** The role slug claim, under the same condition as the issuer. */
  function GetTokenRole(token: Token): (r: Result<string, DomainError>)
    ensures r.Success? <==> token.claims.ClaimsWithRole? && IsTokenValid(token)
    ensures r.Success? ==> r.value == token.claims.userRoleSlug
    ensures r.Failure? ==> r.error == ErrInvalidToken
  {
    if token.claims.ClaimsWithRole? && IsTokenValid(token) then Success(token.claims.userRoleSlug)
    else Failure(ErrInvalidToken)
  }

  /** The key callback `ParseToken` gives the library: the secret, whatever the token. */
  function KeyFunc(secret: string): (k: Keyfunc)
    ensures forall t :: k(t) == secret
  {
    t => secret
  }

  /**
   * `ParseToken`: the library's parse of the string, with a key callback that
   * answers the manager's secret for every token (`KeyFunc`).
   */
  function ParseToken(tm: TokenManager, jwt: JwtParser, tokenString: string): (parsed: Result<Token, string>)
    ensures parsed == jwt(tokenString, KeyFunc(tm.jwtSecret))
  {
    jwt(tokenString, KeyFunc(tm.jwtSecret))
  }

  /** For every X, the header `"Bearer " + X` yields exactly X. */
  lemma BearerRoundTrip(x: string, headers: map<string, string>)
    ensures GetJWTTokenFromHeaders(Request(headers[AuthorizationHeader := BearerPrefix + x], [], "")) == x
  {
    var h := BearerPrefix + x;
    assert h[|BearerPrefix|..] == x;
  }

  /** Any seven characters are stripped as if they were `"Bearer "`. */
  lemma PrefixNotChecked(prefix: string, x: string)
    requires |prefix| == |BearerPrefix|
    ensures GetJWTTokenFromHeaders(Request(map[AuthorizationHeader := prefix + x], [], "")) == x
  {
    var h := prefix + x;
    assert h[|prefix|..] == x;
  }

  /** Role and issuer are handed out together or not at all. */
  lemma ClaimAccessorsAgree(token: Token)
    ensures GetTokenRole(token).Success? <==> GetTokenIssuer(token).Success?
    ensures GetTokenRole(token).Success? ==> IsTokenValid(token)
  {
  }

  /**
   * A valid token with claims for subject "u1" and role "admin" yields
   * exactly those; the same token once expired yields neither.
   */
  lemma AdminScenario(raw: string, std: StandardClaims)
    requires std.issuer == "u1"
    ensures var t := Token(raw, ClaimsWithRole("admin", "Administrator", "u1", std), true);
      IsTokenValid(t) && GetTokenRole(t) == Success("admin") && GetTokenIssuer(t) == Success("u1")
    ensures var t := Token(raw, ClaimsWithRole("admin", "Administrator", "u1", std), false);
      !IsTokenValid(t) && GetTokenRole(t) == Failure(ErrInvalidToken) && GetTokenIssuer(t) == Failure(ErrInvalidToken)
  {
  }
}
