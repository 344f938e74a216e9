/**
 * The authorization middleware (src/middlewares/authorization.go): per
 * protected request it reads the access token from its cookie, parses it,
 * refreshes the credential pair once through the identity service when the
 * token does not parse or is no longer valid, gates on the route's allowed
 * roles, and admits the request to the next handler with the caller's
 * `{userId, userRole}`. Every refusal is a 401 "invalid token".
 *
 * `Authorize` describes one request as the ordered list of its effects;
 * `RequireToken` performs them on the response writer, the users client and
 * the next handler, and is proved to follow `Authorize` step by step.
 */
module Authorization {
  import opened Wrappers
  import opened Domain
  import opened Http
  import opened Clients
  import opened Tokens
  import opened Cookies
  import opened SecureCookies

  /** What an admitted request carries in its context: `userId` and `userRole`. */
  datatype Identity = Identity(userId: string, userRole: string)

  /** One observable step of the middleware. */
  datatype Effect =
    | Parsed(tokenString: string)        // the token manager parsed this string
    | RefreshRequested(refreshToken: string) // one RefreshJWT round trip with this token
    | Reissued(cookies: seq<Cookie>)     // GenerateCookiesFromTokens wrote these cookies
    | Rejected                           // 401 "invalid token"; the next handler is not run
    | Admitted(identity: Identity)       // the next handler runs with this identity

  /** The middleware's collaborators: token manager and JWT library, users client, cookie codec. */
  datatype AuthorizationMiddleware = AuthorizationMiddleware(tm: TokenManager, jwt: JwtParser, uc: UsersClient, codec: Codec)

  const InvalidToken := "invalid token"

  /** The protected handler behind the middleware; it records the identities it was run with. */
  class NextHandler {
    var served: seq<Identity>

    constructor ()
      ensures served == []
    {
      served := [];
    }

    method ServeHTTP(identity: Identity)
      modifies this
      ensures served == old(served) + [identity]
    {
      served := served + [identity];
    }
  }

  // ---------------------------------------------------------------------
  // The specification of one request
  // ---------------------------------------------------------------------

  /**
   * `getNewTokens` after its round trip: the service's access and refresh
   * tokens as a pair (the user is dropped), or the service's error.
   */
  function NewTokensFrom(reply: Reply): (r: Result<TokenResponse, RpcError>)
    ensures r.Success? <==> reply.Success?
    ensures r.Success? ==> r.value.accessToken == reply.value.accessToken && r.value.refreshToken == reply.value.refreshToken
    ensures r.Failure? ==> r.error == reply.error
  {
    match reply
    case Failure(e) => Failure(e)
    case Success(res) => Success(TokenResponse(res.accessToken, res.refreshToken, ZeroUser))
  }

  /** Role check and identity extraction on the token in use. */
  function Gate(token: Token, allowedRoles: seq<string>): seq<Effect>
  {
    match GetTokenRole(token)
    case Failure(_) => [Rejected]
    case Success(userRole) =>
      if |allowedRoles| > 0 && userRole !in allowedRoles then [Rejected]
      else
        match GetTokenIssuer(token)
        case Failure(_) => [Rejected]
        case Success(userId) => [Admitted(Identity(userId, userRole))]
  }

  /** After a parse that must succeed: a refusal if it failed, otherwise the gate. */
  function AfterParse(parsed: Result<Token, string>, allowedRoles: seq<string>): seq<Effect>
  {
    match parsed
    case Failure(_) => [Rejected]
    case Success(token) => Gate(token, allowedRoles)
  }

  /** The refresh branch: one round trip, reissue of both cookies, one re-parse, then the gate. */
  function RefreshThenGate(aw: AuthorizationMiddleware, allowedRoles: seq<string>, now: int, refreshToken: string): seq<Effect>
  {
    [RefreshRequested(refreshToken)] +
    match NewTokensFrom(aw.uc.refreshReply(refreshToken))
    case Failure(_) => [Rejected]
    case Success(pair) =>
      [Reissued(TokenCookies(aw.codec, now, pair.accessToken, pair.refreshToken))] +
      ([Parsed(pair.accessToken)] + AfterParse(ParseToken(aw.tm, aw.jwt, pair.accessToken), allowedRoles))
  }

  /**
   * The effects of one request whose access and refresh cookies read as
   * `accessToken` and `refreshToken` (each "" when absent or rejected).
   */
  function Decide(aw: AuthorizationMiddleware, allowedRoles: seq<string>, now: int, accessToken: string, refreshToken: string): (effects: seq<Effect>)
    ensures effects == [Rejected] <==> accessToken == ""
    ensures accessToken != "" ==> |effects| >= 2 && effects[0] == Parsed(accessToken)
  {
    if |accessToken| == 0 then [Rejected]
    else
      [Parsed(accessToken)] +
      match ParseToken(aw.tm, aw.jwt, accessToken)
      case Success(token) =>
        if IsTokenValid(token) then Gate(token, allowedRoles) else RefreshThenGate(aw, allowedRoles, now, refreshToken)
      case Failure(_) => RefreshThenGate(aw, allowedRoles, now, refreshToken)
  }

  /** The effects of `RequireToken(allowedRoles)` on request `r` at time `now`, in order. */
  function Authorize(aw: AuthorizationMiddleware, allowedRoles: seq<string>, now: int, r: Request): (effects: seq<Effect>)
    ensures GetAccessToken(aw.codec, r) == "" ==> effects == [Rejected]
    ensures GetAccessToken(aw.codec, r) != "" ==> |effects| >= 2 && effects[0] == Parsed(GetAccessToken(aw.codec, r))
  {
    Decide(aw, allowedRoles, now, GetAccessToken(aw.codec, r), GetRefreshToken(aw.codec, r))
  }

  // ---------------------------------------------------------------------
  // Independent descriptions used to characterise `Decide`
  // ---------------------------------------------------------------------

  /** The access token is present but does not parse or is no longer valid. */
  predicate NeedsRefresh(aw: AuthorizationMiddleware, accessToken: string)
  {
    accessToken != "" &&
    var first := ParseToken(aw.tm, aw.jwt, accessToken);
    first.Failure? || !IsTokenValid(first.value)
  }

  /** The token whose claims decide the request: the original, or the one minted by the refresh. */
  function TokenInUse(aw: AuthorizationMiddleware, accessToken: string, refreshToken: string): Option<Token>
  {
    if accessToken == "" then None
    else if !NeedsRefresh(aw, accessToken) then Some(ParseToken(aw.tm, aw.jwt, accessToken).value)
    else
      var reply := aw.uc.refreshReply(refreshToken);
      if reply.Failure? then None
      else
        var second := ParseToken(aw.tm, aw.jwt, reply.value.accessToken);
        if second.Failure? then None else Some(second.value)
  }

  /** A token admits a request: role claims present, still valid, role allowed (or no list). */
  predicate Admissible(token: Token, allowedRoles: seq<string>)
  {
    token.claims.ClaimsWithRole? && token.valid &&
    (allowedRoles == [] || token.claims.userRoleSlug in allowedRoles)
  }

  /** The identity a token's claims give: its issuer and role slug. */
  function IdentityOf(token: Token): Identity
    requires token.claims.ClaimsWithRole?
  {
    Identity(token.claims.standard.issuer, token.claims.userRoleSlug)
  }

  /** The identity the next handler is run with, if the token in use admits the request. */
  function AdmittedIdentity(aw: AuthorizationMiddleware, allowedRoles: seq<string>, accessToken: string, refreshToken: string): seq<Identity>
  {
    var t := TokenInUse(aw, accessToken, refreshToken);
    if t.Some? && Admissible(t.value, allowedRoles) then [IdentityOf(t.value)] else []
  }

  // ---------------------------------------------------------------------
  // Projections of a list of effects
  // ---------------------------------------------------------------------

  /** What each effect contributes to a projection, concatenated in order. */
  function Collect<T>(f: Effect -> seq<T>, trace: seq<Effect>): seq<T>
  {
    if trace == [] then [] else f(trace[0]) + Collect(f, trace[1..])
  }

  function CallsIn(e: Effect): seq<Rpc>
  {
    if e.RefreshRequested? then [RefreshCall(e.refreshToken)] else []
  }

  function CookiesIn(e: Effect): seq<Cookie>
  {
    if e.Reissued? then e.cookies else []
  }

  function AdmissionsIn(e: Effect): seq<Identity>
  {
    if e.Admitted? then [e.identity] else []
  }

  function ParsesIn(e: Effect): seq<string>
  {
    if e.Parsed? then [e.tokenString] else []
  }

  /** The round trips the effects made to the identity service, in order. */
  function CallsOf(trace: seq<Effect>): seq<Rpc>
  {
    Collect(CallsIn, trace)
  }

  /** The cookies the effects wrote, in order. */
  function CookiesOf(trace: seq<Effect>): seq<Cookie>
  {
    Collect(CookiesIn, trace)
  }

  /** The identities the next handler was run with. */
  function AdmissionsOf(trace: seq<Effect>): seq<Identity>
  {
    Collect(AdmissionsIn, trace)
  }

  /** The token strings handed to the parser, in order. */
  function ParsesOf(trace: seq<Effect>): seq<string>
  {
    Collect(ParsesIn, trace)
  }

  /** The effect that ends the request: a rejection or an admission. */
  predicate IsVerdict(e: Effect)
  {
    e.Rejected? || e.Admitted?
  }

  lemma CollectCons<T>(f: Effect -> seq<T>, e: Effect, t: seq<Effect>)
    ensures Collect(f, [e] + t) == f(e) + Collect(f, t)
  {
    assert ([e] + t)[0] == e;
    assert ([e] + t)[1..] == t;
  }

  lemma CollectOne<T>(f: Effect -> seq<T>, e: Effect)
    ensures Collect(f, [e]) == f(e)
  {
    assert [e][1..] == [];
  }

  /** A projection of a concatenation is the concatenation of the projections. */
  lemma {:induction false} CollectAppend<T>(f: Effect -> seq<T>, a: seq<Effect>, b: seq<Effect>)
    ensures Collect(f, a + b) == Collect(f, a) + Collect(f, b)
  {
    if a == [] {
      assert a + b == b;
    } else {
      assert (a + b)[0] == a[0];
      assert (a + b)[1..] == a[1..] + b;
      CollectAppend(f, a[1..], b);
    }
  }

  lemma ProjectionsCons(e: Effect, t: seq<Effect>)
    ensures CallsOf([e] + t) == CallsIn(e) + CallsOf(t)
    ensures CookiesOf([e] + t) == CookiesIn(e) + CookiesOf(t)
    ensures AdmissionsOf([e] + t) == AdmissionsIn(e) + AdmissionsOf(t)
    ensures ParsesOf([e] + t) == ParsesIn(e) + ParsesOf(t)
  {
    CollectCons(CallsIn, e, t);
    CollectCons(CookiesIn, e, t);
    CollectCons(AdmissionsIn, e, t);
    CollectCons(ParsesIn, e, t);
  }

  lemma ProjectionsOne(e: Effect)
    ensures CallsOf([e]) == CallsIn(e) && CookiesOf([e]) == CookiesIn(e)
    ensures AdmissionsOf([e]) == AdmissionsIn(e) && ParsesOf([e]) == ParsesIn(e)
  {
    CollectOne(CallsIn, e);
    CollectOne(CookiesIn, e);
    CollectOne(AdmissionsIn, e);
    CollectOne(ParsesIn, e);
  }

  /** The projections of four effects followed by a tail, as `Decide` nests them. */
  lemma ProjectionsFour(a: Effect, b: Effect, c: Effect, d: Effect, t: seq<Effect>)
    ensures var trace := [a] + ([b] + ([c] + ([d] + t)));
      && CallsOf(trace) == CallsIn(a) + (CallsIn(b) + (CallsIn(c) + (CallsIn(d) + CallsOf(t))))
      && CookiesOf(trace) == CookiesIn(a) + (CookiesIn(b) + (CookiesIn(c) + (CookiesIn(d) + CookiesOf(t))))
      && AdmissionsOf(trace) == AdmissionsIn(a) + (AdmissionsIn(b) + (AdmissionsIn(c) + (AdmissionsIn(d) + AdmissionsOf(t))))
      && ParsesOf(trace) == ParsesIn(a) + (ParsesIn(b) + (ParsesIn(c) + (ParsesIn(d) + ParsesOf(t))))
  {
    ProjectionsCons(d, t);
    ProjectionsCons(c, [d] + t);
    ProjectionsCons(b, [c] + ([d] + t));
    ProjectionsCons(a, [b] + ([c] + ([d] + t)));
  }

  // ---------------------------------------------------------------------
  // The pieces of a request
  // ---------------------------------------------------------------------

  /** The gate ends the request with a single verdict, and admits exactly the admissible tokens. */
  lemma GateVerdict(token: Token, allowedRoles: seq<string>)
    ensures Gate(token, allowedRoles) ==
      if Admissible(token, allowedRoles) then [Admitted(IdentityOf(token))] else [Rejected]
  {
  }

  /** After a parse: a single verdict. */
  lemma AfterParseIsVerdict(parsed: Result<Token, string>, allowedRoles: seq<string>)
    ensures var t := AfterParse(parsed, allowedRoles); |t| == 1 && IsVerdict(t[0])
  {
    if parsed.Success? {
      GateVerdict(parsed.value, allowedRoles);
    }
  }

  /** After a parse: no round trip, cookie or parse; an admission exactly for a parsed, admissible token. */
  lemma AfterParseVerdict(parsed: Result<Token, string>, allowedRoles: seq<string>)
    ensures var t := AfterParse(parsed, allowedRoles);
      |t| == 1 && IsVerdict(t[0]) &&
      CallsOf(t) == [] && CookiesOf(t) == [] && ParsesOf(t) == [] &&
      AdmissionsOf(t) == if parsed.Success? && Admissible(parsed.value, allowedRoles) then [IdentityOf(parsed.value)] else []
  {
    if parsed.Success? {
      GateVerdict(parsed.value, allowedRoles);
    }
    ProjectionsOne(AfterParse(parsed, allowedRoles)[0]);
  }

  /** The three shapes of a request: refused at once, the gate on the first token, or the refresh branch. */
  lemma DecideShape(aw: AuthorizationMiddleware, allowedRoles: seq<string>, now: int, accessToken: string, refreshToken: string)
    ensures Decide(aw, allowedRoles, now, accessToken, refreshToken) ==
      if accessToken == "" then [Rejected]
      else if NeedsRefresh(aw, accessToken) then [Parsed(accessToken)] + RefreshThenGate(aw, allowedRoles, now, refreshToken)
      else [Parsed(accessToken)] + AfterParse(ParseToken(aw.tm, aw.jwt, accessToken), allowedRoles)
  {
  }

  /** The refresh branch as a list: the round trip, then a refusal or reissue, re-parse and verdict. */
  lemma RefreshShape(aw: AuthorizationMiddleware, allowedRoles: seq<string>, now: int, refreshToken: string)
    ensures var reply := aw.uc.refreshReply(refreshToken);
      RefreshThenGate(aw, allowedRoles, now, refreshToken) ==
        [RefreshRequested(refreshToken)] +
        if reply.Failure? then [Rejected]
        else
          [Reissued(TokenCookies(aw.codec, now, reply.value.accessToken, reply.value.refreshToken))] +
          ([Parsed(reply.value.accessToken)] + AfterParse(ParseToken(aw.tm, aw.jwt, reply.value.accessToken), allowedRoles))
  {
  }

  /** The token in use after a refresh: the re-parsed new access token, if the round trip and the parse succeed. */
  lemma TokenInUseAfterRefresh(aw: AuthorizationMiddleware, accessToken: string, refreshToken: string)
    requires NeedsRefresh(aw, accessToken)
    ensures var reply := aw.uc.refreshReply(refreshToken);
      TokenInUse(aw, accessToken, refreshToken) ==
        if reply.Failure? || ParseToken(aw.tm, aw.jwt, reply.value.accessToken).Failure? then None
        else Some(ParseToken(aw.tm, aw.jwt, reply.value.accessToken).value)
  {
  }

  /** A present but unusable access token leads into the refresh branch. */
  lemma DecideRefreshing(aw: AuthorizationMiddleware, allowedRoles: seq<string>, now: int, accessToken: string, refreshToken: string)
    requires NeedsRefresh(aw, accessToken)
    ensures Decide(aw, allowedRoles, now, accessToken, refreshToken) ==
      [Parsed(accessToken)] + RefreshThenGate(aw, allowedRoles, now, refreshToken)
  {
  }

  /** A granted round trip: the reissue of the returned pair, its re-parse and the verdict on it. */
  lemma RefreshGranted(aw: AuthorizationMiddleware, allowedRoles: seq<string>, now: int, refreshToken: string, resp: TokenResponse)
    requires aw.uc.refreshReply(refreshToken) == Success(resp)
    ensures RefreshThenGate(aw, allowedRoles, now, refreshToken) ==
      [RefreshRequested(refreshToken)] +
      ([Reissued(TokenCookies(aw.codec, now, resp.accessToken, resp.refreshToken))] +
       ([Parsed(resp.accessToken)] + AfterParse(ParseToken(aw.tm, aw.jwt, resp.accessToken), allowedRoles)))
  {
  }

  /** A usable first token: one parse, no round trip, no cookie; admitted iff admissible. */
  lemma GateCaseProjections(aw: AuthorizationMiddleware, allowedRoles: seq<string>, now: int, accessToken: string, refreshToken: string)
    requires accessToken != "" && !NeedsRefresh(aw, accessToken)
    ensures var trace := Decide(aw, allowedRoles, now, accessToken, refreshToken);
      var token := ParseToken(aw.tm, aw.jwt, accessToken).value;
      && CallsOf(trace) == [] && CookiesOf(trace) == [] && ParsesOf(trace) == [accessToken]
      && AdmissionsOf(trace) == (if Admissible(token, allowedRoles) then [IdentityOf(token)] else [])
  {
    var first := ParseToken(aw.tm, aw.jwt, accessToken);
    DecideShape(aw, allowedRoles, now, accessToken, refreshToken);
    AfterParseVerdict(first, allowedRoles);
    ProjectionsCons(Parsed(accessToken), AfterParse(first, allowedRoles));
  }

  /** A refused refresh: parse, round trip, 401; no cookie, no admission. */
  lemma RefusedRefreshProjections(aw: AuthorizationMiddleware, allowedRoles: seq<string>, now: int, accessToken: string, refreshToken: string)
    requires NeedsRefresh(aw, accessToken)
    requires aw.uc.refreshReply(refreshToken).Failure?
    ensures var trace := Decide(aw, allowedRoles, now, accessToken, refreshToken);
      && trace == [Parsed(accessToken), RefreshRequested(refreshToken), Rejected]
      && CallsOf(trace) == [RefreshCall(refreshToken)] && CookiesOf(trace) == []
      && ParsesOf(trace) == [accessToken] && AdmissionsOf(trace) == []
  {
    DecideShape(aw, allowedRoles, now, accessToken, refreshToken);
    RefreshShape(aw, allowedRoles, now, refreshToken);
    ProjectionsOne(Rejected);
    ProjectionsCons(RefreshRequested(refreshToken), [Rejected]);
    ProjectionsCons(Parsed(accessToken), [RefreshRequested(refreshToken)] + [Rejected]);
    assert [Parsed(accessToken)] + ([RefreshRequested(refreshToken)] + [Rejected]) ==
      [Parsed(accessToken), RefreshRequested(refreshToken), Rejected];
  }

  /** A granted refresh: one round trip, the new pair's cookies, both parses; the verdict is on the new token. */
  lemma GrantedRefreshProjections(aw: AuthorizationMiddleware, allowedRoles: seq<string>, now: int, accessToken: string, refreshToken: string, resp: TokenResponse)
    requires NeedsRefresh(aw, accessToken)
    requires aw.uc.refreshReply(refreshToken) == Success(resp)
    ensures var trace := Decide(aw, allowedRoles, now, accessToken, refreshToken);
      var second := ParseToken(aw.tm, aw.jwt, resp.accessToken);
      && CallsOf(trace) == [RefreshCall(refreshToken)]
      && CookiesOf(trace) == TokenCookies(aw.codec, now, resp.accessToken, resp.refreshToken)
      && ParsesOf(trace) == [accessToken, resp.accessToken]
      && AdmissionsOf(trace) ==
           (if second.Success? && Admissible(second.value, allowedRoles) then [IdentityOf(second.value)] else [])
  {
    var second := ParseToken(aw.tm, aw.jwt, resp.accessToken);
    var cookies := TokenCookies(aw.codec, now, resp.accessToken, resp.refreshToken);
    var tail := AfterParse(second, allowedRoles);
    DecideRefreshing(aw, allowedRoles, now, accessToken, refreshToken);
    RefreshGranted(aw, allowedRoles, now, refreshToken, resp);
    AfterParseVerdict(second, allowedRoles);
    ProjectionsFour(Parsed(accessToken), RefreshRequested(refreshToken), Reissued(cookies), Parsed(resp.accessToken), tail);
  }

  /**
   * The projections of a whole request, in terms of the decision's inputs:
   * one refresh round trip exactly when the access token is present but
   * unusable; the new pair's cookies exactly when that round trip
   * succeeded; and the admitted identity exactly from the token in use.
   */
  lemma DecideProjections(aw: AuthorizationMiddleware, allowedRoles: seq<string>, now: int, accessToken: string, refreshToken: string)
    ensures var trace := Decide(aw, allowedRoles, now, accessToken, refreshToken);
      var reply := aw.uc.refreshReply(refreshToken);
      && CallsOf(trace) == (if NeedsRefresh(aw, accessToken) then [RefreshCall(refreshToken)] else [])
      && CookiesOf(trace) == (if NeedsRefresh(aw, accessToken) && reply.Success?
           then TokenCookies(aw.codec, now, reply.value.accessToken, reply.value.refreshToken) else [])
      && ParsesOf(trace) == (if accessToken == "" then []
           else if NeedsRefresh(aw, accessToken) && reply.Success? then [accessToken, reply.value.accessToken]
           else [accessToken])
      && AdmissionsOf(trace) == AdmittedIdentity(aw, allowedRoles, accessToken, refreshToken)
  {
    if accessToken == "" {
      EmptyAccessTokenRejected(aw, allowedRoles, now, refreshToken);
    } else if NeedsRefresh(aw, accessToken) {
      TokenInUseAfterRefresh(aw, accessToken, refreshToken);
      var reply := aw.uc.refreshReply(refreshToken);
      if reply.Failure? {
        RefusedRefreshProjections(aw, allowedRoles, now, accessToken, refreshToken);
      } else {
        GrantedRefreshProjections(aw, allowedRoles, now, accessToken, refreshToken, reply.value);
      }
    } else {
      GateCaseProjections(aw, allowedRoles, now, accessToken, refreshToken);
    }
  }

  // ---------------------------------------------------------------------
  // Properties of the decision
  // ---------------------------------------------------------------------

  /** A list of non-verdicts closed by one verdict. */
  predicate EndsInOneVerdict(trace: seq<Effect>)
  {
    trace != [] && IsVerdict(trace[|trace| - 1]) &&
    forall i :: 0 <= i < |trace| - 1 ==> !IsVerdict(trace[i])
  }

  lemma ClosedByVerdict(init: seq<Effect>, v: Effect)
    requires forall i :: 0 <= i < |init| ==> !IsVerdict(init[i])
    requires IsVerdict(v)
    ensures EndsInOneVerdict(init + [v])
  {
    var trace := init + [v];
    assert forall i :: 0 <= i < |trace| - 1 ==> trace[i] == init[i];
  }

  /** Every request ends in exactly one verdict, as its last effect. */
  lemma ExactlyOneVerdict(aw: AuthorizationMiddleware, allowedRoles: seq<string>, now: int, accessToken: string, refreshToken: string)
    ensures EndsInOneVerdict(Decide(aw, allowedRoles, now, accessToken, refreshToken))
  {
    var trace := Decide(aw, allowedRoles, now, accessToken, refreshToken);
    DecideShape(aw, allowedRoles, now, accessToken, refreshToken);
    if accessToken == "" {
      ClosedByVerdict([], Rejected);
      assert trace == [] + [Rejected];
    } else if NeedsRefresh(aw, accessToken) {
      RefreshEndsInOneVerdict(aw, allowedRoles, now, accessToken, refreshToken);
    } else {
      var tail := AfterParse(ParseToken(aw.tm, aw.jwt, accessToken), allowedRoles);
      AfterParseIsVerdict(ParseToken(aw.tm, aw.jwt, accessToken), allowedRoles);
      ClosedByVerdict([Parsed(accessToken)], tail[0]);
      assert tail == [tail[0]];
    }
  }

  lemma ConsNonVerdict(e: Effect, t: seq<Effect>)
    requires !IsVerdict(e) && EndsInOneVerdict(t)
    ensures EndsInOneVerdict([e] + t)
  {
    var trace := [e] + t;
    assert forall i :: 1 <= i < |trace| ==> trace[i] == t[i - 1];
  }

  lemma RefreshEndsInOneVerdict(aw: AuthorizationMiddleware, allowedRoles: seq<string>, now: int, accessToken: string, refreshToken: string)
    ensures EndsInOneVerdict([Parsed(accessToken)] + RefreshThenGate(aw, allowedRoles, now, refreshToken))
  {
    var reply := aw.uc.refreshReply(refreshToken);
    RefreshShape(aw, allowedRoles, now, refreshToken);
    var rest: seq<Effect>;
    if reply.Failure? {
      rest := [Rejected];
    } else {
      var cookies := TokenCookies(aw.codec, now, reply.value.accessToken, reply.value.refreshToken);
      var tail := AfterParse(ParseToken(aw.tm, aw.jwt, reply.value.accessToken), allowedRoles);
      AfterParseIsVerdict(ParseToken(aw.tm, aw.jwt, reply.value.accessToken), allowedRoles);
      ConsNonVerdict(Parsed(reply.value.accessToken), tail);
      ConsNonVerdict(Reissued(cookies), [Parsed(reply.value.accessToken)] + tail);
      rest := [Reissued(cookies)] + ([Parsed(reply.value.accessToken)] + tail);
    }
    ConsNonVerdict(RefreshRequested(refreshToken), rest);
    ConsNonVerdict(Parsed(accessToken), [RefreshRequested(refreshToken)] + rest);
  }

  /** No access token: refused at once, with no parse, no round trip, no cookie, no admission. */
  lemma EmptyAccessTokenRejected(aw: AuthorizationMiddleware, allowedRoles: seq<string>, now: int, refreshToken: string)
    ensures Decide(aw, allowedRoles, now, "", refreshToken) == [Rejected]
    ensures var trace := Decide(aw, allowedRoles, now, "", refreshToken);
      ParsesOf(trace) == [] && CallsOf(trace) == [] && CookiesOf(trace) == [] && AdmissionsOf(trace) == []
  {
    ProjectionsOne(Rejected);
  }

  /**
   * At most one refresh per request: exactly one round trip when the access
   * token is present but unusable, none otherwise; and it forwards the
   * refresh token exactly as read from its cookie, even when that is "".
   */
  lemma RefreshAtMostOnce(aw: AuthorizationMiddleware, allowedRoles: seq<string>, now: int, accessToken: string, refreshToken: string)
    ensures |CallsOf(Decide(aw, allowedRoles, now, accessToken, refreshToken))| <= 1
    ensures CallsOf(Decide(aw, allowedRoles, now, accessToken, refreshToken)) == [RefreshCall(refreshToken)] <==>
      NeedsRefresh(aw, accessToken)
  {
    DecideProjections(aw, allowedRoles, now, accessToken, refreshToken);
  }

  /** A refused refresh ends the request with 401: no cookie, no second parse, no admission. */
  lemma FailedRefreshRejects(aw: AuthorizationMiddleware, allowedRoles: seq<string>, now: int, accessToken: string, refreshToken: string)
    requires NeedsRefresh(aw, accessToken)
    requires aw.uc.refreshReply(refreshToken).Failure?
    ensures Decide(aw, allowedRoles, now, accessToken, refreshToken) ==
      [Parsed(accessToken), RefreshRequested(refreshToken), Rejected]
    ensures var trace := Decide(aw, allowedRoles, now, accessToken, refreshToken);
      CookiesOf(trace) == [] && AdmissionsOf(trace) == []
  {
    RefusedRefreshProjections(aw, allowedRoles, now, accessToken, refreshToken);
  }

  /**
   * A successful refresh reissues exactly the returned pair before the new
   * access token is parsed, and the old token is not parsed again: the
   * request is the first parse, the round trip, the new cookies, the
   * re-parse, then one verdict on the new token.
   */
  lemma RefreshedPairReissuedBeforeReparse(aw: AuthorizationMiddleware, allowedRoles: seq<string>, now: int, accessToken: string, refreshToken: string, resp: TokenResponse)
    requires NeedsRefresh(aw, accessToken)
    requires aw.uc.refreshReply(refreshToken) == Success(resp)
    ensures var trace := Decide(aw, allowedRoles, now, accessToken, refreshToken);
      trace == [Parsed(accessToken), RefreshRequested(refreshToken),
                Reissued(TokenCookies(aw.codec, now, resp.accessToken, resp.refreshToken)), Parsed(resp.accessToken)] +
               AfterParse(ParseToken(aw.tm, aw.jwt, resp.accessToken), allowedRoles) &&
      |trace| == 5 && IsVerdict(trace[4])
  {
    var cookies := TokenCookies(aw.codec, now, resp.accessToken, resp.refreshToken);
    var tail := AfterParse(ParseToken(aw.tm, aw.jwt, resp.accessToken), allowedRoles);
    AfterParseIsVerdict(ParseToken(aw.tm, aw.jwt, resp.accessToken), allowedRoles);
    DecideShape(aw, allowedRoles, now, accessToken, refreshToken);
    RefreshShape(aw, allowedRoles, now, refreshToken);
    Regroup(Parsed(accessToken), RefreshRequested(refreshToken), Reissued(cookies), Parsed(resp.accessToken), tail);
  }

  lemma Regroup(a: Effect, b: Effect, c: Effect, d: Effect, t: seq<Effect>)
    ensures [a] + ([b] + ([c] + ([d] + t))) == [a, b, c, d] + t
    ensures |t| == 1 ==> |[a, b, c, d] + t| == 5 && ([a, b, c, d] + t)[4] == t[0]
  {
  }

  /**
   * The reissued cookies carry the new pair: with a codec whose decode undoes
   * its encode, the client's next request reads back exactly the tokens the
   * identity service returned.
   */
  lemma ReissuedCookiesCarryNewPair(aw: AuthorizationMiddleware, allowedRoles: seq<string>, now: int, accessToken: string, refreshToken: string, resp: TokenResponse)
    requires NeedsRefresh(aw, accessToken)
    requires aw.uc.refreshReply(refreshToken) == Success(resp)
    requires DecodeInvertsEncode(aw.codec)
    requires aw.codec.encode(AccessTokenKey, resp.accessToken).Some?
    requires aw.codec.encode(RefreshTokenKey, resp.refreshToken).Some?
    ensures var next := RequestCarrying(CookiesOf(Decide(aw, allowedRoles, now, accessToken, refreshToken)));
      GetAccessToken(aw.codec, next) == resp.accessToken && GetRefreshToken(aw.codec, next) == resp.refreshToken
  {
    GrantedRefreshProjections(aw, allowedRoles, now, accessToken, refreshToken, resp);
    ReadAfterWrite(aw.codec, now, resp.accessToken, resp.refreshToken);
  }

  /** A refreshed token that does not parse ends the request with 401; there is no second refresh. */
  lemma ReparseFailureRejects(aw: AuthorizationMiddleware, allowedRoles: seq<string>, now: int, accessToken: string, refreshToken: string, resp: TokenResponse)
    requires NeedsRefresh(aw, accessToken)
    requires aw.uc.refreshReply(refreshToken) == Success(resp)
    requires ParseToken(aw.tm, aw.jwt, resp.accessToken).Failure?
    ensures var trace := Decide(aw, allowedRoles, now, accessToken, refreshToken);
      trace[|trace| - 1] == Rejected && AdmissionsOf(trace) == [] &&
      CallsOf(trace) == [RefreshCall(refreshToken)]
  {
    RefreshedPairReissuedBeforeReparse(aw, allowedRoles, now, accessToken, refreshToken, resp);
    GrantedRefreshProjections(aw, allowedRoles, now, accessToken, refreshToken, resp);
  }

  lemma {:induction false} NoAdmissionBeforeVerdict(trace: seq<Effect>)
    requires forall i :: 0 <= i < |trace| ==> !IsVerdict(trace[i])
    ensures AdmissionsOf(trace) == []
  {
    if trace != [] {
      NoAdmissionBeforeVerdict(trace[1..]);
      CollectCons(AdmissionsIn, trace[0], trace[1..]);
      assert trace == [trace[0]] + trace[1..];
    }
  }

  /** The next handler runs at most once, and exactly when the request is not refused. */
  lemma AdmissionsAreVerdicts(aw: AuthorizationMiddleware, allowedRoles: seq<string>, now: int, accessToken: string, refreshToken: string)
    ensures var trace := Decide(aw, allowedRoles, now, accessToken, refreshToken);
      |AdmissionsOf(trace)| <= 1 &&
      (AdmissionsOf(trace) == [] <==> trace[|trace| - 1] == Rejected) &&
      (AdmissionsOf(trace) != [] ==> trace[|trace| - 1] == Admitted(AdmissionsOf(trace)[0]))
  {
    var trace := Decide(aw, allowedRoles, now, accessToken, refreshToken);
    ExactlyOneVerdict(aw, allowedRoles, now, accessToken, refreshToken);
    assert EndsInOneVerdict(trace);
    var init := trace[..|trace| - 1];
    var last := trace[|trace| - 1];
    assert trace == init + [last];
    NoAdmissionBeforeVerdict(init);
    CollectAppend(AdmissionsIn, init, [last]);
    ProjectionsOne(last);
  }

  /**
   * Admission exactly characterised: the next handler runs, once, iff the
   * token in use (after any refresh) carries role claims, is valid and has
   * an allowed role (any role when the list is empty); and it runs with that
   * token's issuer and role, never the old token's.
   */
  lemma AdmitsExactly(aw: AuthorizationMiddleware, allowedRoles: seq<string>, now: int, accessToken: string, refreshToken: string)
    ensures var t := TokenInUse(aw, accessToken, refreshToken);
      AdmissionsOf(Decide(aw, allowedRoles, now, accessToken, refreshToken)) ==
        if t.Some? && Admissible(t.value, allowedRoles) then [IdentityOf(t.value)] else []
  {
    DecideProjections(aw, allowedRoles, now, accessToken, refreshToken);
  }

  /** After a successful refresh, the identity comes from the new access token. */
  lemma RefreshedIdentityFromNewToken(aw: AuthorizationMiddleware, allowedRoles: seq<string>, now: int, accessToken: string, refreshToken: string, resp: TokenResponse, token: Token)
    requires NeedsRefresh(aw, accessToken)
    requires aw.uc.refreshReply(refreshToken) == Success(resp)
    requires ParseToken(aw.tm, aw.jwt, resp.accessToken) == Success(token)
    ensures AdmissionsOf(Decide(aw, allowedRoles, now, accessToken, refreshToken)) ==
      if Admissible(token, allowedRoles) then [IdentityOf(token)] else []
  {
    GrantedRefreshProjections(aw, allowedRoles, now, accessToken, refreshToken, resp);
  }

  /** Role gating: with a non-empty list, a role outside it is refused even on a valid token. */
  lemma RoleOutsideListRejected(aw: AuthorizationMiddleware, allowedRoles: seq<string>, now: int, accessToken: string, refreshToken: string)
    requires allowedRoles != []
    requires var t := TokenInUse(aw, accessToken, refreshToken);
      t.Some? && t.value.claims.ClaimsWithRole? && t.value.claims.userRoleSlug !in allowedRoles
    ensures var trace := Decide(aw, allowedRoles, now, accessToken, refreshToken);
      AdmissionsOf(trace) == [] && trace[|trace| - 1] == Rejected
  {
    DecideProjections(aw, allowedRoles, now, accessToken, refreshToken);
    AdmissionsAreVerdicts(aw, allowedRoles, now, accessToken, refreshToken);
  }

  /** With an empty list, any role the token manager hands out is admitted, with the token's issuer. */
  lemma AnyRoleWhenListEmpty(aw: AuthorizationMiddleware, now: int, accessToken: string, refreshToken: string)
    requires var t := TokenInUse(aw, accessToken, refreshToken); t.Some? && GetTokenRole(t.value).Success?
    ensures var t := TokenInUse(aw, accessToken, refreshToken).value;
      AdmissionsOf(Decide(aw, [], now, accessToken, refreshToken)) ==
        [Identity(GetTokenIssuer(t).value, GetTokenRole(t).value)]
  {
    DecideProjections(aw, [], now, accessToken, refreshToken);
  }

  /** Cookies are written only after the identity service granted a new pair. */
  lemma CookiesOnlyAfterSuccessfulRefresh(aw: AuthorizationMiddleware, allowedRoles: seq<string>, now: int, accessToken: string, refreshToken: string)
    ensures CookiesOf(Decide(aw, allowedRoles, now, accessToken, refreshToken)) != [] ==>
      NeedsRefresh(aw, accessToken) && aw.uc.refreshReply(refreshToken).Success?
  {
    DecideProjections(aw, allowedRoles, now, accessToken, refreshToken);
  }

  // ---------------------------------------------------------------------
  // The middleware itself
  // ---------------------------------------------------------------------

  /** `getNewTokens`: reads the refresh cookie and makes one RefreshJWT round trip with it, as read. */
  method GetNewTokens(aw: AuthorizationMiddleware, r: Request) returns (res: Result<TokenResponse, RpcError>)
    modifies aw.uc
    ensures aw.uc.sent == old(aw.uc.sent) + [RefreshCall(GetRefreshToken(aw.codec, r))]
    ensures res == NewTokensFrom(aw.uc.refreshReply(GetRefreshToken(aw.codec, r)))
  {
    var refreshToken := GetRefreshToken(aw.codec, r);
    var reply := aw.uc.RefreshJWT(refreshToken);
    res := NewTokensFrom(reply);
  }

  /** The 401 "invalid token" every refusal writes. */
  method Reject(w: ResponseWriter)
    modifies w
    ensures w.status == Settled(old(w.status), StatusUnauthorized)
    ensures w.body == old(w.body) + [Message(InvalidToken)]
    ensures w.cookies == old(w.cookies)
  {
    w.WriteHeader(StatusUnauthorized);
    w.Json(Message(InvalidToken));
  }

  /**
   * The end of `RequireToken` on the token in use: role, allowed list,
   * issuer; the next handler runs with `{userId, userRole}` exactly when the
   * token is admissible, and every other way out is the 401.
   */
  method AdmitOrReject(token: Token, allowedRoles: seq<string>, next: NextHandler, w: ResponseWriter)
    modifies w, next
    ensures Admissible(token, allowedRoles) ==>
      next.served == old(next.served) + [IdentityOf(token)] &&
      w.status == old(w.status) && w.body == old(w.body) && w.cookies == old(w.cookies)
    ensures !Admissible(token, allowedRoles) ==>
      next.served == old(next.served) && w.cookies == old(w.cookies) &&
      w.status == Settled(old(w.status), StatusUnauthorized) && w.body == old(w.body) + [Message(InvalidToken)]
  {
    ClaimAccessorsAgree(token);
    var userRole := GetTokenRole(token);
    if userRole.Failure? {
      Reject(w);
      return;
    }
    if |allowedRoles| > 0 && userRole.value !in allowedRoles {
      Reject(w);
      return;
    }
    var userId := GetTokenIssuer(token);
    if userId.Failure? {
      // The issuer is handed out under the same condition as the role, so this refusal is unreachable.
      assert false;
    }
    next.ServeHTTP(Identity(userId.value, userRole.value));
  }

  /**
   * The refresh branch of `RequireToken`: one round trip, the new pair as
   * cookies, and the re-parse. It gives back the new token, or `None` after
   * writing the 401 when the round trip or the re-parse fails.
   */
  method RefreshAndReparse(aw: AuthorizationMiddleware, now: int, w: ResponseWriter, r: Request) returns (token: Option<Token>)
    modifies w, aw.uc
    ensures aw.uc.sent == old(aw.uc.sent) + [RefreshCall(GetRefreshToken(aw.codec, r))]
    ensures var reply := aw.uc.refreshReply(GetRefreshToken(aw.codec, r));
      && (reply.Failure? ==> w.cookies == old(w.cookies))
      && (reply.Success? ==>
            w.cookies == old(w.cookies) + TokenCookies(aw.codec, now, reply.value.accessToken, reply.value.refreshToken))
      && token == (if reply.Failure? || ParseToken(aw.tm, aw.jwt, reply.value.accessToken).Failure? then None
                   else Some(ParseToken(aw.tm, aw.jwt, reply.value.accessToken).value))
    ensures token.None? ==>
      w.status == Settled(old(w.status), StatusUnauthorized) && w.body == old(w.body) + [Message(InvalidToken)]
    ensures token.Some? ==> w.status == old(w.status) && w.body == old(w.body)
  {
    var newTokens := GetNewTokens(aw, r);
    if newTokens.Failure? {
      Reject(w);
      return None;
    }

    GenerateCookiesFromTokens(aw.codec, now, w, newTokens.value.accessToken, newTokens.value.refreshToken);

    var parsed := ParseToken(aw.tm, aw.jwt, newTokens.value.accessToken);
    if parsed.Failure? {
      Reject(w);
      return None;
    }
    return Some(parsed.value);
  }

  /**
   * The handler `RequireToken(allowedRoles)(next)` serving request `r` on
   * `w` at time `now`, proved to do what `Authorize` describes: the users
   * client sees exactly its refresh calls, the response exactly its
   * reissued cookies, and the next handler exactly its admitted identity;
   * a refusal writes 401 "invalid token", an admission leaves status and
   * body to the next handler.
   */
  method RequireToken(aw: AuthorizationMiddleware, allowedRoles: seq<string>, next: NextHandler, now: int, w: ResponseWriter, r: Request)
    modifies w, aw.uc, next
    ensures aw.uc.sent == old(aw.uc.sent) + CallsOf(Authorize(aw, allowedRoles, now, r))
    ensures w.cookies == old(w.cookies) + CookiesOf(Authorize(aw, allowedRoles, now, r))
    ensures next.served == old(next.served) + AdmissionsOf(Authorize(aw, allowedRoles, now, r))
    ensures AdmissionsOf(Authorize(aw, allowedRoles, now, r)) == [] ==>
      w.status == Settled(old(w.status), StatusUnauthorized) && w.body == old(w.body) + [Message(InvalidToken)]
    ensures AdmissionsOf(Authorize(aw, allowedRoles, now, r)) != [] ==>
      w.status == old(w.status) && w.body == old(w.body)
  {
    ghost var refreshToken := GetRefreshToken(aw.codec, r);

    var tokenString := GetAccessToken(aw.codec, r);
    if |tokenString| == 0 {
      EmptyAccessTokenRejected(aw, allowedRoles, now, refreshToken);
      Reject(w);
      return;
    }

    var parsed := ParseToken(aw.tm, aw.jwt, tokenString);
    var token: Token;
    if parsed.Failure? || !IsTokenValid(parsed.value) {
      ghost var reply := aw.uc.refreshReply(refreshToken);
      if reply.Failure? {
        RefusedRefreshProjections(aw, allowedRoles, now, tokenString, refreshToken);
      } else {
        GrantedRefreshProjections(aw, allowedRoles, now, tokenString, refreshToken, reply.value);
      }
      var refreshed := RefreshAndReparse(aw, now, w, r);
      if refreshed.None? {
        return;
      }
      token := refreshed.value;
    } else {
      GateCaseProjections(aw, allowedRoles, now, tokenString, refreshToken);
      token := parsed.value;
    }

    AdmitOrReject(token, allowedRoles, next, w);
  }
}
