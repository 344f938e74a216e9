/**
 * The v1 user handlers (src/handlers/v1/users/users.go): login, logout and
 * refresh are decision trees over the request, the validator and one round
 * trip to the identity service. Credentials travel only in HttpOnly
 * cookies; the JSON bodies of login and refresh carry the user with both
 * tokens blanked.
 *
 * Each handler's outcome is first described as a value (`Outcome`), whose
 * contract states what the handler promises; the handler methods are then
 * proved to write exactly that outcome to the response writer and the
 * users client.
 */
module UsersHandlers {
  import opened Wrappers
  import opened Domain
  import opened Http
  import opened Clients
  import opened Cookies
  import opened SecureCookies
  import Authorization

  /** `UsersHandler`: the users client, the cookie codec and the JSON decoder of the login body. */
  datatype UsersHandler = UsersHandler(uc: UsersClient, codec: Codec, decodeLogin: string -> Option<LoginRequest>)

  const InvalidRequest := "invalid request"
  const InternalError := "internal error"
  const RefreshFailed := "error still don't check what it is (code)"

  /** What one handler call does: the status it writes, its body, its round trips and its cookies. */
  datatype Outcome = Outcome(code: nat, payload: Payload, calls: seq<Rpc>, cookies: seq<Cookie>)

  /** The response body of a successful login or refresh: the user, with both tokens set to "". */
  function Blanked(res: TokenResponse): (b: TokenResponse)
    ensures b.accessToken == "" && b.refreshToken == ""
    ensures b.user == res.user
  {
    res.(accessToken := "", refreshToken := "")
  }

  /** A body never carries a credential: a token response in it has both tokens empty. */
  predicate NoCredentialsIn(p: Payload)
  {
    p.TokenBody? ==> p.tokens.accessToken == "" && p.tokens.refreshToken == ""
  }

  // ---------------------------------------------------------------------
  // Logout
  // ---------------------------------------------------------------------

  /**
   * `Logout`: 400 "invalid token" without a refresh token; otherwise one
   * Logout round trip, 500 "internal error" if it fails, and on success
   * both cookies rewritten with empty values and the service's reply as
   * body.
   */
  function LogoutOutcome(uh: UsersHandler, now: int, r: Request): (o: Outcome)
    ensures var refreshToken := GetRefreshToken(uh.codec, r);
      && (o.code == StatusBadRequest <==> refreshToken == "")
      && (o.code == StatusBadRequest ==> o.calls == [] && o.cookies == [] && o.payload == Message(Authorization.InvalidToken))
      && (o.code != StatusBadRequest ==> o.calls == [LogoutCall(refreshToken)])
      && (o.code == StatusInternalServerError <==> refreshToken != "" && uh.uc.logoutReply(refreshToken).Failure?)
      && (o.code == StatusInternalServerError ==> o.cookies == [] && o.payload == Message(InternalError))
      && (o.code == StatusOK <==> refreshToken != "" && uh.uc.logoutReply(refreshToken).Success?)
      && (o.code == StatusOK ==>
            o.cookies == TokenCookies(uh.codec, now, "", "") &&
            o.payload == TokenBody(uh.uc.logoutReply(refreshToken).value))
  {
    var refreshToken := GetRefreshToken(uh.codec, r);
    if |refreshToken| == 0 then Outcome(StatusBadRequest, Message(Authorization.InvalidToken), [], [])
    else
      match uh.uc.logoutReply(refreshToken)
      case Failure(_) => Outcome(StatusInternalServerError, Message(InternalError), [LogoutCall(refreshToken)], [])
      case Success(response) =>
        Outcome(StatusOK, TokenBody(response), [LogoutCall(refreshToken)], TokenCookies(uh.codec, now, "", ""))
  }

  method Logout(uh: UsersHandler, now: int, w: ResponseWriter, r: Request)
    modifies w, uh.uc
    ensures var o := LogoutOutcome(uh, now, r);
      && w.status == Settled(old(w.status), o.code)
      && w.body == old(w.body) + [o.payload]
      && w.cookies == old(w.cookies) + o.cookies
      && uh.uc.sent == old(uh.uc.sent) + o.calls
  {
    var refreshToken := GetRefreshToken(uh.codec, r);
    if |refreshToken| == 0 {
      w.WriteHeader(StatusBadRequest);
      w.Json(Message(Authorization.InvalidToken));
      return;
    }

    var response := uh.uc.Logout(refreshToken);
    if response.Failure? {
      w.WriteHeader(StatusInternalServerError);
      w.Json(Message(InternalError));
      return;
    }

    GenerateCookiesFromTokens(uh.codec, now, w, "", "");
    w.WriteHeader(StatusOK);
    w.Json(TokenBody(response.value));
  }

  /**
   * A successful logout whose two empty cookies could be encoded clears the
   * session: those cookies replace the ones the client held, so the client
   * reads both tokens as "" and its next protected request is refused at
   * once, with no parse and no refresh.
   */
  lemma LogoutClearsSession(uh: UsersHandler, now: int, r: Request, aw: Authorization.AuthorizationMiddleware, allowedRoles: seq<string>)
    requires DecodeInvertsEncode(uh.codec)
    requires uh.codec.encode(AccessTokenKey, "").Some? && uh.codec.encode(RefreshTokenKey, "").Some?
    requires LogoutOutcome(uh, now, r).code == StatusOK
    requires aw.codec == uh.codec
    ensures var next := RequestCarrying(LogoutOutcome(uh, now, r).cookies);
      GetAccessToken(uh.codec, next) == "" && GetRefreshToken(uh.codec, next) == "" &&
      Authorization.Authorize(aw, allowedRoles, now, next) == [Authorization.Rejected]
  {
    ReadAfterWrite(uh.codec, now, "", "");
    var next := RequestCarrying(LogoutOutcome(uh, now, r).cookies);
    Authorization.EmptyAccessTokenRejected(aw, allowedRoles, now, GetRefreshToken(uh.codec, next));
  }

  /**
   * When the codec cannot encode "", a logout still answers 200 but writes no
   * cookie at all, so the client keeps the credentials it already held.
   */
  lemma LogoutWithoutEncodingKeepsCookies(uh: UsersHandler, now: int, r: Request)
    requires GetRefreshToken(uh.codec, r) != ""
    requires uh.uc.logoutReply(GetRefreshToken(uh.codec, r)).Success?
    requires uh.codec.encode(AccessTokenKey, "").None? && uh.codec.encode(RefreshTokenKey, "").None?
    ensures LogoutOutcome(uh, now, r).code == StatusOK
    ensures LogoutOutcome(uh, now, r).cookies == []
  {
  }

  /** Logout passes the service's reply through as it is: it does not blank the tokens it may carry. */
  lemma LogoutBodyIsUpstreamReply(uh: UsersHandler, now: int, r: Request, response: TokenResponse)
    requires GetRefreshToken(uh.codec, r) != ""
    requires uh.uc.logoutReply(GetRefreshToken(uh.codec, r)) == Success(response)
    ensures LogoutOutcome(uh, now, r).payload == TokenBody(response)
    ensures NoCredentialsIn(LogoutOutcome(uh, now, r).payload) <==> response.accessToken == "" && response.refreshToken == ""
  {
  }

  // ---------------------------------------------------------------------
  // Login
  // ---------------------------------------------------------------------

  /**
   * `Login`: 400 "invalid request" when the body does not decode, 400 with
   * the validation errors when it breaks a tag rule; otherwise one Login
   * round trip, 500 "internal error" if it fails, and on success the
   * returned pair as cookies and the user, tokens blanked, as body.
   */
  function LoginOutcome(uh: UsersHandler, now: int, r: Request): (o: Outcome)
    ensures var request := uh.decodeLogin(r.body);
      && (o.calls != [] <==> request.Some? && ValidLoginRequest(request.value))
      && (o.calls != [] ==> o.calls == [LoginCall(request.value)])
      && (o.code == StatusBadRequest <==> o.calls == [])
      && (o.code == StatusBadRequest ==> o.cookies == [])
      && (request.None? ==> o.payload == Message(InvalidRequest))
      && (request.Some? && !ValidLoginRequest(request.value) ==>
            o.payload == ValidationFailure(LoginRequestErrors(request.value)))
      && (o.calls != [] && uh.uc.loginReply(request.value).Failure? ==>
            o == Outcome(StatusInternalServerError, Message(InternalError), [LoginCall(request.value)], []))
      && (o.code == StatusOK <==> o.calls != [] && uh.uc.loginReply(request.value).Success?)
      && (o.code == StatusOK ==>
            var res := uh.uc.loginReply(request.value).value;
            o.cookies == TokenCookies(uh.codec, now, res.accessToken, res.refreshToken) &&
            o.payload == TokenBody(Blanked(res)))
      && NoCredentialsIn(o.payload)
  {
    match uh.decodeLogin(r.body)
    case None => Outcome(StatusBadRequest, Message(InvalidRequest), [], [])
    case Some(request) =>
      var validationErrors := LoginRequestErrors(request);
      if validationErrors != [] then Outcome(StatusBadRequest, ValidationFailure(validationErrors), [], [])
      else
        match uh.uc.loginReply(request)
        case Failure(_) => Outcome(StatusInternalServerError, Message(InternalError), [LoginCall(request)], [])
        case Success(result) =>
          Outcome(StatusOK, TokenBody(Blanked(result)), [LoginCall(request)],
                  TokenCookies(uh.codec, now, result.accessToken, result.refreshToken))
  }

  method Login(uh: UsersHandler, now: int, w: ResponseWriter, r: Request)
    modifies w, uh.uc
    ensures var o := LoginOutcome(uh, now, r);
      && w.status == Settled(old(w.status), o.code)
      && w.body == old(w.body) + [o.payload]
      && w.cookies == old(w.cookies) + o.cookies
      && uh.uc.sent == old(uh.uc.sent) + o.calls
  {
    var request := uh.decodeLogin(r.body);
    if request.None? {
      w.WriteHeader(StatusBadRequest);
      w.Json(Message(InvalidRequest));
      return;
    }

    var validationErrors := LoginRequestErrors(request.value);
    if validationErrors != [] {
      w.WriteHeader(StatusBadRequest);
      w.Json(ValidationFailure(validationErrors));
      return;
    }

    var result := uh.uc.Login(request.value);
    if result.Failure? {
      w.WriteHeader(StatusInternalServerError);
      w.Json(Message(InternalError));
      return;
    }

    GenerateCookiesFromTokens(uh.codec, now, w, result.value.accessToken, result.value.refreshToken);
    var body := result.value.(accessToken := "", refreshToken := "");
    w.WriteHeader(StatusOK);
    w.Json(TokenBody(body));
  }

  /**
   * After a successful login, with a codec whose decode undoes its encode, the
   * client's next request carries exactly the pair the service issued, while
   * the body showed neither token.
   */
  lemma LoginSessionReadable(uh: UsersHandler, now: int, r: Request, request: LoginRequest, res: TokenResponse)
    requires DecodeInvertsEncode(uh.codec)
    requires uh.decodeLogin(r.body) == Some(request) && ValidLoginRequest(request)
    requires uh.uc.loginReply(request) == Success(res)
    requires uh.codec.encode(AccessTokenKey, res.accessToken).Some?
    requires uh.codec.encode(RefreshTokenKey, res.refreshToken).Some?
    ensures var o := LoginOutcome(uh, now, r);
      var next := RequestCarrying(o.cookies);
      o.code == StatusOK &&
      GetAccessToken(uh.codec, next) == res.accessToken && GetRefreshToken(uh.codec, next) == res.refreshToken &&
      o.payload == TokenBody(TokenResponse("", "", res.user))
  {
    ReadAfterWrite(uh.codec, now, res.accessToken, res.refreshToken);
  }

  // ---------------------------------------------------------------------
  // RefreshJWT
  // ---------------------------------------------------------------------

  /**
   * `RefreshJWT`: 404 "invalid token" without a refresh token; the
   * validator's `required` check on it follows; then one RefreshJWT round
   * trip, 404 with the catch-all message if it fails, and on success the
   * new pair as cookies and the user, tokens blanked, as body.
   */
  function RefreshOutcome(uh: UsersHandler, now: int, r: Request): (o: Outcome)
    ensures var refreshToken := GetRefreshToken(uh.codec, r);
      && o.code != StatusBadRequest
      && (refreshToken == "" ==> o == Outcome(StatusNotFound, Message(Authorization.InvalidToken), [], []))
      && (refreshToken != "" ==> o.calls == [RefreshCall(refreshToken)])
      && (refreshToken != "" && uh.uc.refreshReply(refreshToken).Failure? ==>
            o == Outcome(StatusNotFound, Message(RefreshFailed), [RefreshCall(refreshToken)], []))
      && (o.code == StatusNotFound ==> o.cookies == [])
      && (o.code == StatusOK <==> refreshToken != "" && uh.uc.refreshReply(refreshToken).Success?)
      && (o.code == StatusOK ==>
            var res := uh.uc.refreshReply(refreshToken).value;
            o.cookies == TokenCookies(uh.codec, now, res.accessToken, res.refreshToken) &&
            o.payload == TokenBody(Blanked(res)))
      && NoCredentialsIn(o.payload)
  {
    var refreshToken := GetRefreshToken(uh.codec, r);
    if |refreshToken| == 0 then Outcome(StatusNotFound, Message(Authorization.InvalidToken), [], [])
    else
      var request := RefreshRequest(refreshToken);
      var validationErrors := CheckField("", request.refreshToken, [Required]);
      CheckOneRule("", request.refreshToken, Required);
      if validationErrors != [] then Outcome(StatusBadRequest, ValidationFailure(validationErrors), [], [])
      else
        match uh.uc.refreshReply(request.refreshToken)
        case Failure(_) => Outcome(StatusNotFound, Message(RefreshFailed), [RefreshCall(refreshToken)], [])
        case Success(result) =>
          Outcome(StatusOK, TokenBody(Blanked(result)), [RefreshCall(refreshToken)],
                  TokenCookies(uh.codec, now, result.accessToken, result.refreshToken))
  }

  method RefreshJWT(uh: UsersHandler, now: int, w: ResponseWriter, r: Request)
    modifies w, uh.uc
    ensures var o := RefreshOutcome(uh, now, r);
      && w.status == Settled(old(w.status), o.code)
      && w.body == old(w.body) + [o.payload]
      && w.cookies == old(w.cookies) + o.cookies
      && uh.uc.sent == old(uh.uc.sent) + o.calls
  {
    var refreshToken := GetRefreshToken(uh.codec, r);
    if |refreshToken| == 0 {
      w.WriteHeader(StatusNotFound);
      w.Json(Message(Authorization.InvalidToken));
      return;
    }

    var request := RefreshRequest(refreshToken);
    var validationErrors := CheckField("", request.refreshToken, [Required]);
    CheckOneRule("", request.refreshToken, Required);
    if validationErrors != [] {
      // The token was just found non-empty, so `required` cannot fail here.
      assert false;
    }

    var result := uh.uc.RefreshJWT(request.refreshToken);
    if result.Failure? {
      w.WriteHeader(StatusNotFound);
      w.Json(Message(RefreshFailed));
      return;
    }

    GenerateCookiesFromTokens(uh.codec, now, w, result.value.accessToken, result.value.refreshToken);
    var body := result.value.(accessToken := "", refreshToken := "");
    w.WriteHeader(StatusOK);
    w.Json(TokenBody(body));
  }

  /**
   * Refreshing through the handler and through the middleware issues the
   * same cookies for the same refresh token: both hand the service's pair
   * to the same cookie writer.
   */
  lemma RefreshAgreesWithMiddleware(uh: UsersHandler, now: int, r: Request, aw: Authorization.AuthorizationMiddleware,
                                    allowedRoles: seq<string>, accessToken: string)
    requires aw.codec == uh.codec && aw.uc == uh.uc
    requires Authorization.NeedsRefresh(aw, accessToken)
    requires GetRefreshToken(uh.codec, r) != ""
    ensures var refreshToken := GetRefreshToken(uh.codec, r);
      RefreshOutcome(uh, now, r).cookies ==
        Authorization.CookiesOf(Authorization.Decide(aw, allowedRoles, now, accessToken, refreshToken))
  {
    var refreshToken := GetRefreshToken(uh.codec, r);
    var reply := uh.uc.refreshReply(refreshToken);
    if reply.Failure? {
      Authorization.RefusedRefreshProjections(aw, allowedRoles, now, accessToken, refreshToken);
    } else {
      Authorization.GrantedRefreshProjections(aw, allowedRoles, now, accessToken, refreshToken, reply.value);
    }
  }

  // ---------------------------------------------------------------------
  // AddUser
  // ---------------------------------------------------------------------

  /** The placeholder body of `AddUser`. */
  const HelloWorld := map["hello" := "world"]

  /**
   * `AddUser`: reads the caller's `userId` and `userRole` from the request
   * context (they only reach the log) and answers {"hello": "world"}; the
   * status is the 200 the JSON write commits, unless one was already set.
   */
  method AddUser(w: ResponseWriter, userId: Option<string>, userRole: Option<string>)
    modifies w
    ensures w.body == old(w.body) + [StringMap(HelloWorld)]
    ensures w.status == Settled(old(w.status), StatusOK)
    ensures w.cookies == old(w.cookies)
  {
    var response := map["hello" := "world"];
    w.Json(StringMap(response));
  }
}
