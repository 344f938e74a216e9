# api-gateway authorization core in Dafny

This project models the request-authorization core of the api-gateway, an HTTP gateway that sits in front of a gRPC identity service. It covers:

- **The authorization middleware** (`RequireToken`, `getNewTokens`). For each protected request it:
  1. reads the access token from its cookie;
  2. parses it with the token manager;
  3. if the token does not parse or is no longer valid, refreshes the credential pair once through the identity service;
  4. writes the new pair back as cookies and re-parses the new access token;
  5. checks the role against the route's allowed list, where an empty list allows any role;
  6. admits the request to the next handler with `{userId, userRole}`.

  Every refusal is a 401 "invalid token".
- **The token manager.** It strips the bearer prefix, reads the refresh-token header, and gives out the role and issuer claims only for a valid token with the gateway's claims type.
- **The two cookie carriers.**
  - The encoded one passes every value through an authenticated codec keyed by the cookie name.
  - The plaintext one writes each value as it is given.

  Both write the access cookie, then the refresh cookie, as HttpOnly cookies on path "/" valid for fourteen days.
- **The gRPC-to-domain mapper.** It translates the identity service's wire records into domain records. A nil record stays nil; a nil nested record becomes the zero value.
- **The v1 user handlers** (`Logout`, `Login`, `RefreshJWT`, `AddUser`). These are status-code decision trees. Tokens go out only in cookies; the JSON bodies of login and refresh carry the user with both tokens blanked.
- **The validation rules** that the `validate` struct tags of `LoginRequest` and `AddUserRequest` declare.

## How the model is built

The model keeps the shape of the Go code.

- **Pure code becomes functions.** This covers the token manager, the cookie readers, the mapper and the validation rules.
- **Code that writes to the response becomes methods** over a `ResponseWriter` class. The class has three fields:
  - `status`: 0 until the first `WriteHeader`; after that, the first written code wins, and a JSON write without a status commits 200;
  - `cookies`: the Set-Cookie list;
  - `body`: the JSON payloads.
- **The users client is a `UsersClient` class.** It records every round trip in `sent`, and the service's replies are fixed functions of the request.
- **The next handler is a `NextHandler` class.** It records the identities it was run with.

Library behaviour is passed in as function-valued parameters:

- the JWT parser (signature and expiry checking);
- the secure-cookie codec;
- the JSON decoder of the login body;
- the identity service's replies.

`Authorization.Decide` describes one request as the ordered list of its effects: parse, refresh round trip, cookie reissue, then one verdict. `RequireToken` is proved to do exactly what that list says, projected onto each object:

- the round trips the users client sees;
- the cookies the response carries;
- the identities the next handler is run with;
- the 401 status and body when nothing is admitted.

The properties of the middleware are lemmas about `Decide`. They are stated against independent descriptions of a request: `NeedsRefresh`, `TokenInUse`, `Admissible` and `AdmittedIdentity`.

Each user handler works the same way. Its outcome is a function (`LogoutOutcome`, `LoginOutcome`, `RefreshOutcome`) whose contract states the handler's promises. The handler method is proved to write exactly that outcome.

Time is the parameter `now`, in Unix seconds.

### Behaviour of the code worth knowing

- **Empty refresh token.** The middleware does not check the refresh token before the round trip. An empty refresh cookie still reaches the identity service as `RefreshJWT("")`. `RefreshAtMostOnce` states this for every refresh token, "" included.
- **One message for every refusal.** Every refusal of the middleware, including a missing access token, carries the message "invalid token".
- **Cookies written separately.** The encoded carrier writes each of the two cookies only if its own encoding succeeds, so one can be written without the other (`SecureCookies.TokenCookies`). In particular, a logout whose empty cookies cannot be encoded answers 200 but writes no cookie, and the client keeps its credentials (`LogoutWithoutEncodingKeepsCookies`).
- **Logout body.** `Logout` sends the identity service's reply back as the body without blanking its tokens (`LogoutBodyIsUpstreamReply`). `Login` and `RefreshJWT` do blank them.
- **Dead validation branch.** In `RefreshJWT` the validator's `required` check comes after the token was already found non-empty, so its 400 branch can never be taken (`RefreshOutcome` ensures the code is never 400).

## Model

| member | source | states |
|---|---|---|
| Domain.CheckField | src/domain/users.go:15-16 | A field's tag rules are checked in order, and at most one error is reported per field: none iff every rule holds, otherwise the first rule that fails. |
| Domain.CheckTwoRules | src/domain/users.go:15 | `required,min=n` on one field reports `required` first, then `min`, then nothing. |
| Domain.CheckOneRule | src/domain/users.go:22-23 | A lone `required` rule reports an error exactly on the empty value. |
| Domain.LoginRequestErrors | src/domain/users.go:14-17 | At most two errors, each under Username or Password; none iff both fields are present, the username has at least 3 characters and the password at least 8. |
| Domain.AddUserRequestErrors | src/domain/users.go:19-24 | At most four errors; none iff username and password have at least 3 characters each and role and token are non-empty. |
| Domain.LoginRequestValidity | src/domain/users.go:14-17 | The `min` rules subsume `required`: a login request is accepted iff the username has at least 3 characters and the password at least 8. |
| Domain.AddUserPasswordShorterThanLogin | src/domain/users.go:16-21 | A password of 3 to 7 characters passes the user-creation rules but is refused by the login rules, with exactly the `min=8` error. |
| Domain.EmptyUsernameIsRequiredError | src/domain/users.go:15 | An empty username is reported under `required`, before its length. |
| Domain.ShortPasswordIsMinError | src/domain/users.go:16 | A present password shorter than 8 characters yields exactly one error, under `min=8`. |
| Tokens.GetJWTTokenFromHeaders | src/tokens/token_manager.go:31-40 | An absent or empty Authorization header gives "". Otherwise the result is the header minus its first seven characters. A non-empty header shorter than seven characters is excluded by the precondition, because Go panics on it. |
| Tokens.BearerRoundTrip | src/tokens/token_manager.go:38 | For every X, the header "Bearer " + X yields exactly X. |
| Tokens.PrefixNotChecked | src/tokens/token_manager.go:38-39 | Any seven characters are stripped as the prefix; "Bearer " is never compared. |
| Tokens.GetRefreshTokenFromHeaders | src/tokens/token_manager.go:43-45 | The canonical `Refresh-Token` header, unchanged, or "" when absent. |
| Tokens.GetTokenIssuer | src/tokens/token_manager.go:48-54 | Success iff the claims are `ClaimsWithRole` and the token is valid; the value is then the issuer claim, otherwise `ErrInvalidToken`. |
| Tokens.GetTokenRole | src/tokens/token_manager.go:57-63 | Success under the same condition, with the role slug as value, otherwise `ErrInvalidToken`. |
| Tokens.IsTokenValid | src/tokens/token_manager.go:66-68 | The stored `Valid` flag and nothing else; as a function it gives the same answer on every call. |
| Tokens.ClaimAccessorsAgree | src/tokens/token_manager.go:48-68 | Role and issuer are handed out together or not at all, and only for a token whose stored `Valid` flag is set. |
| Tokens.KeyFunc | src/tokens/token_manager.go:72-76 | The key callback returns the manager's secret whatever the token. |
| Tokens.ParseToken | src/tokens/token_manager.go:71-77 | The library parse of the string, given the key callback `KeyFunc` of the manager's secret, which answers that secret for every token. |
| Tokens.AdminScenario | src/tokens/token_manager.go:48-68 | A valid admin token for "u1" yields role "admin" and issuer "u1". The same token once expired yields `ErrInvalidToken` for both. |
| Cookies.CookieExpiresInFourteenDays | src/cookies/cookie_setters.go:16-26 | Every cookie expires 1209600 seconds (14 days) after it is written and is HttpOnly on path "/". |
| SecureCookies.GetCookieValue | src/cookies/cookies.go:34-44 | "" when the named cookie is absent or the codec rejects its text. When the first cookie with that name decodes under that name, the result is the decoded value; never the raw text. |
| SecureCookies.GetAccessToken | src/cookies/cookies.go:25-27 | The "access-token" cookie decoded under the name "access-token", or "" when it is absent or rejected. |
| SecureCookies.GetRefreshToken | src/cookies/cookies.go:29-31 | The "refresh-token" cookie decoded under the name "refresh-token", or "" when it is absent or rejected. |
| SecureCookies.EncodeCookieValue | src/cookies/cookies.go:47-49 | Fails iff the codec fails on the cookie's name and value; with an inverting codec, the encoding decodes under the same name to the value. |
| SecureCookies.EncodedCookie | src/cookies/cookies.go:52-68 | At most one cookie is written: none iff encoding fails, otherwise an HttpOnly cookie under the setting's name holding the encoded value. |
| SecureCookies.EncodedCookies | src/cookies/cookies.go:73-77 | At most one cookie per setting. |
| SecureCookies.EncodedCookiesSingle | src/cookies/cookies.go:52-77 | No settings write nothing; a single setting writes exactly its own `EncodedCookie`: one cookie if its encoding succeeds, none if it fails. |
| SecureCookies.EncodedCookiesAppend | src/cookies/cookies.go:73-77 | The settings are written in order and each independently: the cookies for `a + b` are those for `a` followed by those for `b`. With `EncodedCookiesSingle`, the cookies for any list are the concatenation of each setting's own `EncodedCookie`, in list order, so a failed encoding skips only its own cookie. |
| SecureCookies.TokenCookies | src/cookies/cookies.go:80-93 | The access cookie, then the refresh cookie, each skipped on its own if its encoding fails. |
| SecureCookies.EncodedCookiesAreEncoded | src/cookies/cookies.go:52-77 | Every cookie written is HttpOnly on path "/", expires 14 days on, and holds what the codec produced for one of the settings under that setting's name. One cookie per setting when every encoding succeeds; none when every encoding fails. |
| SecureCookies.ReadAfterWrite | src/cookies/cookies.go:25-68 | With a codec whose decode undoes its encode, a client holding the written cookies reads back exactly the access and refresh tokens ("" for a cookie whose encoding failed). |
| SecureCookies.RejectedCookieReadsEmpty | src/cookies/cookies.go:38-43 | A cookie whose text the codec rejects reads as "". |
| SecureCookies.SetUpHttpOnly | src/cookies/cookies.go:52-68 | Appends exactly `EncodedCookie` to the response and changes nothing else. |
| SecureCookies.SetUpAllHttpOnly | src/cookies/cookies.go:73-77 | Appends exactly `EncodedCookies` (loop invariant) and changes nothing else; by `EncodedCookiesAppend` that is each setting's own encoded cookie, in order. |
| SecureCookies.GenerateCookiesFromTokens | src/cookies/cookies.go:80-93 | Appends exactly `TokenCookies` for the pair. |
| PlainCookies.HttpOnlyCookies | src/cookies/cookie_setters.go:29-33 | One cookie per setting, in order, holding its name and value as given. |
| PlainCookies.TokenPairWritten | src/cookies/cookie_setters.go:36-49 | A pair becomes exactly two cookies: "access-token" then "refresh-token", holding the tokens as given. ("", "") writes two empty cookies. |
| PlainCookies.SetUpHttpOnly | src/cookies/cookie_setters.go:16-26 | Appends exactly one HttpOnly cookie with the given name and value and changes nothing else. |
| PlainCookies.SetUpAllHttpOnly | src/cookies/cookie_setters.go:29-33 | Appends one cookie per setting in order (loop invariant) and nothing else. |
| PlainCookies.GenerateCookiesFromTokens | src/cookies/cookie_setters.go:36-49 | Appends exactly the access cookie, then the refresh cookie. |
| UsersMapper.MapUser | src/clients/users/grpc_to_domain_mapper.go:25-45 | Nil maps to nil. Otherwise id, username, first and last name are copied. |
| UsersMapper.RoleMapping | src/clients/users/grpc_to_domain_mapper.go:35-43 | A nil role maps to the zero role; a present one is copied field by field. |
| UsersMapper.MapTokenResponse | src/clients/users/grpc_to_domain_mapper.go:8-23 | Nil maps to nil. Otherwise the result is present, its access and refresh tokens equal the input's, and a present user is the one `MapUser` gives for it. |
| UsersMapper.MissingUserIsZeroUser | src/clients/users/grpc_to_domain_mapper.go:13-16 | A response without a user maps to one with the zero user. |
| UsersMapper.UserRoundTrip | src/clients/users/grpc_to_domain_mapper.go:25-45 | Every domain user survives mapping from its wire form. |
| UsersMapper.TokenResponseRoundTrip | src/clients/users/grpc_to_domain_mapper.go:8-23 | Every token response survives mapping from its wire form. |
| UsersMapper.MapUserLosesOnlyNilRole | src/clients/users/grpc_to_domain_mapper.go:30-43 | Two users map alike iff their copied fields agree and their roles are equal or are nil and all-empty. |
| Clients.UsersClient.RefreshJWT | src/domain/users.go:31 | One round trip, recorded with the refresh token sent; the reply is the service's answer to that token. |
| Clients.UsersClient.Login | src/domain/users.go:30 | One round trip, recorded with the login request sent. |
| Clients.UsersClient.Logout | src/domain/users.go:29 | One round trip, recorded with the refresh token sent. |
| Authorization.Decide | src/middlewares/authorization.go:38-94 | The effects of one request given its two cookie reads: a lone refusal iff there is no access token; otherwise the first effect is the parse of that token. |
| Authorization.Authorize | src/middlewares/authorization.go:36-98 | `Decide` on the request's access and refresh cookies: refused at once iff the access cookie reads as "", otherwise beginning with its parse. |
| Authorization.NewTokensFrom | src/middlewares/authorization.go:108-116 | Success iff the round trip succeeded, carrying the service's access and refresh tokens; otherwise the service's error. |
| Authorization.GetNewTokens | src/middlewares/authorization.go:101-117 | Exactly one `RefreshJWT` with the refresh cookie as read, "" included; the result is `NewTokensFrom` of the reply. |
| Authorization.NextHandler.ServeHTTP | src/middlewares/authorization.go:93 | Records one run with the identity given. |
| Authorization.Reject | src/middlewares/authorization.go:41-44 | Writes status 401 (unless one was already written) and the body "invalid token"; no cookie. |
| Authorization.AdmitOrReject | src/middlewares/authorization.go:68-93 | Runs the next handler once, with `{issuer, role}`, iff the token is admissible, and otherwise writes the 401. |
| Authorization.RefreshAndReparse | src/middlewares/authorization.go:47-66 | Exactly one round trip. On success the new pair's cookies are written, and the result is the re-parsed new token, or the 401 if it does not parse. On failure there is no cookie and the 401 is written. |
| Authorization.RequireToken | src/middlewares/authorization.go:36-98 | The round trips, cookies and next-handler runs are exactly those `Authorize` describes for the request. The 401 "invalid token" is written iff nothing is admitted; otherwise status and body are left to the next handler. |
| Authorization.GateVerdict | src/middlewares/authorization.go:68-93 | The role and issuer checks admit with `{issuer, role}` exactly the admissible tokens and reject all others. |
| Authorization.AfterParseVerdict | src/middlewares/authorization.go:59-93 | After a parse there is one verdict and no round trip, cookie or further parse. The request is admitted iff the parse succeeded and the token is admissible. |
| Authorization.TokenInUseAfterRefresh | src/middlewares/authorization.go:47-66 | In the refresh branch the token in use is the re-parsed new access token, if the round trip and the parse succeed. |
| Authorization.GateCaseProjections | src/middlewares/authorization.go:47-93 | A usable first token: one parse, no round trip, no cookie; admitted iff admissible. |
| Authorization.RefusedRefreshProjections | src/middlewares/authorization.go:47-55 | A refused refresh: parse, round trip, 401, and nothing more. |
| Authorization.GrantedRefreshProjections | src/middlewares/authorization.go:47-93 | A granted refresh: one round trip, the new pair's cookies, both parses, and a verdict on the new token. |
| Authorization.DecideProjections | src/middlewares/authorization.go:36-98 | In every case: a round trip iff the token needs refresh; cookies iff that round trip succeeded; the parses made; the admitted identity is `AdmittedIdentity`. |
| Authorization.ExactlyOneVerdict | src/middlewares/authorization.go:38-94 | Every request ends in exactly one verdict, as its last effect. |
| Authorization.RefreshEndsInOneVerdict | src/middlewares/authorization.go:47-93 | The refresh branch ends in exactly one verdict. |
| Authorization.EmptyAccessTokenRejected | src/middlewares/authorization.go:39-45 | No access token: refused at once, with no parse, round trip, cookie or admission. |
| Authorization.RefreshAtMostOnce | src/middlewares/authorization.go:47-66 | At most one round trip per request, exactly when the token is present but unusable. It carries the refresh cookie as read, even "". |
| Authorization.FailedRefreshRejects | src/middlewares/authorization.go:49-55 | A refused refresh ends in 401 with no cookie and no admission. |
| Authorization.RefreshedPairReissuedBeforeReparse | src/middlewares/authorization.go:57-59 | After a granted refresh, the cookies of exactly the returned pair are written before the new token is parsed, and the verdict follows. |
| Authorization.ReissuedCookiesCarryNewPair | src/middlewares/authorization.go:57 | With an inverting codec, the next request reads back exactly the pair the service returned. |
| Authorization.ReparseFailureRejects | src/middlewares/authorization.go:59-65 | A new token that does not parse ends in 401, with no second round trip. |
| Authorization.AdmissionsAreVerdicts | src/middlewares/authorization.go:68-93 | The next handler runs at most once, and iff the request is not refused. |
| Authorization.AdmitsExactly | src/middlewares/authorization.go:66-93 | Admitted iff the token in use, after any refresh, is admissible; the identity comes from that token. |
| Authorization.RefreshedIdentityFromNewToken | src/middlewares/authorization.go:59-93 | After a refresh, the identity comes from the new access token, never the old one. |
| Authorization.RoleOutsideListRejected | src/middlewares/authorization.go:76-80 | With a non-empty list, a role outside it is refused, even on a valid token. |
| Authorization.AnyRoleWhenListEmpty | src/middlewares/authorization.go:76-91 | With an empty list, any extractable role is admitted, with the token's issuer. |
| Authorization.CookiesOnlyAfterSuccessfulRefresh | src/middlewares/authorization.go:49-57 | Cookies are written only after the service granted a new pair. |
| UsersHandlers.Blanked | src/handlers/v1/users/users.go:91-92 | Both tokens are cleared and the user is kept. |
| UsersHandlers.LogoutOutcome | src/handlers/v1/users/users.go:35-58 | 400 iff there is no refresh token; then no call and no cookie. 500 iff the call fails; then no cookie. 200 iff the call succeeds; then both cookies are rewritten empty and the body is the reply. |
| UsersHandlers.Logout | src/handlers/v1/users/users.go:35-58 | Writes exactly `LogoutOutcome`'s status, body, cookies and round trips. |
| UsersHandlers.LogoutClearsSession | src/handlers/v1/users/users.go:54-57 | After a successful logout whose empty cookies could be encoded, the client reads both tokens as "" and its next protected request is refused at once. |
| UsersHandlers.LogoutWithoutEncodingKeepsCookies | src/handlers/v1/users/users.go:54-57 | When the codec cannot encode "", a successful logout still answers 200 but writes no cookie. |
| UsersHandlers.LogoutBodyIsUpstreamReply | src/handlers/v1/users/users.go:56-57 | The logout body is the service's reply, unblanked. |
| UsersHandlers.LoginOutcome | src/handlers/v1/users/users.go:60-97 | A call is made iff the body decodes and is valid. Otherwise the answer is 400, with "invalid request" or the validation errors. A failed call gives exactly 500 "internal error" with no cookie. On 200 the cookies hold the service's pair and the body is the user with tokens blanked. No body carries a credential. |
| UsersHandlers.Login | src/handlers/v1/users/users.go:60-97 | Writes exactly `LoginOutcome`'s status, body, cookies and round trips. |
| UsersHandlers.LoginSessionReadable | src/handlers/v1/users/users.go:89-95 | After a login, the client reads back the issued pair from its cookies, and the body shows neither token. |
| UsersHandlers.RefreshOutcome | src/handlers/v1/users/users.go:99-137 | With no refresh token: 404 with no call. Otherwise one call; its failure gives exactly 404 with the catch-all message and no cookie. On 200 the new pair is in the cookies and the body is blanked. Never 400. |
| UsersHandlers.RefreshJWT | src/handlers/v1/users/users.go:99-137 | Writes exactly `RefreshOutcome`'s status, body, cookies and round trips. |
| UsersHandlers.RefreshAgreesWithMiddleware | src/handlers/v1/users/users.go:122-130 | The handler and the middleware issue the same cookies for the same upstream reply. This holds because the reply is one fixed function of the refresh token (see "## Left out"). |
| UsersHandlers.AddUser | src/handlers/v1/users/users.go:139-153 | Answers {"hello": "world"} with 200 (unless a status was set) whatever the context values, and writes no cookie. |

## Left out

- **net/http internals.** Header canonicalisation and the parsing of the Cookie header are not modelled. A request holds its headers by canonical name and its cookies as a list in header order.
- **Cookie attributes.** Only name, value, HttpOnly, path and expiry are modelled.
- Http.ResponseWriter.SetCookie: the sanitisation `http.SetCookie` applies is not modelled (it drops bytes not allowed in a cookie value such as `"`, `;`, `\`, control and non-ASCII bytes, quotes a value holding a space or comma, and drops a cookie with an invalid name). Cookies are appended as given, so the model agrees with Go only for names and values made of allowed cookie bytes; "as given" in the rows above means before that sanitisation.
- **The 2-second timeout** in `getNewTokens` and context cancellation are not modelled as such. A refresh that outlasts the deadline or is cancelled returns an error, and it reaches the model as a failed `refreshReply`; the middleware then refuses with 401 "invalid token".
- **Logging.** It has no effect on any response.
- **State of the identity service.** Its replies are fixed functions of the request. The real service is stateful: a refresh token that was revoked or rotated succeeds once and fails later. The model cannot express a reply that changes between calls; within one request this does not matter, because each request makes at most one call of each kind.
- **A nil reply with a nil error** from the gRPC client. The users client always answers with a pair or an error.
- **JSON encoding of bodies.** A body is the value handed to the JSON helper, not its bytes.
- **The validator's error text.** A validation failure is the list of failed field rules; the formatted error string is not modelled.
- **Wall-clock time.** `time.Now()` is the parameter `now`, in seconds.
- **The next handler's own writes.** After an admission, what the next handler writes to the response is not modelled.
- **Which carrier the handlers use.** The handlers and the middleware use the encoded carrier. The program's start-up code chooses the carrier, and it is not part of this model.
- **Parts of the program outside the core.** This covers process start-up and shutdown, the HTTP server and router, the gRPC client and API service wrappers, and the older `src/handlers/users.go`. None of these is part of this model.
- **Libraries.** Signature and expiry checking inside the JWT library, the secure-cookie cryptography and the JSON decoder are function-valued parameters. `helpers.InArray` is sequence membership.
- Tokens.GetJWTTokenFromHeaders: the Go panic on a short non-empty Authorization header is a precondition, not a modelled failure. Go measures and slices the header in bytes, while the model counts characters; the two agree on ASCII headers only. For a header with non-ASCII characters the model strips seven characters where Go strips seven bytes, and its precondition refuses headers of at least seven bytes but fewer than seven characters, which Go accepts.
