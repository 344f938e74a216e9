/**
 * Translation of the identity service's wire records into the gateway's
 * domain records (src/clients/users/grpc_to_domain_mapper.go). A nil
 * pointer is `None`; a nil nested record becomes the zero value.
 */
module UsersMapper {
  import opened Wrappers
  import opened Domain

  datatype GrpcRole = GrpcRole(id: string, roleLabel: string, roleSlug: string)

  datatype GrpcUser = GrpcUser(id: string, username: string, firstName: string, lastName: string, role: Option<GrpcRole>)

  datatype GrpcTokenResponse = GrpcTokenResponse(accessToken: string, refreshToken: string, user: Option<GrpcUser>)

  /** `mapGrpcUserResponseToDomain`. */
  function MapUser(input: Option<GrpcUser>): (output: Option<User>)
    ensures output.None? <==> input.None?
    ensures input.Some? ==>
      var u, d := input.value, output.value;
      d.id == u.id && d.username == u.username && d.firstName == u.firstName && d.lastName == u.lastName
  {
    match input
    case None => None
    case Some(u) =>
      var role := match u.role
        case None => ZeroRole
        case Some(gr) => Role(gr.id, gr.roleLabel, gr.roleSlug);
      Some(User(u.id, u.username, u.firstName, u.lastName, role))
  }

  /** `mapGrpcTokenResponseToDomain`. */
  function MapTokenResponse(input: Option<GrpcTokenResponse>): (output: Option<TokenResponse>)
    ensures output.None? <==> input.None?
    ensures input.Some? ==>
      output.value.accessToken == input.value.accessToken &&
      output.value.refreshToken == input.value.refreshToken
    ensures input.Some? && input.value.user.Some? ==> output.value.user == MapUser(input.value.user).value
  {
    match input
    case None => None
    case Some(t) =>
      var user := if t.user.Some? then MapUser(t.user).value else ZeroUser;
      Some(TokenResponse(t.accessToken, t.refreshToken, user))
  }

  /** The wire form of a domain user, with its role always present. */
  function UserToGrpc(u: User): GrpcUser
  {
    GrpcUser(u.id, u.username, u.firstName, u.lastName, Some(GrpcRole(u.role.id, u.role.roleLabel, u.role.roleSlug)))
  }

  /** The wire form of a token response, with its user always present. */
  function TokenResponseToGrpc(t: TokenResponse): GrpcTokenResponse
  {
    GrpcTokenResponse(t.accessToken, t.refreshToken, Some(UserToGrpc(t.user)))
  }

  /** Mapping undoes the wire form: every domain user survives the round trip. */
  lemma UserRoundTrip(u: User)
    ensures MapUser(Some(UserToGrpc(u))) == Some(u)
  {
  }

  /** Every token response survives the round trip through its wire form. */
  lemma TokenResponseRoundTrip(t: TokenResponse)
    ensures MapTokenResponse(Some(TokenResponseToGrpc(t))) == Some(t)
  {
    UserRoundTrip(t.user);
  }

  /** A missing role and a present all-empty role map alike; nothing else is lost. */
  lemma MapUserLosesOnlyNilRole(a: GrpcUser, b: GrpcUser)
    ensures MapUser(Some(a)) == MapUser(Some(b)) <==>
      a.id == b.id && a.username == b.username && a.firstName == b.firstName && a.lastName == b.lastName &&
      (a.role == b.role || {a.role, b.role} == {None, Some(GrpcRole("", "", ""))})
  {
  }

  /** A missing user maps to the zero user, not to nil. */
  lemma MissingUserIsZeroUser(accessToken: string, refreshToken: string)
    ensures MapTokenResponse(Some(GrpcTokenResponse(accessToken, refreshToken, None))) ==
      Some(TokenResponse(accessToken, refreshToken, ZeroUser))
  {
  }

  /** A missing role maps to the zero role; a present one is copied field by field. */
  lemma RoleMapping(u: GrpcUser)
    ensures u.role.None? ==> MapUser(Some(u)).value.role == ZeroRole
    ensures u.role.Some? ==>
      MapUser(Some(u)).value.role == Role(u.role.value.id, u.role.value.roleLabel, u.role.value.roleSlug)
  {
  }
}
