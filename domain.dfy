/**
 * The request and response records of the gateway's domain package, and the
 * validation rules that the `validate` struct tags of `LoginRequest` and
 * `AddUserRequest` declare (src/domain/users.go).
 */
module Domain {

  /** Body of `POST /users/login`. */
  datatype LoginRequest = LoginRequest(username: string, password: string)

  /** Request for creating a user. */
  datatype AddUserRequest = AddUserRequest(username: string, password: string, role: string, jwtToken: string)

  /** Request body carrying a refresh token. */
  datatype RefreshRequest = RefreshRequest(refreshToken: string)

  datatype Role = Role(id: string, roleLabel: string, roleSlug: string)

  datatype User = User(id: string, username: string, firstName: string, lastName: string, role: Role)

  /** A credential pair as the upstream identity service hands it out, with its owner. */
  datatype TokenResponse = TokenResponse(accessToken: string, refreshToken: string, user: User)

  /** The error the token manager reports for a token whose claims cannot be used. */
  datatype DomainError = ErrInvalidToken

  /** Go's zero values of the two records. */
  const ZeroRole := Role("", "", "")
  const ZeroUser := User("", "", "", "", ZeroRole)

  // ---------------------------------------------------------------------
  // Validation: the tags `required` and `min=n` of the validator library.
  // ---------------------------------------------------------------------

  /** One tag rule: `required` (not the zero value) or `min=n` (at least n characters). */
  datatype Rule = Required | Min(n: nat)

  /** A failed rule, reported under the struct field's name. */
  datatype FieldError = FieldError(field: string, rule: Rule)

  predicate Satisfies(value: string, rule: Rule)
  {
    match rule
    case Required => value != ""
    case Min(n) => |value| >= n
  }

  /**
   * The validator checks a field's rules in tag order and reports the first one
   * that fails, at most one error per field.
   */
  function CheckField(field: string, value: string, rules: seq<Rule>): (errs: seq<FieldError>)
    ensures |errs| <= 1
    ensures errs == [] <==> forall i :: 0 <= i < |rules| ==> Satisfies(value, rules[i])
    ensures errs != [] ==>
      errs[0].field == field &&
      exists k :: 0 <= k < |rules| && errs[0].rule == rules[k] && !Satisfies(value, rules[k]) &&
        forall j :: 0 <= j < k ==> Satisfies(value, rules[j])
  {
    if rules == [] then []
    else if !Satisfies(value, rules[0]) then [FieldError(field, rules[0])]
    else
      var rest := CheckField(field, value, rules[1..]);
      assert forall j :: 1 <= j < |rules| ==> rules[j] == rules[1..][j - 1];
      rest
  }

  /** Tags of `LoginRequest`: `required,min=3` on Username, `required,min=8` on Password. */
  function LoginRequestErrors(req: LoginRequest): (errs: seq<FieldError>)
    ensures |errs| <= 2
    ensures errs == [] <==> ValidLoginRequest(req)
    ensures forall i :: 0 <= i < |errs| ==> errs[i].field == "Username" || errs[i].field == "Password"
  {
    CheckTwoRules("Username", req.username, Required, Min(3));
    CheckTwoRules("Password", req.password, Required, Min(8));
    CheckField("Username", req.username, [Required, Min(3)]) +
    CheckField("Password", req.password, [Required, Min(8)])
  }

  /** Tags of `AddUserRequest`: `required,min=3` twice, then `required` twice. */
  function AddUserRequestErrors(req: AddUserRequest): (errs: seq<FieldError>)
    ensures |errs| <= 4
    ensures errs == [] <==> ValidAddUserRequest(req)
  {
    CheckTwoRules("Username", req.username, Required, Min(3));
    CheckTwoRules("Password", req.password, Required, Min(3));
    CheckOneRule("Role", req.role, Required);
    CheckOneRule("JwtToken", req.jwtToken, Required);
    CheckField("Username", req.username, [Required, Min(3)]) +
    CheckField("Password", req.password, [Required, Min(3)]) +
    CheckField("Role", req.role, [Required]) +
    CheckField("JwtToken", req.jwtToken, [Required])
  }

  /** Two rules are checked left to right. */
  lemma CheckTwoRules(field: string, value: string, a: Rule, b: Rule)
    ensures CheckField(field, value, [a, b]) ==
      if !Satisfies(value, a) then [FieldError(field, a)]
      else if !Satisfies(value, b) then [FieldError(field, b)]
      else []
  {
    assert [a, b][1..] == [b];
    assert [b][1..] == [];
  }

  /** One rule alone. */
  lemma CheckOneRule(field: string, value: string, a: Rule)
    ensures CheckField(field, value, [a]) == if Satisfies(value, a) then [] else [FieldError(field, a)]
  {
    assert [a][1..] == [];
  }

  /** The plain reading of the tags: what a valid login request looks like. */
  predicate ValidLoginRequest(req: LoginRequest)
  {
    req.username != "" && |req.username| >= 3 && req.password != "" && |req.password| >= 8
  }

  predicate ValidAddUserRequest(req: AddUserRequest)
  {
    |req.username| >= 3 && |req.password| >= 3 && req.role != "" && req.jwtToken != ""
  }

  /**
   * For a login request the `min` rules subsume `required`: the validator
   * accepts it exactly when the two lengths are met.
   */
  lemma LoginRequestValidity(req: LoginRequest)
    ensures LoginRequestErrors(req) == [] <==> |req.username| >= 3 && |req.password| >= 8
  {
  }

  /**
   * The two rule sets differ only in the password: a password of 3 to 7
   * characters passes the user-creation rules but not the login rules.
   */
  lemma AddUserPasswordShorterThanLogin(req: AddUserRequest)
    requires ValidAddUserRequest(req) && |req.password| < 8
    ensures AddUserRequestErrors(req) == []
    ensures LoginRequestErrors(LoginRequest(req.username, req.password)) == [FieldError("Password", Min(8))]
  {
    CheckTwoRules("Password", req.password, Required, Min(8));
  }

  /** An empty username is reported as a missing field, before its length. */
  lemma EmptyUsernameIsRequiredError(req: LoginRequest)
    requires req.username == ""
    ensures LoginRequestErrors(req) != []
    ensures LoginRequestErrors(req)[0] == FieldError("Username", Required)
  {
    CheckTwoRules("Username", req.username, Required, Min(3));
  }

  /** A short but present password is reported under its `min=8` rule. */
  lemma ShortPasswordIsMinError(req: LoginRequest)
    requires |req.username| >= 3 && 0 < |req.password| < 8
    ensures LoginRequestErrors(req) == [FieldError("Password", Min(8))]
  {
    CheckTwoRules("Username", req.username, Required, Min(3));
    CheckTwoRules("Password", req.password, Required, Min(8));
  }
}
