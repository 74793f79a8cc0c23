/** The authentication helpers: the caller that the middleware's headers describe, the role
    predicates, and the credential provider's `authorize`, `jwt` and `session` callbacks. */
module Auth {
  import opened Js
  import opened Schema

  /** The caller as a route handler sees it; `role` is whatever string the header held. */
  datatype AuthenticatedUser = AuthenticatedUser(id: JsNumber, role: string)

  /** `getAuthenticatedUser`: the id is `parseInt` (no radix) of `x-user-id` or of "0", the
      role is `x-user-role` or "USER"; an empty header counts as missing. */
  function GetAuthenticatedUser(headers: map<string, string>): (u: AuthenticatedUser)
    ensures !Truthy(Get(headers, "x-user-id")) ==> u.id == Int(0)
    ensures Truthy(Get(headers, "x-user-id")) ==> u.id == ParseIntAutoRadix(headers["x-user-id"])
    ensures !Truthy(Get(headers, "x-user-role")) ==> u.role == "USER"
    ensures Truthy(Get(headers, "x-user-role")) ==> u.role == headers["x-user-role"]
  {
    assert ParseIntAutoRadix("0") == Int(0) by {
      ParseIntAutoRadixOfIntToString(0);
    }
    AuthenticatedUser(
      ParseIntAutoRadix(OrDefault(Get(headers, "x-user-id"), "0")),
      OrDefault(Get(headers, "x-user-role"), "USER"))
  }

  predicate IsAdminRole(role: string) {
    role == "ADMIN" || role == "SUPER_ADMIN"
  }

  predicate IsAdmin(u: AuthenticatedUser) {
    IsAdminRole(u.role)
  }

  predicate IsSuperAdmin(u: AuthenticatedUser) {
    u.role == "SUPER_ADMIN"
  }

  /** The caller counts as an admin exactly when the role header names one of the two admin
      roles, so a missing or empty role header (read as USER) never does; every super admin
      is an admin. */
  lemma AdminIffRoleHeader(headers: map<string, string>)
    ensures var u := GetAuthenticatedUser(headers);
      && (IsAdmin(u) <==> Get(headers, "x-user-role") in {Some(RoleName(Admin)), Some(RoleName(SuperAdmin))})
      && (IsSuperAdmin(u) ==> IsAdmin(u))
  {
  }

  /** The credentials form; `userId` is None when the field is absent. */
  datatype Credentials = Credentials(userId: Option<string>)

  /** The user `authorize` hands to NextAuth: its role and its id as a string. */
  datatype SignedInUser = SignedInUser(role: string, id: string)

  datatype AuthorizeResult = AuthorizeThrew | NoUser | Authorized(user: SignedInUser)

  /** `authorize`: a missing or empty user id throws before any lookup; otherwise the user is
      looked up by `parseInt` of it in `users`, keyed by id, and a failing lookup (`dbOk` false)
      throws as well; a missing user or an empty role gives null. */
  function Authorize(credentials: Option<Credentials>, users: map<int, UserRow>, dbOk: bool)
    : (r: AuthorizeResult)
    ensures credentials.None? || !Truthy(credentials.value.userId) ==> r == AuthorizeThrew
    ensures r.AuthorizeThrew? <==> credentials.None? || !Truthy(credentials.value.userId) || !dbOk
    ensures r.Authorized? ==>
      var id := ParseIntAutoRadix(credentials.value.userId.value);
      && id.Int? && id.value in users
      && r.user == SignedInUser(users[id.value].role, IntToString(users[id.value].id))
    ensures r.NoUser? <==>
      && !r.AuthorizeThrew?
      && var id := ParseIntAutoRadix(credentials.value.userId.value);
         id.NaN? || id.value !in users || users[id.value].role == ""
  {
    if credentials.None? || !Truthy(credentials.value.userId) then AuthorizeThrew
    else if !dbOk then AuthorizeThrew
    else
      var id := ParseIntAutoRadix(credentials.value.userId.value);
      if id.NaN? || id.value !in users then NoUser
      else
        var user := users[id.value];
        if user.role == "" then NoUser else Authorized(SignedInUser(user.role, IntToString(user.id)))
  }

  /** The JWT's claims that the callbacks touch. */
  datatype Token = Token(sub: Option<string>, role: Option<string>)

  /** `jwt`: a sign-in copies the user's id into `sub` and its role; otherwise the token is kept. */
  function Jwt(token: Token, user: Option<SignedInUser>): (t: Token)
    ensures user.None? ==> t == token
    ensures user.Some? ==> t.sub == Some(user.value.id) && t.role == Some(user.value.role)
  {
    if user.Some? then Token(Some(user.value.id), Some(user.value.role)) else token
  }

  datatype SessionUser = SessionUser(id: Option<string>, role: Option<string>)

  /** `session`: a token with a non-empty `sub` overwrites the session user's id and role. */
  function Session(session: SessionUser, token: Token): (s: SessionUser)
    ensures Truthy(token.sub) ==> s.id == token.sub && s.role == token.role
    ensures !Truthy(token.sub) ==> s == session
  {
    if Truthy(token.sub) then SessionUser(token.sub, token.role) else session
  }

  /** Signing in as a stored user with a role puts the user's decimal id and role in the
      session, whatever the token and session held before. */
  lemma SignInReachesSession(credentials: Option<Credentials>, users: map<int, UserRow>,
                             dbOk: bool, token: Token, session: SessionUser)
    requires Authorize(credentials, users, dbOk).Authorized?
    ensures var user := Authorize(credentials, users, dbOk).user;
      && Session(session, Jwt(token, Some(user))) == SessionUser(Some(user.id), Some(user.role))
      && ParseIntAutoRadix(user.id) == Int(users[ParseIntAutoRadix(credentials.value.userId.value).value].id)
  {
    var id := ParseIntAutoRadix(credentials.value.userId.value);
    ParseIntAutoRadixOfIntToString(users[id.value].id);
  }
}
