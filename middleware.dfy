/** The edge middleware: which paths it runs on, which of those pass without a token, and the
    identity headers it sets for API paths. */
module Middleware {
  import opened Js
  import opened Auth

  const UnprotectedRoutes: seq<string> := ["/api/v1/auth/login", "/login", "/api/auth/"]

  /** What `getToken` settled to: the decoded token or null, or a thrown error. */
  datatype TokenLookup = Decoded(token: Option<Token>) | TokenThrew

  /** Pass the request on with these response headers, redirect to /login, or answer 401. */
  datatype Decision = Next(headers: map<string, string>) | RedirectToLogin | Unauthorized

  /** `Headers.set` stringifies its value, so an absent claim becomes "undefined". */
  function HeaderValue(claim: Option<string>): string {
    if claim.Some? then claim.value else "undefined"
  }

  function IdentityHeaders(token: Token): map<string, string> {
    map["x-user-id" := HeaderValue(token.sub), "x-user-role" := HeaderValue(token.role)]
  }

  function Middleware(pathname: string, lookup: TokenLookup): (d: Decision)
    ensures pathname in UnprotectedRoutes ==> d == Next(map[])
    ensures pathname !in UnprotectedRoutes ==>
      && (lookup.TokenThrew? <==> d == Unauthorized)
      && (lookup == Decoded(None) <==> d == RedirectToLogin)
    ensures pathname !in UnprotectedRoutes && lookup.Decoded? && lookup.token.Some? ==>
      && d.Next?
      && (StartsWith(pathname, "/api") ==> d.headers == IdentityHeaders(lookup.token.value))
      && (!StartsWith(pathname, "/api") ==> d.headers == map[])
  {
    if pathname in UnprotectedRoutes then Next(map[])
    else
      match lookup
      case TokenThrew => Unauthorized
      case Decoded(None) => RedirectToLogin
      case Decoded(Some(token)) =>
        if StartsWith(pathname, "/api") then Next(IdentityHeaders(token)) else Next(map[])
  }

  /** `config.matcher: ["/api/v1/:path*"]`: "/api/v1" itself or any path below it. */
  predicate MatcherApplies(pathname: string) {
    pathname == "/api/v1" || StartsWith(pathname, "/api/v1/")
  }

  /** Of the unprotected routes only the v1 login path ever reaches the middleware; "/login"
      and "/api/auth/" are outside the matcher. */
  lemma OnlyLoginIsBothMatchedAndUnprotected(pathname: string)
    ensures MatcherApplies(pathname) && pathname in UnprotectedRoutes <==> pathname == "/api/v1/auth/login"
  {
    if pathname == "/api/auth/" {
      assert pathname[..8][5] == 'a' != "/api/v1/"[5];
    }
    if pathname == "/api/v1/auth/login" {
      assert pathname[..|"/api/v1/"|] == "/api/v1/";
    }
  }

  /** Every path the matcher selects is an API path, so a decoded token always yields the
      identity headers there. */
  lemma MatchedPathsGetIdentityHeaders(pathname: string, token: Token)
    requires MatcherApplies(pathname) && pathname !in UnprotectedRoutes
    ensures Middleware(pathname, Decoded(Some(token))) == Next(IdentityHeaders(token))
  {
    assert pathname[..4] == "/api";
  }

  /** When the headers set for a signed-in user reach a route handler, the handler sees the
      user's numeric id and role. */
  lemma HeadersRoundTrip(pathname: string, id: int, role: string)
    requires MatcherApplies(pathname) && pathname !in UnprotectedRoutes && role != ""
    ensures var d := Middleware(pathname, Decoded(Some(Token(Some(IntToString(id)), Some(role)))));
      d.Next? && GetAuthenticatedUser(d.headers) == AuthenticatedUser(Int(id), role)
  {
    var token := Token(Some(IntToString(id)), Some(role));
    MatchedPathsGetIdentityHeaders(pathname, token);
    var h := IdentityHeaders(token);
    assert Get(h, "x-user-id") == Some(IntToString(id));
    assert Get(h, "x-user-role") == Some(role);
    ParseIntAutoRadixOfIntToString(id);
  }
}
