/** The server's request guards: `requireAuth`, which turns an Authorization
    header into `req.user`, and `adminOnly`. Token verification (jsonwebtoken)
    and the user lookup (`User.findById`) are foreign calls and come in as
    functions: `verify` answers None where jwt.verify throws, `findById` None
    where no user has that id. */
module AuthGuard {
  import opened Common
  import opened Schema

  /** `req.user` as requireAuth sets it. */
  datatype AuthUser = AuthUser(id: string, role: string, name: string, email: Option<string>)

  /** The payload of a token that verified. */
  datatype Claims = Claims(id: Option<string>, role: Option<string>)

  /** Every failure is answered 401. */
  datatype AuthFailure = NoToken | InvalidTokenUser | AuthenticationFailed

  datatype AuthOutcome = Authenticated(user: AuthUser) | Rejected(failure: AuthFailure)

  const BearerPrefix: string := "Bearer "

  /** A header is accepted only if present and starting with "Bearer "; the
      token is then its second space-separated segment, which always exists. */
  function BearerToken(header: Option<string>): (r: Option<string>)
    ensures r.Some? <==> header.Some? && StartsWith(header.value, BearerPrefix)
    ensures r.Some? ==> Segment(header.value, ' ', 1) == r
  {
    if header.None? || !StartsWith(header.value, BearerPrefix) then None
    else
      var h := header.value;
      assert h == "Bearer" + [' '] + h[7..];
      SplitAfterHead("Bearer", ' ', h[7..]);
      Segment(h, ' ', 1)
  }

  /** A header built as "Bearer " + t, for a token without spaces, yields t back. */
  lemma BearerTokenRoundTrip(t: string)
    requires ' ' !in t
    ensures BearerToken(Some(BearerPrefix + t)) == Some(t)
  {
    var h := BearerPrefix + t;
    assert h == "Bearer" + [' '] + t;
    SplitAfterHead("Bearer", ' ', t);
    SplitWithoutSeparator(t, ' ');
  }

  /** `requireAuth`: a missing or non-Bearer header, a token that does not
      verify, and a non-admin token whose user is not found are all 401. An
      admin token is trusted without a lookup; any other token takes its role
      from the stored user, "user" when that role is empty. */
  function RequireAuth(header: Option<string>, verify: string -> Option<Claims>,
                       findById: string -> Option<User>): (r: AuthOutcome)
    ensures BearerToken(header).None? ==> r == Rejected(NoToken)
    ensures BearerToken(header).Some? && verify(BearerToken(header).value).None? ==>
      r == Rejected(AuthenticationFailed)
    ensures r.Authenticated? ==>
      var c := verify(BearerToken(header).value).value;
      if c.role == Some("admin") then
        r.user == AuthUser(if Truthy(c.id) then c.id.value else "admin", "admin", "Admin", None)
      else
        && c.id.Some? && findById(c.id.value).Some?
        && var u := findById(c.id.value).value;
           r.user == AuthUser(u.id, if u.role == "" then "user" else u.role, u.name, Some(u.email))
    ensures r.Rejected? && BearerToken(header).Some? && verify(BearerToken(header).value).Some? ==>
      var c := verify(BearerToken(header).value).value;
      c.role != Some("admin") && (c.id.None? || findById(c.id.value).None?) && r == Rejected(InvalidTokenUser)
  {
    match BearerToken(header)
    case None => Rejected(NoToken)
    case Some(token) =>
      match verify(token)
      case None => Rejected(AuthenticationFailed)
      case Some(c) =>
        if c.role == Some("admin") then
          Authenticated(AuthUser(if Truthy(c.id) then c.id.value else "admin", "admin", "Admin", None))
        else if c.id.None? then Rejected(InvalidTokenUser)
        else
          match findById(c.id.value)
          case None => Rejected(InvalidTokenUser)
          case Some(u) => Authenticated(AuthUser(u.id, if u.role == "" then "user" else u.role, u.name, Some(u.email)))
  }

  /** `adminOnly`: the request goes on only for role "admin"; otherwise 403. */
  predicate AdminOnly(user: AuthUser) {
    user.role == "admin"
  }

  /** A request gets through requireAuth and adminOnly exactly when its token
      verifies and either claims the admin role or names a stored user whose
      role is "admin". */
  lemma AdminAccess(header: Option<string>, verify: string -> Option<Claims>, findById: string -> Option<User>)
    ensures (RequireAuth(header, verify, findById).Authenticated? && AdminOnly(RequireAuth(header, verify, findById).user))
      <==> && BearerToken(header).Some?
           && verify(BearerToken(header).value).Some?
           && var c := verify(BearerToken(header).value).value;
              c.role == Some("admin")
              || (c.id.Some? && findById(c.id.value).Some? && findById(c.id.value).value.role == "admin")
  {
  }
}
