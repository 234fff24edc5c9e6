/** The client's route guard: what is read back from browser storage, and
    whether a route renders its children or sends the visitor home. JSON
    parsing is foreign and comes in as a function that answers None where
    JSON.parse throws or yields a falsy value. */
module ProtectedRoute {
  import opened Common

  /** The stored user object, as far as the guard looks at it. */
  datatype StoredUser = StoredUser(role: Option<string>)

  /** `getAuth()`: the stored token and the parsed stored user. */
  datatype StoredAuth = StoredAuth(token: Option<string>, user: Option<StoredUser>)

  datatype Decision = RedirectHome | RenderChildren

  /** An empty or absent user entry is not parsed at all; one that does not
      parse is swallowed and read as no user. */
  function GetAuth(token: Option<string>, userText: Option<string>, parse: string -> Option<StoredUser>): (r: StoredAuth)
    ensures r.token == token
    ensures r.user.Some? <==> Truthy(userText) && parse(userText.value).Some?
    ensures r.user.Some? ==> r.user == parse(userText.value)
  {
    StoredAuth(token, if Truthy(userText) then parse(userText.value) else None)
  }

  /** The guard renders its children exactly when there is a non-empty token
      and a user, and, when a role list is given, the user's role is in it.
      An empty role list (still truthy) admits nobody. */
  function Guard(auth: StoredAuth, roles: Option<seq<string>>): (d: Decision)
    ensures d == RenderChildren <==>
      && Truthy(auth.token) && auth.user.Some?
      && (roles.Some? ==> auth.user.value.role.Some? && auth.user.value.role.value in roles.value)
    ensures roles.None? && Truthy(auth.token) && auth.user.Some? ==> d == RenderChildren
    ensures roles == Some([]) ==> d == RedirectHome
  {
    if !Truthy(auth.token) || auth.user.None? then RedirectHome
    else if roles.Some? && !(auth.user.value.role.Some? && auth.user.value.role.value in roles.value) then RedirectHome
    else RenderChildren
  }

  /** A user entry that does not parse behaves exactly like a logged-out
      visitor, whatever the token and the roles. */
  lemma MalformedUserIsLoggedOut(token: Option<string>, userText: string, parse: string -> Option<StoredUser>,
                                 roles: Option<seq<string>>)
    requires parse(userText).None?
    ensures Guard(GetAuth(token, Some(userText), parse), roles) == RedirectHome
    ensures Guard(GetAuth(token, Some(userText), parse), roles) == Guard(StoredAuth(token, None), roles)
  {
  }
}
