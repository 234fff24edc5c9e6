/** The campus variant of the auth routes: registration restricted to
    "@nec.edu.in" addresses, a login that does not say whether the email or the
    password was wrong, and the /me token check.

    Users are kept in a map keyed by email. bcrypt and jsonwebtoken are foreign:
    the new password hash, the password check and token verification come in
    as parameters, and a session stands for the signed token's claims. */
module NecAuth {
  import opened Common
  import opened Schema
  import AuthGuard

  const CampusDomain: string := "@nec.edu.in"

  datatype RegisterError =
    | FieldsRequired     // 400 "All fields are required"
    | OutsideDomain      // 400 "Registration restricted to NEC domain emails only"
    | EmailTaken         // 409 "Email already registered"

  datatype LoginError =
    | InvalidAdmin        // 401 "Invalid admin credentials"
    | CredentialsRequired // 400 "Email and password required"
    | InvalidCredentials  // 401, for an unknown email and a wrong password alike
    | LoginServerError    // 500: bcrypt throws on a record without a hash

  /** The `user` object sent with a token; its role is what the token claims. */
  datatype Session = Session(id: string, name: string, email: Option<string>, role: string)

  datatype RegisterStep = RegisterStep(reply: Result<Session, RegisterError>, users: map<string, User>)

  datatype Result<T, E> = Success(value: T) | Failure(error: E)

  /** Name, email and password are all present and not whitespace-only. */
  predicate Filled(name: Option<string>, email: Option<string>, password: Option<string>) {
    !Blank(name) && !Blank(email) && !Blank(password)
  }

  /** The address may register: filled in, on the campus domain, not taken. */
  predicate MayRegister(users: map<string, User>, name: Option<string>, email: Option<string>, password: Option<string>) {
    Filled(name, email, password) && EndsWith(email.value, CampusDomain) && email.value !in users
  }

  /** POST /auth/register. A missing or whitespace-only name, email or password
      is 400; then an email that does not end with "@nec.edu.in" (checked on
      the untrimmed text, case-sensitively) is 400; then an email already
      stored is 409. Only then is a user created, always with role "user".
      Refusals write nothing, and no existing record is ever touched. */
  function Register(users: map<string, User>, name: Option<string>, email: Option<string>, password: Option<string>,
                    hashed: string, newId: string): (r: RegisterStep)
    ensures !Filled(name, email, password) ==> r == RegisterStep(Failure(FieldsRequired), users)
    ensures Filled(name, email, password) && !EndsWith(email.value, CampusDomain) ==>
      r == RegisterStep(Failure(OutsideDomain), users)
    ensures Filled(name, email, password) && EndsWith(email.value, CampusDomain) && email.value in users ==>
      r == RegisterStep(Failure(EmailTaken), users)
    ensures r.reply.Failure? ==> r.users == users
    ensures r.reply.Success? <==> MayRegister(users, name, email, password)
    ensures r.reply.Success? ==>
      && r.users.Keys == users.Keys + {email.value}
      && r.users[email.value].role == "user"
      && r.users[email.value].email == email.value
      && r.users[email.value].passwordHash == Some(hashed)
      && r.reply.value == Session(newId, name.value, Some(email.value), "user")
  {
    if !Filled(name, email, password) then RegisterStep(Failure(FieldsRequired), users)
    else if !EndsWith(email.value, CampusDomain) then RegisterStep(Failure(OutsideDomain), users)
    else if email.value in users then RegisterStep(Failure(EmailTaken), users)
    else
      var u := DefaultUser(newId, name.value, email.value).(passwordHash := Some(hashed));
      RegisterStep(Success(Session(newId, name.value, Some(email.value), "user")), users[email.value := u])
  }

  /** Registration only ever adds a record: every stored user stays as it was,
      and the store stays keyed by email. */
  lemma RegisterOnlyAdds(users: map<string, User>, name: Option<string>, email: Option<string>, password: Option<string>,
                         hashed: string, newId: string)
    ensures var r := Register(users, name, email, password, hashed, newId);
      && (KeyedByEmail(users) ==> KeyedByEmail(r.users))
      && forall e :: e in users ==> e in r.users && r.users[e] == users[e]
  {
    if MayRegister(users, name, email, password) {
      var u := DefaultUser(newId, name.value, email.value).(passwordHash := Some(hashed));
      assert Register(users, name, email, password, hashed, newId).users == users[email.value := u];
    }
  }

  /** Registering the same address twice is refused the second time. */
  lemma RegisterTwiceTaken(users: map<string, User>, name: Option<string>, email: Option<string>, password: Option<string>,
                           hashed: string, newId: string, hashed2: string, newId2: string)
    requires Register(users, name, email, password, hashed, newId).reply.Success?
    ensures
      var after := Register(users, name, email, password, hashed, newId).users;
      Register(after, name, email, password, hashed2, newId2) == RegisterStep(Failure(EmailTaken), after)
  {
  }

  /** POST /auth/login. With a truthy `isAdmin` the request signs in as admin
      exactly when username and password equal the configured values (two
      absent values are equal). Otherwise a blank email or password is 400, and
      an unknown email and a wrong password both give the same 401. The token
      always claims role "user" for a non-admin, whatever the stored role. */
  function Login(users: map<string, User>, isAdmin: bool, username: Option<string>, email: Option<string>,
                 password: Option<string>, adminUser: Option<string>, adminPass: Option<string>,
                 matches: (string, string) -> bool): (r: Result<Session, LoginError>)
    ensures isAdmin ==> (r.Success? <==> username == adminUser && password == adminPass)
    ensures isAdmin ==> r == Success(Session("admin", "Admin", None, "admin")) || r == Failure(InvalidAdmin)
    ensures !isAdmin && (Blank(email) || Blank(password)) ==> r == Failure(CredentialsRequired)
    ensures !isAdmin && !Blank(email) && !Blank(password) && email.value !in users ==> r == Failure(InvalidCredentials)
    ensures !isAdmin && !Blank(email) && !Blank(password) && email.value in users && users[email.value].passwordHash.None? ==>
      r == Failure(LoginServerError)
    ensures (!isAdmin && !Blank(email) && !Blank(password) && email.value in users && users[email.value].passwordHash.Some?
      && !matches(password.value, users[email.value].passwordHash.value)) ==> r == Failure(InvalidCredentials)
    ensures !isAdmin ==> (r.Success? <==>
      && !Blank(email) && !Blank(password) && email.value in users
      && users[email.value].passwordHash.Some?
      && matches(password.value, users[email.value].passwordHash.value))
    ensures !isAdmin && r.Success? ==>
      var u := users[email.value];
      r.value == Session(u.id, u.name, Some(u.email), "user")
  {
    if isAdmin then
      if username != adminUser || password != adminPass then Failure(InvalidAdmin)
      else Success(Session("admin", "Admin", None, "admin"))
    else if Blank(email) || Blank(password) then Failure(CredentialsRequired)
    else if email.value !in users then Failure(InvalidCredentials)
    else
      var u := users[email.value];
      if u.passwordHash.None? then Failure(LoginServerError)
      else if !matches(password.value, u.passwordHash.value) then Failure(InvalidCredentials)
      else Success(Session(u.id, u.name, Some(u.email), "user"))
  }

  /** A fresh registration can sign in straight away with the same password,
      and receives the same session it was registered with. */
  lemma RegisterThenLogin(users: map<string, User>, name: Option<string>, email: Option<string>, password: Option<string>,
                          hashed: string, newId: string, adminUser: Option<string>, adminPass: Option<string>,
                          matches: (string, string) -> bool)
    requires Register(users, name, email, password, hashed, newId).reply.Success?
    requires matches(password.value, hashed)
    ensures
      var reg := Register(users, name, email, password, hashed, newId);
      Login(reg.users, false, None, email, password, adminUser, adminPass, matches) == Success(reg.reply.value)
  {
  }

  /** A non-admin login never yields the admin role. */
  lemma UserLoginIsNeverAdmin(users: map<string, User>, username: Option<string>, email: Option<string>,
                              password: Option<string>, adminUser: Option<string>, adminPass: Option<string>,
                              matches: (string, string) -> bool)
    requires Login(users, false, username, email, password, adminUser, adminPass, matches).Success?
    ensures Login(users, false, username, email, password, adminUser, adminPass, matches).value.role == "user"
  {
  }

  datatype MeReply = Payload(claims: AuthGuard.Claims) | NoToken | InvalidToken

  /** GET /auth/me. A missing or empty header is 401 "No token provided"; otherwise the token is the header's
      second space-separated segment (there is no "Bearer" check here), and a
      token that does not verify, or no second segment at all, is 401. */
  function Me(header: Option<string>, verify: string -> Option<AuthGuard.Claims>): (r: MeReply)
    ensures !Truthy(header) ==> r == NoToken
    ensures Truthy(header) && Segment(header.value, ' ', 1).None? ==> r == InvalidToken
    ensures r.Payload? <==> Truthy(header) && Segment(header.value, ' ', 1).Some? && verify(Segment(header.value, ' ', 1).value).Some?
    ensures r.Payload? ==> Some(r.claims) == verify(Segment(header.value, ' ', 1).value)
  {
    if !Truthy(header) then NoToken
    else
      match Segment(header.value, ' ', 1)
      case None => InvalidToken
      case Some(token) =>
        match verify(token)
        case None => InvalidToken
        case Some(c) => Payload(c)
  }

  /** Any header that the server's requireAuth accepts names the same token
      here, so /me and requireAuth agree on which token a request carries. */
  lemma MeAgreesWithRequireAuth(header: Option<string>, verify: string -> Option<AuthGuard.Claims>)
    requires AuthGuard.BearerToken(header).Some?
    ensures Me(header, verify).Payload? <==> verify(AuthGuard.BearerToken(header).value).Some?
  {
  }

  /** The user collection of the campus server, keyed by email. */
  class Accounts {
    var users: map<string, User>

    constructor ()
      ensures users == map[]
    {
      users := map[];
    }

    /** POST /auth/register: the one route that writes. */
    method RegisterUser(name: Option<string>, email: Option<string>, password: Option<string>,
                        hashed: string, newId: string) returns (reply: Result<Session, RegisterError>)
      modifies this
      ensures Register(old(users), name, email, password, hashed, newId) == RegisterStep(reply, users)
    {
      if !Filled(name, email, password) {
        return Failure(FieldsRequired);
      }
      if !EndsWith(email.value, CampusDomain) {
        return Failure(OutsideDomain);
      }
      if email.value in users {
        return Failure(EmailTaken);
      }
      var user := DefaultUser(newId, name.value, email.value);
      user := user.(passwordHash := Some(hashed));
      users := users[email.value := user];
      reply := Success(Session(newId, name.value, Some(email.value), "user"));
    }
  }
}
