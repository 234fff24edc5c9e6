/** The OTP account flow of the server's /auth routes: send-otp creates or
    refreshes an unverified account and its one-time code, verify-otp turns
    `verified` on exactly once, and login opens a session for a verified user
    or for the configured admin.

    The user collection is a map keyed by email (the schema makes email unique).
    bcrypt, jsonwebtoken, Math.random, the clock and the mailer are foreign:
    the password hash, the code's random draw, the current time in
    milliseconds, whether the mail went out and the password check all come in
    as parameters, and a session stands for the signed token's claims. */
module OtpAuth {
  import opened Common
  import opened Schema

  /** The code's random part: `Math.floor(Math.random() * 900000)`. */
  type OtpDraw = d: int | 0 <= d < 900000

  /** Ten minutes, in milliseconds. */
  const OtpLifetime: nat := 10 * 60 * 1000

  datatype AuthError =
    | MissingFields            // 400 "All fields are required"
    | AlreadyRegistered        // 400 "User already registered"
    | UserNotFound             // 404
    | AlreadyVerified          // 400 "User already verified"
    | InvalidOtp               // 400
    | OtpExpired               // 400
    | NotVerified              // 400 "Please verify your email first"
    | InvalidPassword          // 400
    | InvalidAdminCredentials  // 401
    | ServerError              // 500

  /** What a token is signed for, and the `user` object sent along with it. */
  datatype Session = Session(id: string, name: string, email: Option<string>, role: string)

  datatype AuthReply = OtpSent | SignedIn(session: Session) | Refused(error: AuthError)

  /** A route's answer with the user collection it leaves behind. */
  datatype AccountStep = AccountStep(reply: AuthReply, users: map<string, User>)

  /** The six-digit code: `Math.floor(100000 + Math.random() * 900000)`. */
  function GenerateOtp(draw: OtpDraw): (otp: int)
    ensures 100000 <= otp <= 999999
  {
    100000 + draw
  }

  /** `String(user.otp)`: the stored code as text, "null" when there is none. */
  function OtpText(otp: Option<int>): string {
    if otp.None? then "null" else IntToString(otp.value)
  }

  /** Records that were verified stay in the collection exactly as they were. */
  predicate VerifiedRecordsKept(before: map<string, User>, after: map<string, User>) {
    forall e :: e in before && before[e].verified ==> e in after && after[e] == before[e]
  }

  /** POST /auth/send-otp. A falsy name, email or password is 400 and writes
      nothing; an email whose user is verified is 400 and writes nothing.
      Otherwise the email ends up with one unverified record carrying the new
      hash, the new code and an expiry ten minutes from now; an existing
      unverified record keeps its id and name. The record is saved before the
      mail is sent, so a mail failure (500) still leaves it written. */
  function SendOtpStep(users: map<string, User>, name: Option<string>, email: Option<string>, password: Option<string>,
                       hashed: string, draw: OtpDraw, now: nat, newId: string, mailSent: bool): (r: AccountStep)
    ensures !Truthy(name) || !Truthy(email) || !Truthy(password) ==> r == AccountStep(Refused(MissingFields), users)
    ensures Truthy(name) && Truthy(email) && Truthy(password) && email.value in users && users[email.value].verified ==>
      r == AccountStep(Refused(AlreadyRegistered), users)
    ensures r.users != users ==> Truthy(name) && Truthy(email) && Truthy(password)
    ensures Truthy(name) && Truthy(email) && Truthy(password) && !(email.value in users && users[email.value].verified) ==>
      && var e := email.value;
      && r.users.Keys == users.Keys + {e}
      && (forall k :: k in users && k != e ==> r.users[k] == users[k])
      && !r.users[e].verified && r.users[e].email == (if e in users then users[e].email else e)
      && r.users[e].passwordHash == Some(hashed)
      && r.users[e].otp == Some(GenerateOtp(draw))
      && r.users[e].otpExpiresAt == Some(now + OtpLifetime)
      && r.users[e].role == (if e in users then users[e].role else "user")
      && r.users[e].name == (if e in users then users[e].name else name.value)
      && r.users[e].id == (if e in users then users[e].id else newId)
    ensures r.reply == OtpSent <==>
      (Truthy(name) && Truthy(email) && Truthy(password) && (email.value !in users || !users[email.value].verified) && mailSent)
    ensures (Truthy(name) && Truthy(email) && Truthy(password) && !(email.value in users && users[email.value].verified)
      && !mailSent) ==> r.reply == Refused(ServerError)
    ensures KeyedByEmail(users) ==> KeyedByEmail(r.users)
    ensures VerifiedRecordsKept(users, r.users)
  {
    if !Truthy(name) || !Truthy(email) || !Truthy(password) then AccountStep(Refused(MissingFields), users)
    else
      var e := email.value;
      if e in users && users[e].verified then AccountStep(Refused(AlreadyRegistered), users)
      else
        var otp := GenerateOtp(draw);
        var expiry := now + OtpLifetime;
        var u :=
          if e !in users then DefaultUser(newId, name.value, e).(passwordHash := Some(hashed), otp := Some(otp), otpExpiresAt := Some(expiry))
          else users[e].(passwordHash := Some(hashed), otp := Some(otp), otpExpiresAt := Some(expiry));
        AccountStep(if mailSent then OtpSent else Refused(ServerError), users[e := u])
  }

  /** POST /auth/verify-otp. The checks run in this order: unknown email 404,
      already verified 400, a code whose text differs from the stored code's
      text 400, a clock past the expiry 400 (a missing expiry counts as time
      zero; a clock exactly at the expiry still passes). Success turns
      `verified` on, clears the code and its expiry, and signs the user in. */
  function VerifyOtpStep(users: map<string, User>, email: string, submitted: string, now: nat): (r: AccountStep)
    ensures email !in users ==> r == AccountStep(Refused(UserNotFound), users)
    ensures email in users && users[email].verified ==> r == AccountStep(Refused(AlreadyVerified), users)
    ensures email in users && !users[email].verified && OtpText(users[email].otp) != submitted ==>
      r == AccountStep(Refused(InvalidOtp), users)
    ensures (email in users && !users[email].verified && OtpText(users[email].otp) == submitted
      && now > users[email].otpExpiresAt.GetOr(0)) ==> r == AccountStep(Refused(OtpExpired), users)
    ensures r.reply.SignedIn? <==>
      && email in users && !users[email].verified
      && OtpText(users[email].otp) == submitted
      && now <= users[email].otpExpiresAt.GetOr(0)
    ensures !r.reply.SignedIn? ==> r.users == users
    ensures r.reply.SignedIn? ==>
      && r.users == users[email := users[email].(verified := true, otp := None, otpExpiresAt := None)]
      && r.reply.session == Session(users[email].id, users[email].name, Some(users[email].email), users[email].role)
    ensures KeyedByEmail(users) ==> KeyedByEmail(r.users)
    ensures VerifiedRecordsKept(users, r.users)
  {
    if email !in users then AccountStep(Refused(UserNotFound), users)
    else
      var u := users[email];
      if u.verified then AccountStep(Refused(AlreadyVerified), users)
      else if OtpText(u.otp) != submitted then AccountStep(Refused(InvalidOtp), users)
      else if now > u.otpExpiresAt.GetOr(0) then AccountStep(Refused(OtpExpired), users)
      else
        var u' := u.(verified := true, otp := None, otpExpiresAt := None);
        AccountStep(SignedIn(Session(u.id, u.name, Some(u.email), u.role)), users[email := u'])
  }

  /** The code a fresh send-otp stores is accepted by an immediate verify, up to
      and including the last millisecond of its ten minutes. */
  lemma SentCodeVerifies(users: map<string, User>, name: string, email: string, password: string,
                         hashed: string, draw: OtpDraw, now: nat, newId: string, mailSent: bool, later: nat)
    requires name != "" && email != "" && password != ""
    requires email !in users || !users[email].verified
    requires now <= later <= now + OtpLifetime
    ensures
      var sent := SendOtpStep(users, Some(name), Some(email), Some(password), hashed, draw, now, newId, mailSent);
      VerifyOtpStep(sent.users, email, NatToString(GenerateOtp(draw)), later).reply.SignedIn?
  {
    var sent := SendOtpStep(users, Some(name), Some(email), Some(password), hashed, draw, now, newId, mailSent);
    assert sent.users[email].otp == Some(GenerateOtp(draw));
  }

  /** A code can be used once: after a successful verify, verifying again is
      "User already verified" and changes nothing. */
  lemma SecondVerifyFails(users: map<string, User>, email: string, submitted: string, now: nat,
                          submitted2: string, now2: nat)
    requires VerifyOtpStep(users, email, submitted, now).reply.SignedIn?
    ensures
      var first := VerifyOtpStep(users, email, submitted, now).users;
      VerifyOtpStep(first, email, submitted2, now2) == AccountStep(Refused(AlreadyVerified), first)
  {
  }

  /** A state-changing request of this flow. */
  datatype AccountRequest =
    | SendOtp(name: Option<string>, email: Option<string>, password: Option<string>,
              hashed: string, draw: OtpDraw, now: nat, newId: string, mailSent: bool)
    | VerifyOtp(account: string, submitted: string, now: nat)

  function Apply(users: map<string, User>, q: AccountRequest): map<string, User> {
    match q
    case SendOtp(name, email, password, hashed, draw, now, newId, mailSent) =>
      SendOtpStep(users, name, email, password, hashed, draw, now, newId, mailSent).users
    case VerifyOtp(account, submitted, now) => VerifyOtpStep(users, account, submitted, now).users
  }

  function ApplyAll(users: map<string, User>, qs: seq<AccountRequest>): map<string, User>
    decreases |qs|
  {
    if qs == [] then users else ApplyAll(Apply(users, qs[0]), qs[1..])
  }

  /** Whatever requests follow, a verified account is never changed again: it
      keeps `verified`, its password hash and its id, and no later send-otp
      can reset its code. Emails stay the keys of their records. */
  lemma {:induction false} VerifiedIsFinal(users: map<string, User>, qs: seq<AccountRequest>)
    ensures VerifiedRecordsKept(users, ApplyAll(users, qs))
    ensures KeyedByEmail(users) ==> KeyedByEmail(ApplyAll(users, qs))
    decreases |qs|
  {
    if qs != [] {
      var next := Apply(users, qs[0]);
      VerifiedIsFinal(next, qs[1..]);
    }
  }

  /** The only way `verified` turns on is a verify-otp for that email that
      answers with a session. */
  lemma OnlyVerifySetsVerified(users: map<string, User>, q: AccountRequest, e: string)
    requires e in users && !users[e].verified
    requires e in Apply(users, q) && Apply(users, q)[e].verified
    ensures q.VerifyOtp? && q.account == e && VerifyOtpStep(users, e, q.submitted, q.now).reply.SignedIn?
  {
  }

  /** POST /auth/login. With a truthy `isAdmin`, the request signs in as admin
      exactly when username and password both equal the configured values
      (two absent values are equal), otherwise 401. Without it: unknown email
      404, unverified 400, then the password check; a missing password or a
      record without a hash makes bcrypt throw (500). Nothing is written. */
  function LoginStep(users: map<string, User>, isAdmin: bool, username: Option<string>, email: string,
                     password: Option<string>, adminUser: Option<string>, adminPass: Option<string>,
                     matches: (string, string) -> bool): (r: AuthReply)
    ensures isAdmin ==> (r.SignedIn? <==> username == adminUser && password == adminPass)
    ensures isAdmin && !r.SignedIn? ==> r == Refused(InvalidAdminCredentials)
    ensures isAdmin && r.SignedIn? ==> r.session == Session("admin", "Admin", username, "admin")
    ensures !isAdmin && email !in users ==> r == Refused(UserNotFound)
    ensures !isAdmin && email in users && !users[email].verified ==> r == Refused(NotVerified)
    ensures !isAdmin && email in users && users[email].verified && (password.None? || users[email].passwordHash.None?) ==>
      r == Refused(ServerError)
    ensures (!isAdmin && email in users && users[email].verified && password.Some? && users[email].passwordHash.Some?
      && !matches(password.value, users[email].passwordHash.value)) ==> r == Refused(InvalidPassword)
    ensures !isAdmin ==> (r.SignedIn? <==>
      && email in users && users[email].verified
      && password.Some? && users[email].passwordHash.Some?
      && matches(password.value, users[email].passwordHash.value))
    ensures !isAdmin && r.SignedIn? ==>
      r.session == Session(users[email].id, users[email].name, Some(users[email].email), users[email].role)
  {
    if isAdmin then
      if username == adminUser && password == adminPass then SignedIn(Session("admin", "Admin", username, "admin"))
      else Refused(InvalidAdminCredentials)
    else if email !in users then Refused(UserNotFound)
    else
      var u := users[email];
      if !u.verified then Refused(NotVerified)
      else if password.None? || u.passwordHash.None? then Refused(ServerError)
      else if !matches(password.value, u.passwordHash.value) then Refused(InvalidPassword)
      else SignedIn(Session(u.id, u.name, Some(u.email), u.role))
  }

  /** The User collection of the OTP flow, keyed by email. */
  class UserCollection {
    var users: map<string, User>

    ghost predicate Valid()
      reads this
    {
      KeyedByEmail(users)
    }

    constructor ()
      ensures Valid() && users == map[]
    {
      users := map[];
    }

    method SendOtp(name: Option<string>, email: Option<string>, password: Option<string>,
                   hashed: string, draw: OtpDraw, now: nat, newId: string, mailSent: bool) returns (reply: AuthReply)
      requires Valid()
      modifies this
      ensures Valid()
      ensures SendOtpStep(old(users), name, email, password, hashed, draw, now, newId, mailSent) == AccountStep(reply, users)
    {
      if !Truthy(name) || !Truthy(email) || !Truthy(password) {
        return Refused(MissingFields);
      }
      var e := email.value;
      var existing := if e in users then Some(users[e]) else None;
      if existing.Some? && existing.value.verified {
        return Refused(AlreadyRegistered);
      }
      var otp := GenerateOtp(draw);
      var expiry := now + OtpLifetime;
      var user: User;
      if existing.None? {
        user := DefaultUser(newId, name.value, e);
        user := user.(passwordHash := Some(hashed), otp := Some(otp), otpExpiresAt := Some(expiry));
      } else {
        user := existing.value;
        user := user.(passwordHash := Some(hashed));
        user := user.(otp := Some(otp));
        user := user.(otpExpiresAt := Some(expiry));
      }
      users := users[e := user];
      if !mailSent {
        return Refused(ServerError);
      }
      reply := OtpSent;
    }

    method VerifyOtp(email: string, submitted: string, now: nat) returns (reply: AuthReply)
      requires Valid()
      modifies this
      ensures Valid()
      ensures VerifyOtpStep(old(users), email, submitted, now) == AccountStep(reply, users)
    {
      if email !in users {
        return Refused(UserNotFound);
      }
      var user := users[email];
      if user.verified {
        return Refused(AlreadyVerified);
      }
      if OtpText(user.otp) != submitted {
        return Refused(InvalidOtp);
      }
      if now > user.otpExpiresAt.GetOr(0) {
        return Refused(OtpExpired);
      }
      var session := Session(user.id, user.name, Some(user.email), user.role);
      user := user.(verified := true);
      user := user.(otp := None);
      user := user.(otpExpiresAt := None);
      users := users[email := user];
      reply := SignedIn(session);
    }
  }
}
