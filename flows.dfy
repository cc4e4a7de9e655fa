/** The routes of the auth router composed from their middleware and
    handler, and what whole request sequences do to an account. */
module Flows {
  import opened Wrappers
  import opened Text
  import opened Validator
  import opened Bcrypt
  import Jwt
  import opened UserModel
  import opened Http
  import opened AuthService
  import opened AuthMiddleware
  import AuthController

  /** What one request leaves behind: the database, the mails sent, and the
      response, if one is sent at all. */
  datatype Exchange = Exchange(db: Db, mails: seq<Mail>, response: Option<Response>)

  /** `POST /signup/user`: `userSignupMiddleware`, then `userSignup`. */
  function SignupRoute(db: Db, b: SignupBody, o: Oracle, delivered: bool, key: string, nowMs: int): Exchange {
    match UserSignupMiddleware(b, o)
    case Respond(r) => Exchange(db, [], Some(r))
    case Next(f) =>
      var s := SignupStep(db, f, o, delivered, key, nowMs);
      Exchange(s.db, s.mails, Some(AuthController.SignupResponse(s.result)))
  }

  /** `POST /signup/vendor`: `vendorRegisterMiddleware`, then `vendorRegister`. */
  function VendorRoute(db: Db, b: VendorBody, o: Oracle): Exchange {
    match VendorRegisterMiddleware(b, o)
    case Respond(r) => Exchange(db, [], Some(r))
    case Next(f) =>
      var s := RegisterVendorStep(db, f, o);
      Exchange(s.db, s.mails, Some(AuthController.VendorResponse(s.result)))
  }

  /** `POST /login`: `loginMiddleware`, then `loginUser`; the database is not changed. */
  function LoginRoute(db: Db, b: LoginBody, key: string, nowMs: int): Response {
    match LoginMiddleware(db, b)
    case Respond(r) => r
    case Next(withUser) => AuthController.LoginUser(withUser, key, nowMs)
  }

  /** A first name of spaces gets past the signup middleware, whose check
      looks at the password's blankness, and is refused only by the schema:
      the route answers 404 with the schema's message and creates nothing. */
  lemma BlankFirstNameReachesSchema(db: Db, b: SignupBody, o: Oracle, delivered: bool, key: string, nowMs: int)
    requires Truthy(b.email) && o.isEmail(b.email.value) && o.isEmail(Lower(b.email.value))
    requires Lower(b.email.value) !in db.users
    requires Truthy(b.password) && !IsEmptyIgnoringWhitespace(b.password.value) && |b.password.value| >= 8
    requires Truthy(b.firstName) && IsEmptyIgnoringWhitespace(b.firstName.value)
    requires Truthy(b.lastName) && !IsEmptyIgnoringWhitespace(b.lastName.value)
    ensures UserSignupMiddleware(b, o).Next?
    ensures var x := SignupRoute(db, b, o, delivered, key, nowMs);
      && x.db == db && x.mails == []
      && x.response == Some(Response(404, StatusMessage(400, Message(ValidationFailed("Users",
           [PathError("firstName", "First name should be of atleast 2 characters")]))), None))
  {
    var f := SignupForm(b.email.value, b.password.value, b.firstName.value, b.lastName.value);
    assert UserSignupMiddleware(b, o) == Next(f);
    var i := SignupInput(f);
    LoweredKeepsText(i.firstName);
    TextPathAccepts("lastName", i.lastName, "Last name should be of atleast 2 characters");
    LoweredKeepsText(i.email);
    var e := PathError("firstName", "First name should be of atleast 2 characters");
    assert UserErrors(i, o) == [e];
    assert CreateUser(i, o) == Err([e]);
  }

  /** Uniqueness is per collection: a vendor may register with a user's
      email. Login still finds the user record, because users come first. */
  lemma VendorMayShareUserEmail(db: Db, f: VendorForm, o: Oracle)
    requires Lower(f.email) in db.users && Lower(f.email) !in db.vendors
    requires VendorAcceptable(VendorInputOf(f), o)
    ensures var s := RegisterVendorStep(db, f, o);
      && s.result.Ok?
      && Lower(f.email) in s.db.users && Lower(f.email) in s.db.vendors
      && FindAccount(s.db, f.email) == Some(UserAccount(db.users[Lower(f.email)]))
  {
  }

  /** And a user may sign up with a vendor's email. */
  lemma UserMayShareVendorEmail(db: Db, f: SignupForm, o: Oracle, delivered: bool, key: string, nowMs: int)
    requires Lower(f.email) in db.vendors && Lower(f.email) !in db.users
    requires UserAcceptable(SignupInput(f), o)
    ensures var s := SignupStep(db, f, o, delivered, key, nowMs);
      && s.result.Ok?
      && Lower(f.email) in s.db.users && s.db.vendors == db.vendors
      && FindAccount(s.db, f.email).value.UserAccount?
  {
  }

  /** A user whose stored digest is that of the password sent logs in: the
      response is 200 with the token, whose payload is the body with the user
      record attached, and the same token in an http-only cookie. Whether the
      email was verified plays no part. */
  lemma LoginWithStoredPassword(db: Db, email: string, password: string, key: string, nowMs: int)
    requires email != "" && password != ""
    requires Lower(email) in db.users && db.users[Lower(email)].password == Hash(password)
    ensures var body := LoginBody(Some(email), Some(password), None);
      var t := AuthController.LoginToken(body.(user := Some(UserAccount(db.users[Lower(email)]))), key, nowMs);
      && LoginRoute(db, body, key, nowMs).code == 200
      && LoginRoute(db, body, key, nowMs).body == Outcome(true, "LogIn successful", Some(t))
      && LoginRoute(db, body, key, nowMs).cookie.value.value == t
      && t.payload.body.password == Some(password)
  {
  }

  /** Any other password is refused with "Invalid credentials". */
  lemma LoginWithOtherPassword(db: Db, email: string, password: string, stored: string, key: string, nowMs: int)
    requires email != "" && password != "" && password != stored
    requires Lower(email) in db.users && db.users[Lower(email)].password == Hash(stored)
    ensures LoginRoute(db, LoginBody(Some(email), Some(password), None), key, nowMs) == Reject400("Invalid credentials")
  {
    CompareHash(stored, password);
  }

  /** The login cookie opens the bearer-token gate while its token is in its
      window: the gate hands on the login body the token was signed with. */
  lemma LoginCookieOpensGate(db: Db, email: string, password: string, key: string, loginMs: int, nowMs: int,
                             text: string, parse: string -> TokenText)
    requires email != "" && password != ""
    requires Lower(email) in db.users && db.users[Lower(email)].password == Hash(password)
    requires text != ""
    requires parse(text) == Jwt.Signed(LoginRoute(db, LoginBody(Some(email), Some(password), None), key, loginMs).cookie.value.value)
    requires Jwt.Seconds(nowMs) < Jwt.Seconds(loginMs) + Jwt.ExpiresIn
    ensures var t := LoginRoute(db, LoginBody(Some(email), Some(password), None), key, loginMs).cookie.value.value;
      AuthGate(Some(text), None, parse, key, nowMs) == Next(Jwt.Decoded(t.payload, t.iat, t.exp))
  {
    LoginWithStoredPassword(db, email, password, key, loginMs);
  }

  /** A login token names the body, not an email, so the reset route cannot
      match it against the email field: it fails and changes nothing. */
  lemma LoginTokenCannotReset(db: Db, body: LoginBody, newPassword: string, key: string, loginMs: int, nowMs: int)
    requires Jwt.Seconds(nowMs) < Jwt.Seconds(loginMs) + Jwt.ExpiresIn
    ensures var s := ResetPasswordStep(db, Some(newPassword), Jwt.Signed(AuthController.LoginToken(body, key, loginMs)), key, nowMs);
      s.result == Err(CastFailed) && s.db == db
  {
  }

  /** Signup through the route, then the link in the verification mail:
      the user exists with the hashed password, unverified after signup and
      verified after the link is followed within 15 minutes. */
  lemma SignupThenVerify(db: Db, b: SignupBody, o: Oracle, key: string, signupMs: int, verifyMs: int)
    requires UserSignupMiddleware(b, o).Next?
    requires Lower(b.email.value) !in db.users && o.isEmail(Lower(b.email.value))
    requires !IsEmptyIgnoringWhitespace(b.firstName.value)
    requires Jwt.Seconds(verifyMs) < Jwt.Seconds(signupMs) + Jwt.ExpiresIn
    ensures var x := SignupRoute(db, b, o, true, key, signupMs);
      var k := Lower(b.email.value);
      && k in x.db.users && !x.db.users[k].verified && x.db.users[k].password == Hash(b.password.value)
      && x.response == Some(Response(200, StatusData(200, AuthController.SignupDone, Some(UserAccount(x.db.users[k]))), None))
      && |x.mails| == 1 && x.mails[0].to == b.email.value && x.mails[0].subject == VerificationSubject
      && var s := VerifyEmailStep(x.db, Jwt.Signed(x.mails[0].token), key, verifyMs);
         && s.result.Ok? && s.db.vendors == db.vendors
         && s.db.users == x.db.users[k := x.db.users[k].(verified := true)]
  {
    var f := UserSignupMiddleware(b, o).value;
    var i := SignupInput(f);
    assert UserAcceptable(i, o);
  }

  /** Forgot password, the reset link, then the reset form: each step within
      15 minutes of the token it uses. Only the user's password changes, to
      the digest of the new one. */
  lemma ForgotThenReset(db: Db, email: string, o: Oracle, newPassword: string, key: string,
                        mailMs: int, linkMs: int, resetMs: int)
    requires email != "" && o.isEmail(email) && Lower(email) in db.users
    requires Jwt.Seconds(linkMs) < Jwt.Seconds(mailMs) + Jwt.ExpiresIn
    requires Jwt.Seconds(resetMs) < Jwt.Seconds(linkMs) + Jwt.ExpiresIn
    ensures var s := ForgotPasswordStep(db, Some(email), o, true, key, mailMs);
      && s.result == Ok(ResetMailed(true, email)) && |s.mails| == 1 && s.mails[0].subject == ResetSubject
      && var handoff := VerifyForgotPassword(Jwt.Signed(s.mails[0].token), key, linkMs);
         && handoff.Ok?
         && var r := ResetPasswordStep(s.db, Some(newPassword), Jwt.Signed(handoff.value), key, resetMs);
            && r.result.Ok? && r.db.vendors == db.vendors
            && r.db.users == db.users[Lower(email) := db.users[Lower(email)].(password := Hash(newPassword))]
  {
    ReissueKeepsClaim(email, key, mailMs, linkMs);
  }

  /** The whole account lifecycle: sign up, follow the verification link,
      log in, ask for a reset, follow the reset link and set a new password.
      Afterwards the old password is refused and the new one logs in. */
  lemma AccountLifecycle(db: Db, b: SignupBody, o: Oracle, newPassword: string, key: string,
                         t0: int, t1: int, t2: int, t3: int, t4: int, t5: int)
    requires UserSignupMiddleware(b, o).Next?
    requires Lower(b.email.value) !in db.users && o.isEmail(Lower(b.email.value))
    requires !IsEmptyIgnoringWhitespace(b.firstName.value)
    requires newPassword != "" && newPassword != b.password.value
    requires Jwt.Seconds(t1) < Jwt.Seconds(t0) + Jwt.ExpiresIn
    requires Jwt.Seconds(t3) < Jwt.Seconds(t2) + Jwt.ExpiresIn
    requires Jwt.Seconds(t4) < Jwt.Seconds(t3) + Jwt.ExpiresIn
    ensures var email, password := b.email.value, b.password.value;
      var x := SignupRoute(db, b, o, true, key, t0);
      var verified := VerifyEmailStep(x.db, Jwt.Signed(x.mails[0].token), key, t1).db;
      var forgot := ForgotPasswordStep(verified, Some(email), o, true, key, t2);
      var handoff := VerifyForgotPassword(Jwt.Signed(forgot.mails[0].token), key, t3).value;
      var reset := ResetPasswordStep(forgot.db, Some(newPassword), Jwt.Signed(handoff), key, t4).db;
      && LoginRoute(verified, LoginBody(Some(email), Some(password), None), key, t2).code == 200
      && LoginRoute(reset, LoginBody(Some(email), Some(password), None), key, t5) == Reject400("Invalid credentials")
      && LoginRoute(reset, LoginBody(Some(email), Some(newPassword), None), key, t5).code == 200
      && reset.users[Lower(email)].verified
  {
    var email, password := b.email.value, b.password.value;
    var k := Lower(email);
    SignupThenVerify(db, b, o, key, t0, t1);
    var x := SignupRoute(db, b, o, true, key, t0);
    var verified := VerifyEmailStep(x.db, Jwt.Signed(x.mails[0].token), key, t1).db;
    assert verified.users[k].password == Hash(password);
    LoginWithStoredPassword(verified, email, password, key, t2);
    assert o.isEmail(email);
    ForgotThenReset(verified, email, o, newPassword, key, t2, t3, t4);
    var forgot := ForgotPasswordStep(verified, Some(email), o, true, key, t2);
    var handoff := VerifyForgotPassword(Jwt.Signed(forgot.mails[0].token), key, t3).value;
    var reset := ResetPasswordStep(forgot.db, Some(newPassword), Jwt.Signed(handoff), key, t4).db;
    assert reset.users[k].password == Hash(newPassword);
    LoginWithOtherPassword(reset, email, password, newPassword, key, t5);
    LoginWithStoredPassword(reset, email, newPassword, key, t5);
  }
}
