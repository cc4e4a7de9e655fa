/** The request handlers: each calls one service and maps what it returns or
    throws to a status code, a JSON body and, at login and at the reset
    hand-off, a cookie. The mapping is given as a function of the service's
    result; the handlers that touch the store are methods over it. */
module AuthController {
  import opened Wrappers
  import opened Validator
  import Jwt
  import opened UserModel
  import opened Http
  import AuthService

  const SignupDone: string := "Signup successful. Verification email has been sent, Please verify your email."
  const VendorDone: string := "Thank you for Registering, We will connect soon with you with further steps"
  const EmailVerified: string := "Email verified successfully. You can log in now."
  const VerificationResent: string := "Verification email has been sent, Please verify your email."
  const ResetVerified: string := "Email verified successfully"
  const PasswordUpdated: string := "Password update successful"

  /** `expires: new Date(Date.now() + 8 * 360000)`: 48 minutes. */
  const LoginCookieLifetimeMs: int := 8 * 360000

  /** The mail-sent confirmation of `forgetPassword`. */
  function ResetMailNotice(email: string): string {
    "Reset password mail has been sent to " + email + ", will get expire after 15 mins"
  }

  /** `userSignup`: 200 with the new user (absent when the mail was not sent),
      otherwise status 404 with `status: 400` and the error's message. */
  function SignupResponse(r: Result<Option<User>, AuthService.AuthError>): (resp: Response)
    ensures resp.cookie == None
    ensures resp.code == 200 <==> r.Ok?
    ensures r.Ok? ==> resp.body == StatusData(200, SignupDone, if r.value.Some? then Some(UserAccount(r.value.value)) else None)
    ensures r.Err? ==> resp.code == 404 && resp.body == StatusMessage(400, AuthService.Message(r.error))
  {
    match r
    case Ok(u) => Response(200, StatusData(200, SignupDone, if u.Some? then Some(UserAccount(u.value)) else None), None)
    case Err(e) => Response(404, StatusMessage(400, AuthService.Message(e)), None)
  }

  /** `vendorRegister`: 200 with the vendor, otherwise 404 with `status: 400`. */
  function VendorResponse(r: Result<Vendor, AuthService.AuthError>): (resp: Response)
    ensures resp.cookie == None
    ensures resp.code == 200 <==> r.Ok?
    ensures r.Ok? ==> resp.body == StatusData(200, VendorDone, Some(VendorAccount(r.value)))
    ensures r.Err? ==> resp.code == 404 && resp.body == StatusMessage(400, AuthService.Message(r.error))
  {
    match r
    case Ok(v) => Response(200, StatusData(200, VendorDone, Some(VendorAccount(v))), None)
    case Err(e) => Response(404, StatusMessage(400, AuthService.Message(e)), None)
  }

  /** `verifyUserEmail` after the service ran: the update result is an
      object, so a success always answers 200. */
  function VerifyEmailResponse(r: Result<AuthService.UpdateResult, AuthService.AuthError>): (resp: Response)
    ensures resp.cookie == None
    ensures resp.code == 200 <==> r.Ok?
    ensures r.Ok? ==> resp.body == Outcome(true, EmailVerified, None)
    ensures r.Err? ==> resp.code == 400 && resp.body == Outcome(false, AuthService.Message(r.error), None)
  {
    match r
    case Ok(_) => Response(200, Outcome(true, EmailVerified, None), None)
    case Err(e) => Response(400, Outcome(false, AuthService.Message(e), None), None)
  }

  /** `resendVerificationEmail` after the service ran: a success whose mail
      was not sent answers nothing at all; every error answers 200 with
      `success: false`. */
  function ResendResponse(r: Result<AuthService.Sent, AuthService.AuthError>): (resp: Option<Response>)
    ensures resp.None? <==> r.Ok? && !r.value.isEmailSend
    ensures resp.Some? ==> resp.value.code == 200 && resp.value.cookie == None
    ensures r.Ok? && r.value.isEmailSend ==> resp == Some(Response(200, Outcome(true, VerificationResent, Some(r.value.token)), None))
    ensures r.Err? ==> resp == Some(Response(200, Outcome(false, AuthService.Message(r.error), None), None))
  {
    match r
    case Ok(sent) =>
      if sent.isEmailSend then Some(Response(200, Outcome(true, VerificationResent, Some(sent.token)), None)) else None
    case Err(e) => Some(Response(200, Outcome(false, AuthService.Message(e), None), None))
  }

  /** `forgetPassword` after the service ran: 200 only when the mail was
      sent; an unsent mail is "Something went wrong", and it and every error
      answer 404 with `success: false`. */
  function ForgetPasswordResponse(r: Result<AuthService.ResetMailed, AuthService.AuthError>): (resp: Response)
    ensures resp.cookie == None
    ensures resp.code == 200 <==> r.Ok? && r.value.isMailSend
    ensures resp.code == 200 ==> resp.body == StatusFlag(true, ResetMailNotice(r.value.email))
    ensures r.Ok? && !r.value.isMailSend ==> resp == Response(404, Outcome(false, "Something went wrong", None), None)
    ensures r.Err? ==> resp == Response(404, Outcome(false, AuthService.Message(r.error), None), None)
  {
    match r
    case Ok(m) =>
      if m.isMailSend then Response(200, StatusFlag(true, ResetMailNotice(m.email)), None)
      else Response(404, Outcome(false, "Something went wrong", None), None)
    case Err(e) => Response(404, Outcome(false, AuthService.Message(e), None), None)
  }

  /** `resetPassword` after the service ran: 201 on success, otherwise 400. */
  function ResetPasswordResponse(r: Result<(), AuthService.AuthError>): (resp: Response)
    ensures resp.cookie == None
    ensures resp.code == 201 <==> r.Ok?
    ensures r.Ok? ==> resp.body == Outcome(true, PasswordUpdated, None)
    ensures r.Err? ==> resp.code == 400 && resp.body == Outcome(false, AuthService.Message(r.error), None)
  {
    match r
    case Ok(_) => Response(201, Outcome(true, PasswordUpdated, None), None)
    case Err(e) => Response(400, Outcome(false, AuthService.Message(e), None), None)
  }

  /** `getAccessToken(req.body)` as `loginUser` calls it: the token's
      payload is the whole login body, password included. */
  function LoginToken(body: LoginBody, key: string, nowMs: int): (t: SessionToken)
    ensures t.payload == BodyClaim(body) && t.key == key
    ensures t.iat == Jwt.Seconds(nowMs) && t.exp == t.iat + Jwt.ExpiresIn
  {
    Jwt.Sign(BodyClaim(body), key, nowMs)
  }

  /** `loginUser`: the token goes both into an http-only `token` cookie that
      expires 48 minutes from now and into the body. */
  function LoginUser(body: LoginBody, key: string, nowMs: int): (resp: Response)
    ensures resp.code == 200
    ensures resp.body == Outcome(true, "LogIn successful", Some(LoginToken(body, key, nowMs)))
    ensures resp.cookie == Some(Cookie("token", LoginToken(body, key, nowMs), Some(nowMs + LoginCookieLifetimeMs), true))
  {
    var token := LoginToken(body, key, nowMs);
    Response(200, Outcome(true, "LogIn successful", Some(token)), Some(Cookie("token", token, Some(nowMs + LoginCookieLifetimeMs), true)))
  }

  /** The login cookie outlives the token it carries by at least 33 minutes:
      for that time the browser sends a token the gate rejects as expired. */
  lemma LoginCookieOutlivesToken(body: LoginBody, key: string, nowMs: int)
    ensures var resp := LoginUser(body, key, nowMs);
      && resp.cookie.Some? && resp.cookie.value.expiresMs.Some?
      && resp.cookie.value.expiresMs.value - resp.cookie.value.value.exp * 1000 >= 33 * 60 * 1000
      && Jwt.Verify(resp.cookie.value.value, key, resp.cookie.value.value.exp * 1000).Err?
  {
    var t := LoginToken(body, key, nowMs);
    assert nowMs / 1000 * 1000 + nowMs % 1000 == nowMs;
    assert t.exp * 1000 == nowMs / 1000 * 1000 + Jwt.ExpiresIn * 1000;
    assert Jwt.Seconds(t.exp * 1000) == t.exp;
  }

  /** `verifyForgotPassword`: the fresh token goes into a session cookie that
      scripts can read, and into the body; a rejected token answers 400. */
  function VerifyForgotPassword(token: TokenText, key: string, nowMs: int): (resp: Response)
    ensures resp.code == 200 <==> Jwt.VerifyWire(token, key, nowMs).Ok?
    ensures resp.code == 200 ==>
      (var reissued := Jwt.Sign(Jwt.VerifyWire(token, key, nowMs).value.payload, key, nowMs);
       && resp.body == Outcome(true, ResetVerified, Some(reissued))
       && resp.cookie == Some(Cookie("token", reissued, None, false)))
    ensures resp.code != 200 ==>
      && resp.code == 400 && resp.cookie == None
      && resp.body == Outcome(false, Jwt.ErrorMessage(Jwt.VerifyWire(token, key, nowMs).error), None)
  {
    match AuthService.VerifyForgotPassword(token, key, nowMs)
    case Ok(t) => Response(200, Outcome(true, ResetVerified, Some(t)), Some(Cookie("token", t, None, false)))
    case Err(e) => Response(400, Outcome(false, AuthService.Message(e), None), None)
  }

  /** `userSignup` over the store. */
  method UserSignup(store: AuthService.AccountStore, f: SignupForm, o: Oracle, delivered: bool, nowMs: int)
    returns (resp: Response)
    requires store.Valid()
    modifies store
    ensures store.Valid()
    ensures var s := AuthService.SignupStep(old(store.Snapshot()), f, o, delivered, store.secret, nowMs);
      && store.Snapshot() == s.db && store.outbox == old(store.outbox) + s.mails
      && resp == SignupResponse(s.result)
  {
    var r := store.UserSignup(f, o, delivered, nowMs);
    resp := SignupResponse(r);
  }

  /** `vendorRegister` over the store. */
  method VendorRegister(store: AuthService.AccountStore, f: VendorForm, o: Oracle) returns (resp: Response)
    requires store.Valid()
    modifies store
    ensures store.Valid() && store.outbox == old(store.outbox)
    ensures var s := AuthService.RegisterVendorStep(old(store.Snapshot()), f, o);
      store.Snapshot() == s.db && resp == VendorResponse(s.result)
  {
    var r := store.RegisterVendor(f, o);
    resp := VendorResponse(r);
  }

  /** `verifyUserEmail`: an empty token is refused before the service runs. */
  method VerifyUserEmail(store: AuthService.AccountStore, token: TokenText, nowMs: int) returns (resp: Response)
    requires store.Valid()
    modifies store
    ensures store.Valid() && store.outbox == old(store.outbox)
    ensures !Jwt.Present(token) ==>
      store.Snapshot() == old(store.Snapshot()) && resp == Response(400, Outcome(false, "Error verifying email", None), None)
    ensures Jwt.Present(token) ==>
      (var s := AuthService.VerifyEmailStep(old(store.Snapshot()), token, store.secret, nowMs);
       store.Snapshot() == s.db && resp == VerifyEmailResponse(s.result))
  {
    if !Jwt.Present(token) {
      return Response(400, Outcome(false, "Error verifying email", None), None);
    }
    var r := store.VerifyEmail(token, nowMs);
    resp := VerifyEmailResponse(r);
  }

  /** `resendVerificationEmail`: a missing or invalid email is refused before
      the service runs. */
  method ResendVerificationEmail(store: AuthService.AccountStore, email: Option<string>, o: Oracle,
                                 delivered: bool, nowMs: int) returns (resp: Option<Response>)
    requires store.Valid()
    modifies store
    ensures store.Valid() && store.Snapshot() == old(store.Snapshot())
    ensures !(Truthy(email) && o.isEmail(email.value)) ==>
      store.outbox == old(store.outbox) && resp == Some(Response(200, Outcome(false, "Invalid Email", None), None))
    ensures Truthy(email) && o.isEmail(email.value) ==>
      (var s := AuthService.SendVerificationStep(old(store.Snapshot()), email.value, delivered, store.secret, nowMs);
       store.outbox == old(store.outbox) + s.mails && resp == ResendResponse(s.result))
  {
    if !Truthy(email) || !o.isEmail(email.value) {
      return Some(Response(200, Outcome(false, "Invalid Email", None), None));
    }
    var r := store.SendVerificationEmail(email.value, delivered, nowMs);
    resp := ResendResponse(r);
  }

  /** `forgetPassword` over the store. */
  method ForgetPassword(store: AuthService.AccountStore, email: Option<string>, o: Oracle,
                        delivered: bool, nowMs: int) returns (resp: Response)
    requires store.Valid()
    modifies store`outbox
    ensures store.Valid()
    ensures var s := AuthService.ForgotPasswordStep(old(store.Snapshot()), email, o, delivered, store.secret, nowMs);
      store.outbox == old(store.outbox) + s.mails && resp == ForgetPasswordResponse(s.result)
  {
    var r := store.ForgotPasswordSendEmail(email, o, delivered, nowMs);
    resp := ForgetPasswordResponse(r);
  }

  /** `resetPassword` over the store. */
  method ResetPassword(store: AuthService.AccountStore, password: Option<string>, token: TokenText, nowMs: int)
    returns (resp: Response)
    requires store.Valid()
    modifies store`users
    ensures store.Valid()
    ensures var s := AuthService.ResetPasswordStep(old(store.Snapshot()), password, token, store.secret, nowMs);
      store.Snapshot() == s.db && resp == ResetPasswordResponse(s.result)
  {
    var r := store.ResetPassword(password, token, nowMs);
    resp := ResetPasswordResponse(r);
  }
}
