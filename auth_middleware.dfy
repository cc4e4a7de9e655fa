/** The request middlewares: the signup and vendor validators, the login
    check, and the bearer-token gate. Each either passes the request on
    (`next`) or sends a response itself. */
module AuthMiddleware {
  import opened Wrappers
  import opened Text
  import opened Validator
  import opened Bcrypt
  import Jwt
  import opened UserModel
  import opened Http

  datatype Verdict<T> = Next(value: T) | Respond(response: Response)

  /** One check of a validator chain: whether it passes, and the message it
      throws when it does not. */
  datatype Check = Check(passes: bool, message: string)

  /** The message of the first check that fails, if one does. */
  function FirstFailure(checks: seq<Check>): (r: Option<string>)
    ensures r.None? <==> forall i :: 0 <= i < |checks| ==> checks[i].passes
    ensures r.Some? ==> exists i :: && 0 <= i < |checks| && !checks[i].passes
                                    && checks[i].message == r.value
                                    && forall j :: 0 <= j < i ==> checks[j].passes
  {
    if |checks| == 0 then None
    else if !checks[0].passes then Some(checks[0].message)
    else
      var r := FirstFailure(checks[1..]);
      if r.Some? then
        var i :| && 0 <= i < |checks[1..]| && !checks[1..][i].passes
                 && checks[1..][i].message == r.value
                 && forall j :: 0 <= j < i ==> checks[1..][j].passes;
        assert checks[i + 1] == checks[1..][i];
        assert forall j :: 1 <= j < i + 1 ==> checks[j] == checks[1..][j - 1];
        r
      else
        assert forall i :: 1 <= i < |checks| ==> checks[i] == checks[1..][i - 1];
        r
  }

  /** When the checks before `k` pass and check `k` fails, the first
      failure is check `k`'s message. */
  lemma {:induction false} FirstFailureAt(checks: seq<Check>, k: nat)
    requires k < |checks| && !checks[k].passes
    requires forall j :: 0 <= j < k ==> checks[j].passes
    ensures FirstFailure(checks) == Some(checks[k].message)
  {
    if k > 0 {
      assert forall j :: 0 <= j < k - 1 ==> checks[1..][j] == checks[j + 1];
      FirstFailureAt(checks[1..], k - 1);
    }
  }

  /** A validator chain `if (…) throw …; else if (…) throw …; … else next()`:
      the first failing check responds 404 with its message; when every check
      passes, `next` is called with `form`. */
  function Chain<T>(checks: seq<Check>, form: T): (r: Verdict<T>)
    ensures r.Next? <==> FirstFailure(checks).None?
    ensures r.Respond? ==> r.response == Reject404(FirstFailure(checks).value)
    ensures r.Next? ==> r.value == form
  {
    if |checks| == 0 then Next(form)
    else if !checks[0].passes then Respond(Reject404(checks[0].message))
    else
      assert forall i :: 1 <= i < |checks| ==> checks[i] == checks[1..][i - 1];
      Chain(checks[1..], form)
  }

  /** The 404 response both validators send. */
  function Reject404(message: string): Response {
    Response(404, StatusMessage(404, message), None)
  }

  /** The 400 response of the login middleware. */
  function Reject400(message: string): Response {
    Response(400, StatusMessage(400, message), None)
  }

  /** The checks of `userSignupMiddleware` in order. The first-name check
      tests the presence of `firstName` but the blankness of `password`. */
  function SignupChecks(b: SignupBody, o: Oracle): seq<Check> {
    [ Check(Truthy(b.email) && o.isEmail(b.email.value), "Invalid email entered"),
      Check(Truthy(b.password) && !IsEmptyIgnoringWhitespace(b.password.value)
            && IsLengthAtLeast(b.password.value, 8), "Password minimum length should be 8"),
      Check(Truthy(b.firstName) && !(b.password.Some? && IsEmptyIgnoringWhitespace(b.password.value)),
            "First Name is required"),
      Check(Truthy(b.lastName) && !IsEmptyIgnoringWhitespace(b.lastName.value), "Last Name is required") ]
  }

  /** The signup checks all pass exactly when the fields meet the four
      conditions, which for the first name is only its presence. */
  lemma SignupChecksPass(b: SignupBody, o: Oracle)
    ensures FirstFailure(SignupChecks(b, o)).None? <==>
      && Truthy(b.email) && o.isEmail(b.email.value)
      && Truthy(b.password) && !IsEmptyIgnoringWhitespace(b.password.value) && |b.password.value| >= 8
      && Truthy(b.firstName)
      && Truthy(b.lastName) && !IsEmptyIgnoringWhitespace(b.lastName.value)
  {
    var checks := SignupChecks(b, o);
    assert (forall i :: 0 <= i < |checks| ==> checks[i].passes) <==>
      checks[0].passes && checks[1].passes && checks[2].passes && checks[3].passes;
  }

  /** `userSignupMiddleware`: responds 404 with the first failing check's
      message, and calls `next` only when all four pass. */
  function UserSignupMiddleware(b: SignupBody, o: Oracle): (r: Verdict<SignupForm>)
    ensures r.Next? <==> FirstFailure(SignupChecks(b, o)).None?
    ensures r.Next? <==> && Truthy(b.email) && o.isEmail(b.email.value)
                         && Truthy(b.password) && !IsEmptyIgnoringWhitespace(b.password.value) && |b.password.value| >= 8
                         && Truthy(b.firstName)
                         && Truthy(b.lastName) && !IsEmptyIgnoringWhitespace(b.lastName.value)
    ensures r.Respond? ==> r.response == Reject404(FirstFailure(SignupChecks(b, o)).value)
    ensures r.Next? ==> r.value == SignupForm(b.email.value, b.password.value, b.firstName.value, b.lastName.value)
  {
    var checks := SignupChecks(b, o);
    var r := Chain(checks, SignupForm(b.email.GetOr(""), b.password.GetOr(""), b.firstName.GetOr(""), b.lastName.GetOr("")));
    SignupChecksPass(b, o);
    r
  }

  /** Once email and password pass, the first-name check is a presence test
      only: a first name of spaces gets through. */
  lemma FirstNameCheckIsPresenceOnly(b: SignupBody, o: Oracle)
    requires SignupChecks(b, o)[0].passes && SignupChecks(b, o)[1].passes
    ensures SignupChecks(b, o)[2].passes <==> Truthy(b.firstName)
  {
  }

  /** The checks of `vendorRegisterMiddleware` in order. */
  function VendorChecks(b: VendorBody, o: Oracle): seq<Check> {
    [ Check(Truthy(b.email) && o.isEmail(b.email.value), "Invalid email entered"),
      Check(Truthy(b.firstName) && !IsEmptyIgnoringWhitespace(b.firstName.value), "First Name is required"),
      Check(Truthy(b.lastName) && !IsEmptyIgnoringWhitespace(b.lastName.value), "Last Name is required"),
      Check(Truthy(b.businessName) && !IsEmptyIgnoringWhitespace(b.businessName.value), "Business Name is required"),
      Check(Truthy(b.businessCategory) && !IsEmptyIgnoringWhitespace(b.businessCategory.value), "business Catergory is required"),
      Check(Truthy(b.phone) && o.isMobilePhone(b.phone.value), "Invalid Phone number"),
      Check(Truthy(b.state) && !IsEmptyIgnoringWhitespace(b.state.value), "State is required") ]
  }

  /** The vendor checks all pass exactly when the seven fields meet their conditions. */
  lemma VendorChecksPass(b: VendorBody, o: Oracle)
    ensures FirstFailure(VendorChecks(b, o)).None? <==>
      && Truthy(b.email) && o.isEmail(b.email.value)
      && Truthy(b.firstName) && !IsEmptyIgnoringWhitespace(b.firstName.value)
      && Truthy(b.lastName) && !IsEmptyIgnoringWhitespace(b.lastName.value)
      && Truthy(b.businessName) && !IsEmptyIgnoringWhitespace(b.businessName.value)
      && Truthy(b.businessCategory) && !IsEmptyIgnoringWhitespace(b.businessCategory.value)
      && Truthy(b.phone) && o.isMobilePhone(b.phone.value)
      && Truthy(b.state) && !IsEmptyIgnoringWhitespace(b.state.value)
  {
    var checks := VendorChecks(b, o);
    assert (forall i :: 0 <= i < |checks| ==> checks[i].passes) <==>
      checks[0].passes && checks[1].passes && checks[2].passes && checks[3].passes
      && checks[4].passes && checks[5].passes && checks[6].passes;
  }

  /** `vendorRegisterMiddleware`: responds 404 with the first failing check's
      message, and calls `next` only when all seven pass. */
  function VendorRegisterMiddleware(b: VendorBody, o: Oracle): (r: Verdict<VendorForm>)
    ensures r.Next? <==> FirstFailure(VendorChecks(b, o)).None?
    ensures r.Next? <==> && Truthy(b.email) && o.isEmail(b.email.value)
                         && Truthy(b.firstName) && !IsEmptyIgnoringWhitespace(b.firstName.value)
                         && Truthy(b.lastName) && !IsEmptyIgnoringWhitespace(b.lastName.value)
                         && Truthy(b.businessName) && !IsEmptyIgnoringWhitespace(b.businessName.value)
                         && Truthy(b.businessCategory) && !IsEmptyIgnoringWhitespace(b.businessCategory.value)
                         && Truthy(b.phone) && o.isMobilePhone(b.phone.value)
                         && Truthy(b.state) && !IsEmptyIgnoringWhitespace(b.state.value)
    ensures r.Respond? ==> r.response == Reject404(FirstFailure(VendorChecks(b, o)).value)
    ensures r.Next? ==> r.value == VendorForm(b.email.value, b.firstName.value, b.lastName.value, b.businessName.value,
                                             b.businessCategory.value, b.phone.value, b.state.value)
  {
    var checks := VendorChecks(b, o);
    var r := Chain(checks, VendorForm(b.email.GetOr(""), b.firstName.GetOr(""), b.lastName.GetOr(""),
                                      b.businessName.GetOr(""), b.businessCategory.GetOr(""),
                                      b.phone.GetOr(""), b.state.GetOr("")));
    VendorChecksPass(b, o);
    r
  }

  /** `loginMiddleware`: a missing email, then a missing password; then the
      account is looked up among the users and, failing that, the vendors.
      A missing account, an account without a password and a password that
      does not compare are all "Invalid credentials". On success the account
      is attached to the body as `user`. */
  function LoginMiddleware(db: Db, b: LoginBody): (r: Verdict<LoginBody>)
    ensures !Truthy(b.email) ==> r == Respond(Reject400("Email is required"))
    ensures Truthy(b.email) && !Truthy(b.password) ==> r == Respond(Reject400("Password is required"))
    ensures Truthy(b.email) && Truthy(b.password) && r.Respond? ==> r.response == Reject400("Invalid credentials")
    ensures r.Next? <==>
      && Truthy(b.email) && Truthy(b.password)
      && Lower(b.email.value) in db.users
      && Compare(b.password.value, db.users[Lower(b.email.value)].password)
    ensures r.Next? ==> r.value == b.(user := Some(UserAccount(db.users[Lower(b.email.value)])))
  {
    if !Truthy(b.email) || IsEmpty(b.email.value) then Respond(Reject400("Email is required"))
    else if !Truthy(b.password) || IsEmpty(b.password.value) then Respond(Reject400("Password is required"))
    else
      var account := FindAccount(db, b.email.value);
      if account.None? || account.value.Password().None? then Respond(Reject400("Invalid credentials"))
      else if Compare(b.password.value, account.value.Password().value) then Next(b.(user := account))
      else Respond(Reject400("Invalid credentials"))
  }

  /** A vendor has no password, so an email that only the vendors have never
      gets past the login middleware, whatever password is sent. */
  lemma VendorCannotLogIn(db: Db, b: LoginBody)
    requires Truthy(b.email) && Lower(b.email.value) in db.vendors && Lower(b.email.value) !in db.users
    ensures LoginMiddleware(db, b).Respond?
  {
  }

  /** The token text the gate uses: the `token` cookie when it is set,
      otherwise the second space-separated field of the `Authorization` header. */
  function BearerText(cookie: Option<string>, authorization: Option<string>): Option<string> {
    if Truthy(cookie) then cookie
    else
      match authorization
      case None => None
      case Some(h) =>
        var fields := Split(h, ' ');
        if |fields| > 1 then Some(fields[1]) else None
  }

  /** `"Bearer abc"` gives `"abc"`: with no cookie, a scheme and a token
      without spaces, separated by one space, give the token. */
  lemma BearerFromHeader(scheme: string, token: string)
    requires ' ' !in scheme && ' ' !in token
    ensures BearerText(None, Some(scheme + " " + token)) == Some(token)
  {
    SplitLeadingField(scheme, ' ', token);
    SplitNoSeparator(token, ' ');
    assert scheme + " " + token == scheme + [' '] + token;
  }

  /** A set cookie wins over the header. */
  lemma CookieFirst(cookie: string, authorization: Option<string>)
    requires cookie != ""
    ensures BearerText(Some(cookie), authorization) == Some(cookie)
  {
  }

  /** `authMiddleware`: a missing token and every verification failure get
      the same 404 "Invalid credentials"; otherwise the decoded payload
      becomes `req.user`. `parse` is how jsonwebtoken reads a token string. */
  function AuthGate(cookie: Option<string>, authorization: Option<string>, parse: string -> TokenText,
                    key: string, nowMs: int): (r: Verdict<Jwt.Decoded<Claim>>)
    ensures r.Respond? ==> r.response == Reject404("Invalid credentials")
    ensures r.Next? <==> && Truthy(BearerText(cookie, authorization))
                         && Jwt.VerifyWire(parse(BearerText(cookie, authorization).value), key, nowMs).Ok?
    ensures r.Next? ==> r.value == Jwt.VerifyWire(parse(BearerText(cookie, authorization).value), key, nowMs).value
  {
    var text := BearerText(cookie, authorization);
    if !Truthy(text) then Respond(Reject404("Invalid credentials"))
    else
      match Jwt.VerifyWire(parse(text.value), key, nowMs)
      case Err(_) => Respond(Reject404("Invalid credentials"))
      case Ok(d) => Next(d)
  }
}
