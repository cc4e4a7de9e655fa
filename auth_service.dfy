/** The account services: signup, vendor registration, verification mail,
    email verification, forgot password, the reset-token hand-off and the
    password reset. Each one is first given as a function from the database
    before to the database after, the mails handed to the transport and the
    result; `AccountStore` then performs the same steps in place on its two
    collections and its outbox. */
module AuthService {
  import opened Wrappers
  import opened Text
  import opened Validator
  import opened Bcrypt
  import Jwt
  import opened UserModel
  import opened Http

  const VerificationSubject: string := "Email verification request"
  const ResetSubject: string := "Password Reset Request"

  /** A mail handed to the transport; its HTML body carries a link ending in `token`. */
  datatype Mail = Mail(to: string, subject: string, token: SessionToken)

  /** The errors the services throw. */
  datatype AuthError =
    | UserExists
    | VendorExists
    | InvalidEmail
    | AlreadyVerified
    | EmailRequired
    | EmailInvalid
    | NotRegistered
    | Unauthorized
    | TokenRejected(reason: Jwt.TokenError)
    | ValidationFailed(model: string, errors: seq<PathError>)
    | CastFailed
    | HashFailed

  /** `path: message, path: message, ...` as a mongoose `ValidationError` lists them. */
  function Describe(errors: seq<PathError>): string {
    if |errors| == 0 then ""
    else if |errors| == 1 then errors[0].path + ": " + errors[0].message
    else errors[0].path + ": " + errors[0].message + ", " + Describe(errors[1..])
  }

  /** The `error.message` that reaches a handler. */
  function Message(e: AuthError): string {
    match e
    case UserExists => "user already exists"
    case VendorExists => "User already exists with us"
    case InvalidEmail => "Invalid Email"
    case AlreadyVerified => "Email is already verified"
    case EmailRequired => "Email is required"
    case EmailInvalid => "Email is invalid"
    case NotRegistered => "Email is not registered with us, please sign up first"
    case Unauthorized => "Unauthorized access"
    case TokenRejected(r) => Jwt.ErrorMessage(r)
    case ValidationFailed(model, errors) => model + " validation failed: " + Describe(errors)
    case CastFailed => "Cast to string failed for value at path \"email\""
    case HashFailed => "data and salt arguments required"
  }

  /** The result of `sendVerificationEmail`. */
  datatype Sent = Sent(isEmailSend: bool, token: SessionToken)

  /** The result of `forgotPasswordSendEmail`. */
  datatype ResetMailed = ResetMailed(isMailSend: bool, email: string)

  /** The result of `updateOne`; it is an object, so always truthy. */
  datatype UpdateResult = UpdateResult(matchedCount: nat, modifiedCount: nat)

  /** One service call: the database after it, the mails it handed to the
      transport that the transport reported sent, and what it returned or threw. */
  datatype Step<R> = Step(db: Db, mails: seq<Mail>, result: Result<R, AuthError>)

  /** `getJWTAccessToken(claim)`: a token whose payload is the string `claim`. */
  function AccessToken(claim: string, key: string, nowMs: int): (t: SessionToken)
    ensures t.payload == EmailClaim(claim) && t.key == key
    ensures t.iat == Jwt.Seconds(nowMs) && t.exp == t.iat + Jwt.ExpiresIn
  {
    Jwt.Sign(EmailClaim(claim), key, nowMs)
  }

  /** `updateOne({ email: k }, { verified: true })` on the users. */
  function MarkVerified(users: map<string, User>, k: string): (m: map<string, User>)
    ensures m.Keys == users.Keys
    ensures forall j :: j in users && j != k ==> m[j] == users[j]
    ensures k in users ==> m[k] == users[k].(verified := true)
  {
    if k in users then users[k := users[k].(verified := true)] else users
  }

  /** `updateOne({ email: k }, { password: d })` on the users. */
  function SetPassword(users: map<string, User>, k: string, d: Digest): (m: map<string, User>)
    ensures m.Keys == users.Keys
    ensures forall j :: j in users && j != k ==> m[j] == users[j]
    ensures k in users ==> m[k] == users[k].(password := d)
  {
    if k in users then users[k := users[k].(password := d)] else users
  }

  /** The fields `userSignupService` passes to `create`: the password hashed,
      no `verified` and no `role`. */
  function SignupInput(f: SignupForm): UserInput {
    UserInput(Some(f.firstName), Some(f.lastName), Some(f.email), Some(Hash(f.password)), None, None)
  }

  function VendorInputOf(f: VendorForm): VendorInput {
    VendorInput(Some(f.firstName), Some(f.lastName), Some(f.email), Some(f.businessName),
                Some(f.businessCategory), Some(f.phone), Some(f.state))
  }

  /** `sendVerificationEmail(email)`: refuses the empty email and an already
      verified user; an unknown email is not refused and still gets a token. */
  function SendVerificationStep(db: Db, email: string, delivered: bool, key: string, nowMs: int): (s: Step<Sent>)
    ensures s.db == db
    ensures email == "" ==> s.result == Err(InvalidEmail)
    ensures s.result.Err? <==> email == "" || (FindUser(db, email).Some? && FindUser(db, email).value.verified)
    ensures email != "" && s.result.Err? ==> s.result.error == AlreadyVerified
    ensures s.result.Err? ==> s.mails == []
    ensures s.result.Ok? ==>
      && s.result.value == Sent(delivered, AccessToken(email, key, nowMs))
      && s.mails == (if delivered then [Mail(email, VerificationSubject, AccessToken(email, key, nowMs))] else [])
  {
    if email == "" then Step(db, [], Err(InvalidEmail))
    else
      var user := FindUser(db, email);
      if user.Some? && user.value.verified then Step(db, [], Err(AlreadyVerified))
      else
        var token := AccessToken(email, key, nowMs);
        Step(db, if delivered then [Mail(email, VerificationSubject, token)] else [], Ok(Sent(delivered, token)))
  }

  /** `userSignupService(form)`: only the users are consulted for an existing
      email; a new record is created with the hashed password, then the
      verification mail is sent, and the record is returned only when the
      transport reports the mail sent. */
  function SignupStep(db: Db, f: SignupForm, o: Oracle, delivered: bool, key: string, nowMs: int): (s: Step<Option<User>>)
    ensures s.db.vendors == db.vendors
    ensures Lower(f.email) in db.users ==> s == Step(db, [], Err(UserExists))
    ensures s.result.Ok? <==> Lower(f.email) !in db.users && UserAcceptable(SignupInput(f), o)
    ensures Lower(f.email) !in db.users && !UserAcceptable(SignupInput(f), o) ==>
      s.result == Err(ValidationFailed("Users", CreateUser(SignupInput(f), o).error))
    ensures s.result.Err? ==> s.db == db && s.mails == []
    ensures s.result.Ok? ==>
      var u := CreateUser(SignupInput(f), o).value;
      && u.email == Lower(f.email) && u.password == Hash(f.password) && !u.verified
      && s.db.users == db.users[Lower(f.email) := u]
      && s.result.value == (if delivered then Some(u) else None)
      && s.mails == (if delivered then [Mail(f.email, VerificationSubject, AccessToken(f.email, key, nowMs))] else [])
  {
    if Lower(f.email) in db.users then Step(db, [], Err(UserExists))
    else
      match CreateUser(SignupInput(f), o)
      case Err(errors) => Step(db, [], Err(ValidationFailed("Users", errors)))
      case Ok(u) =>
        var created := Db(db.users[u.email := u], db.vendors);
        var sent := SendVerificationStep(created, f.email, delivered, key, nowMs);
        match sent.result
        case Err(e) => Step(created, [], Err(e))
        case Ok(r) => Step(created, sent.mails, Ok(if r.isEmailSend then Some(u) else None))
  }

  /** `registerVendorService(form)`: only the vendors are consulted for an
      existing email; the new vendor has no password. */
  function RegisterVendorStep(db: Db, f: VendorForm, o: Oracle): (s: Step<Vendor>)
    ensures s.mails == [] && s.db.users == db.users
    ensures Lower(f.email) in db.vendors ==> s == Step(db, [], Err(VendorExists))
    ensures s.result.Ok? <==> Lower(f.email) !in db.vendors && VendorAcceptable(VendorInputOf(f), o)
    ensures s.result == Err(VendorExists) <==> Lower(f.email) in db.vendors
    ensures Lower(f.email) !in db.vendors && !VendorAcceptable(VendorInputOf(f), o) ==>
      s.result == Err(ValidationFailed("Vendors", CreateVendor(VendorInputOf(f), o).error))
    ensures s.result.Err? ==> s.db == db
    ensures s.result.Ok? ==>
      && s.result.value == CreateVendor(VendorInputOf(f), o).value
      && s.db.vendors == db.vendors[Lower(f.email) := s.result.value]
  {
    if Lower(f.email) in db.vendors then Step(db, [], Err(VendorExists))
    else
      match CreateVendor(VendorInputOf(f), o)
      case Err(errors) => Step(db, [], Err(ValidationFailed("Vendors", errors)))
      case Ok(v) => Step(Db(db.users, db.vendors[v.email := v]), [], Ok(v))
  }

  /** `verifyEmail(token)`: a token that verifies marks the user whose email
      is its claim as verified and changes nothing else; a token that does not
      verify is an error and changes nothing. The result is an update result,
      truthy even when no user matched. */
  function VerifyEmailStep(db: Db, token: TokenText, key: string, nowMs: int): (s: Step<UpdateResult>)
    ensures s.mails == [] && s.db.vendors == db.vendors
    ensures s.result.Err? ==> s.db == db
    ensures Jwt.VerifyWire(token, key, nowMs).Err? ==>
      s.result == Err(TokenRejected(Jwt.VerifyWire(token, key, nowMs).error))
    ensures s.result.Ok? <==>
      Jwt.VerifyWire(token, key, nowMs).Ok? && Jwt.VerifyWire(token, key, nowMs).value.payload.EmailClaim?
    ensures Jwt.VerifyWire(token, key, nowMs).Ok? && Jwt.VerifyWire(token, key, nowMs).value.payload.BodyClaim? ==>
      s.result == Err(CastFailed)
    ensures s.result.Ok? ==>
      var k := Lower(Jwt.VerifyWire(token, key, nowMs).value.payload.email);
      && s.db.users == MarkVerified(db.users, k)
      && s.result.value.matchedCount == (if k in db.users then 1 else 0)
  {
    match Jwt.VerifyWire(token, key, nowMs)
    case Err(r) => Step(db, [], Err(TokenRejected(r)))
    case Ok(d) =>
      match d.payload
      case BodyClaim(_) => Step(db, [], Err(CastFailed))
      case EmailClaim(e) =>
        var k := Lower(e);
        var matched := if k in db.users then 1 else 0;
        var modified := if k in db.users && !db.users[k].verified then 1 else 0;
        Step(Db(MarkVerified(db.users, k), db.vendors), [], Ok(UpdateResult(matched, modified)))
  }

  /** `forgotPasswordSendEmail(body)`: a missing email, then an invalid one,
      then an email neither collection has, each with its own error; only
      after all three checks is a reset token issued and mailed. */
  function ForgotPasswordStep(db: Db, email: Option<string>, o: Oracle, delivered: bool, key: string, nowMs: int): (s: Step<ResetMailed>)
    ensures s.db == db
    ensures !Truthy(email) ==> s.result == Err(EmailRequired)
    ensures Truthy(email) && !o.isEmail(email.value) ==> s.result == Err(EmailInvalid)
    ensures Truthy(email) && o.isEmail(email.value) && FindAccount(db, email.value).None? ==>
      s.result == Err(NotRegistered)
    ensures s.result.Ok? <==> Truthy(email) && o.isEmail(email.value) && FindAccount(db, email.value).Some?
    ensures s.result.Err? ==> s.mails == []
    ensures s.result.Ok? ==>
      && s.result.value == ResetMailed(delivered, email.value)
      && s.mails == (if delivered then [Mail(email.value, ResetSubject, AccessToken(email.value, key, nowMs))] else [])
  {
    if !Truthy(email) then Step(db, [], Err(EmailRequired))
    else if !o.isEmail(email.value) then Step(db, [], Err(EmailInvalid))
    else if FindAccount(db, email.value).None? then Step(db, [], Err(NotRegistered))
    else
      var token := AccessToken(email.value, key, nowMs);
      Step(db, if delivered then [Mail(email.value, ResetSubject, token)] else [], Ok(ResetMailed(delivered, email.value)))
  }

  /** `verifyForgotPasswordService(params)`: a token that verifies is swapped
      for a fresh one with the same payload and a new 15-minute window. The
      decoded payload object is always truthy, so its "Something went wrong"
      branch is never taken. */
  function VerifyForgotPassword(token: TokenText, key: string, nowMs: int): (r: Result<SessionToken, AuthError>)
    ensures r.Ok? <==> Jwt.VerifyWire(token, key, nowMs).Ok?
    ensures r.Err? ==> r.error == TokenRejected(Jwt.VerifyWire(token, key, nowMs).error)
    ensures r.Ok? ==>
      && r.value.payload == Jwt.VerifyWire(token, key, nowMs).value.payload
      && r.value.key == key
      && r.value.iat == Jwt.Seconds(nowMs) && r.value.exp == r.value.iat + Jwt.ExpiresIn
  {
    match Jwt.VerifyWire(token, key, nowMs)
    case Err(e) => Err(TokenRejected(e))
    case Ok(d) => Ok(Jwt.Sign(d.payload, key, nowMs))
  }

  /** `resetPasswordService(body, params)`: an empty token is "Unauthorized
      access"; a token that verifies replaces the password of the user its
      claim names, and of no other record. No length rule applies here. */
  function ResetPasswordStep(db: Db, password: Option<string>, token: TokenText, key: string, nowMs: int): (s: Step<()>)
    ensures s.mails == [] && s.db.vendors == db.vendors
    ensures s.result.Err? ==> s.db == db
    ensures !Jwt.Present(token) ==> s.result == Err(Unauthorized)
    ensures Jwt.Present(token) && Jwt.VerifyWire(token, key, nowMs).Err? ==>
      s.result == Err(TokenRejected(Jwt.VerifyWire(token, key, nowMs).error))
    ensures s.result.Ok? <==>
      && Jwt.Present(token) && Jwt.VerifyWire(token, key, nowMs).Ok?
      && password.Some? && Jwt.VerifyWire(token, key, nowMs).value.payload.EmailClaim?
    ensures Jwt.Present(token) && Jwt.VerifyWire(token, key, nowMs).Ok? && password.None? ==>
      s.result == Err(HashFailed)
    ensures Jwt.Present(token) && Jwt.VerifyWire(token, key, nowMs).Ok? && password.Some?
            && Jwt.VerifyWire(token, key, nowMs).value.payload.BodyClaim? ==>
      s.result == Err(CastFailed)
    ensures s.result.Ok? ==>
      s.db.users == SetPassword(db.users, Lower(Jwt.VerifyWire(token, key, nowMs).value.payload.email), Hash(password.value))
  {
    if !Jwt.Present(token) then Step(db, [], Err(Unauthorized))
    else
      match Jwt.VerifyWire(token, key, nowMs)
      case Err(r) => Step(db, [], Err(TokenRejected(r)))
      case Ok(d) =>
        if password.None? then Step(db, [], Err(HashFailed))
        else
          match d.payload
          case BodyClaim(_) => Step(db, [], Err(CastFailed))
          case EmailClaim(e) => Step(Db(SetPassword(db.users, Lower(e), Hash(password.value)), db.vendors), [], Ok(()))
  }

  /** Every service call that changes the database. */
  datatype Operation =
    | SignupOp(form: SignupForm, delivered: bool)
    | RegisterVendorOp(vendor: VendorForm)
    | SendVerificationOp(email: string, delivered: bool)
    | VerifyEmailOp(token: TokenText)
    | ForgotPasswordOp(bodyEmail: Option<string>, delivered: bool)
    | ResetPasswordOp(password: Option<string>, token: TokenText)

  function Apply(db: Db, op: Operation, o: Oracle, key: string, nowMs: int): Db {
    match op
    case SignupOp(f, delivered) => SignupStep(db, f, o, delivered, key, nowMs).db
    case RegisterVendorOp(f) => RegisterVendorStep(db, f, o).db
    case SendVerificationOp(e, delivered) => SendVerificationStep(db, e, delivered, key, nowMs).db
    case VerifyEmailOp(t) => VerifyEmailStep(db, t, key, nowMs).db
    case ForgotPasswordOp(e, delivered) => ForgotPasswordStep(db, e, o, delivered, key, nowMs).db
    case ResetPasswordOp(p, t) => ResetPasswordStep(db, p, t, key, nowMs).db
  }

  /** How the database may move: no record ever disappears; a user keeps
      its names, email and role, and `verified` only goes from false to true;
      a vendor record never changes once created. */
  ghost predicate Evolves(db: Db, db': Db) {
    && (forall k :: k in db.users ==>
          && k in db'.users
          && db'.users[k].email == db.users[k].email
          && db'.users[k].firstName == db.users[k].firstName
          && db'.users[k].lastName == db.users[k].lastName
          && db'.users[k].role == db.users[k].role
          && (db.users[k].verified ==> db'.users[k].verified))
    && (forall k :: k in db.vendors ==> k in db'.vendors && db'.vendors[k] == db.vendors[k])
  }

  /** Adding a record under its own email, where there was none, keeps the
      keying and loses or changes nothing. */
  lemma AddUserKeepsInvariants(db: Db, k: string, u: User)
    requires WellKeyed(db) && k !in db.users && u.email == k
    ensures WellKeyed(Db(db.users[k := u], db.vendors))
    ensures Evolves(db, Db(db.users[k := u], db.vendors))
  {
    forall j | j in db.users
      ensures j in db.users[k := u] && db.users[k := u][j] == db.users[j]
    {
      assert j != k;
    }
  }

  lemma AddVendorKeepsInvariants(db: Db, k: string, v: Vendor)
    requires WellKeyed(db) && k !in db.vendors && v.email == k
    ensures WellKeyed(Db(db.users, db.vendors[k := v]))
    ensures Evolves(db, Db(db.users, db.vendors[k := v]))
  {
    forall j | j in db.vendors
      ensures j in db.vendors[k := v] && db.vendors[k := v][j] == db.vendors[j]
    {
      assert j != k;
    }
  }

  lemma SignupKeepsInvariants(db: Db, f: SignupForm, o: Oracle, delivered: bool, key: string, nowMs: int)
    requires WellKeyed(db)
    ensures WellKeyed(SignupStep(db, f, o, delivered, key, nowMs).db)
    ensures Evolves(db, SignupStep(db, f, o, delivered, key, nowMs).db)
  {
    var s := SignupStep(db, f, o, delivered, key, nowMs);
    if s.result.Ok? {
      AddUserKeepsInvariants(db, Lower(f.email), CreateUser(SignupInput(f), o).value);
    }
  }

  lemma RegisterVendorKeepsInvariants(db: Db, f: VendorForm, o: Oracle)
    requires WellKeyed(db)
    ensures WellKeyed(RegisterVendorStep(db, f, o).db)
    ensures Evolves(db, RegisterVendorStep(db, f, o).db)
  {
    var s := RegisterVendorStep(db, f, o);
    if s.result.Ok? {
      AddVendorKeepsInvariants(db, Lower(f.email), s.result.value);
    }
  }

  lemma VerifyEmailKeepsInvariants(db: Db, t: TokenText, key: string, nowMs: int)
    requires WellKeyed(db)
    ensures WellKeyed(VerifyEmailStep(db, t, key, nowMs).db)
    ensures Evolves(db, VerifyEmailStep(db, t, key, nowMs).db)
  {
  }

  lemma ResetPasswordKeepsInvariants(db: Db, p: Option<string>, t: TokenText, key: string, nowMs: int)
    requires WellKeyed(db)
    ensures WellKeyed(ResetPasswordStep(db, p, t, key, nowMs).db)
    ensures Evolves(db, ResetPasswordStep(db, p, t, key, nowMs).db)
  {
  }

  /** Every operation keeps each collection keyed by its records' emails and
      moves the database only as `Evolves` allows. */
  lemma OperationKeepsInvariants(db: Db, op: Operation, o: Oracle, key: string, nowMs: int)
    requires WellKeyed(db)
    ensures WellKeyed(Apply(db, op, o, key, nowMs))
    ensures Evolves(db, Apply(db, op, o, key, nowMs))
  {
    match op
    case SignupOp(f, delivered) => SignupKeepsInvariants(db, f, o, delivered, key, nowMs);
    case RegisterVendorOp(f) => RegisterVendorKeepsInvariants(db, f, o);
    case SendVerificationOp(_, _) =>
    case VerifyEmailOp(t) => VerifyEmailKeepsInvariants(db, t, key, nowMs);
    case ForgotPasswordOp(_, _) =>
    case ResetPasswordOp(p, t) => ResetPasswordKeepsInvariants(db, p, t, key, nowMs);
  }

  /** The reset hand-off keeps the claim: a reset token that is still valid is
      exchanged for the token the same email would get now. */
  lemma ReissueKeepsClaim(email: string, key: string, issuedMs: int, nowMs: int)
    requires Jwt.Seconds(nowMs) < Jwt.Seconds(issuedMs) + Jwt.ExpiresIn
    ensures VerifyForgotPassword(Jwt.Signed(AccessToken(email, key, issuedMs)), key, nowMs)
         == Ok(AccessToken(email, key, nowMs))
  {
  }

  /** After a reset through a valid token, the claimed user's old password no
      longer compares and the new one does. */
  lemma ResetReplacesCredential(db: Db, email: string, oldPassword: string, newPassword: string,
                                key: string, issuedMs: int, nowMs: int)
    requires Lower(email) in db.users && Compare(oldPassword, db.users[Lower(email)].password)
    requires newPassword != oldPassword
    requires Jwt.Seconds(nowMs) < Jwt.Seconds(issuedMs) + Jwt.ExpiresIn
    ensures var s := ResetPasswordStep(db, Some(newPassword), Jwt.Signed(AccessToken(email, key, issuedMs)), key, nowMs);
      && s.result.Ok?
      && Compare(newPassword, s.db.users[Lower(email)].password)
      && !Compare(oldPassword, s.db.users[Lower(email)].password)
  {
    CompareHash(newPassword, oldPassword);
  }

  /** The user collection of an `AccountStore` together with its vendors and
      the mails its transport reported sent. */
  class AccountStore {
    var users: map<string, User>
    var vendors: map<string, Vendor>
    var outbox: seq<Mail>
    /** `ACCESS_SECRET`, read once at start-up. */
    const secret: string

    constructor (secret: string)
      ensures Valid()
      ensures users == map[] && vendors == map[] && outbox == [] && this.secret == secret
    {
      users := map[];
      vendors := map[];
      outbox := [];
      this.secret := secret;
    }

    function Snapshot(): Db
      reads this
    {
      Db(users, vendors)
    }

    ghost predicate Valid()
      reads this
    {
      WellKeyed(Snapshot())
    }

    method SendVerificationEmail(email: string, delivered: bool, nowMs: int) returns (r: Result<Sent, AuthError>)
      requires Valid()
      modifies this
      ensures Valid()
      ensures var s := SendVerificationStep(old(Snapshot()), email, delivered, secret, nowMs);
        Snapshot() == s.db && outbox == old(outbox) + s.mails && r == s.result
    {
      if email == "" {
        return Err(InvalidEmail);
      }
      var user := FindUser(Snapshot(), email);
      if user.Some? && user.value.verified {
        return Err(AlreadyVerified);
      }
      var token := AccessToken(email, secret, nowMs);
      if delivered {
        outbox := outbox + [Mail(email, VerificationSubject, token)];
      }
      r := Ok(Sent(delivered, token));
    }

    method UserSignup(f: SignupForm, o: Oracle, delivered: bool, nowMs: int) returns (r: Result<Option<User>, AuthError>)
      requires Valid()
      modifies this
      ensures Valid()
      ensures var s := SignupStep(old(Snapshot()), f, o, delivered, secret, nowMs);
        Snapshot() == s.db && outbox == old(outbox) + s.mails && r == s.result
    {
      if FindUser(Snapshot(), f.email).Some? {
        return Err(UserExists);
      }
      var created := CreateUser(SignupInput(f), o);
      if created.Err? {
        return Err(ValidationFailed("Users", created.error));
      }
      var u := created.value;
      users := users[u.email := u];
      var sent := SendVerificationEmail(f.email, delivered, nowMs);
      if sent.Err? {
        return Err(sent.error);
      }
      r := if sent.value.isEmailSend then Ok(Some(u)) else Ok(None);
    }

    method RegisterVendor(f: VendorForm, o: Oracle) returns (r: Result<Vendor, AuthError>)
      requires Valid()
      modifies this
      ensures Valid() && outbox == old(outbox)
      ensures var s := RegisterVendorStep(old(Snapshot()), f, o);
        Snapshot() == s.db && r == s.result
    {
      if FindVendor(Snapshot(), f.email).Some? {
        return Err(VendorExists);
      }
      var created := CreateVendor(VendorInputOf(f), o);
      if created.Err? {
        return Err(ValidationFailed("Vendors", created.error));
      }
      var v := created.value;
      vendors := vendors[v.email := v];
      r := Ok(v);
    }

    method VerifyEmail(token: TokenText, nowMs: int) returns (r: Result<UpdateResult, AuthError>)
      requires Valid()
      modifies this
      ensures Valid() && outbox == old(outbox)
      ensures var s := VerifyEmailStep(old(Snapshot()), token, secret, nowMs);
        Snapshot() == s.db && r == s.result
    {
      var verified := Jwt.VerifyWire(token, secret, nowMs);
      if verified.Err? {
        return Err(TokenRejected(verified.error));
      }
      if verified.value.payload.BodyClaim? {
        return Err(CastFailed);
      }
      var k := Lower(verified.value.payload.email);
      var matched, modified := 0, 0;
      if k in users {
        matched := 1;
        if !users[k].verified {
          modified := 1;
        }
        users := users[k := users[k].(verified := true)];
      }
      r := Ok(UpdateResult(matched, modified));
    }

    method ForgotPasswordSendEmail(email: Option<string>, o: Oracle, delivered: bool, nowMs: int) returns (r: Result<ResetMailed, AuthError>)
      requires Valid()
      modifies this`outbox
      ensures Valid()
      ensures var s := ForgotPasswordStep(old(Snapshot()), email, o, delivered, secret, nowMs);
        outbox == old(outbox) + s.mails && r == s.result
    {
      if !Truthy(email) {
        return Err(EmailRequired);
      }
      if !o.isEmail(email.value) {
        return Err(EmailInvalid);
      }
      var account := FindUser(Snapshot(), email.value);
      if account.None? && FindVendor(Snapshot(), email.value).None? {
        return Err(NotRegistered);
      }
      var token := AccessToken(email.value, secret, nowMs);
      if delivered {
        outbox := outbox + [Mail(email.value, ResetSubject, token)];
      }
      r := Ok(ResetMailed(delivered, email.value));
    }

    method ResetPassword(password: Option<string>, token: TokenText, nowMs: int) returns (r: Result<(), AuthError>)
      requires Valid()
      modifies this`users
      ensures Valid()
      ensures var s := ResetPasswordStep(old(Snapshot()), password, token, secret, nowMs);
        Snapshot() == s.db && r == s.result
    {
      if !Jwt.Present(token) {
        return Err(Unauthorized);
      }
      var verified := Jwt.VerifyWire(token, secret, nowMs);
      if verified.Err? {
        return Err(TokenRejected(verified.error));
      }
      if password.None? {
        return Err(HashFailed);
      }
      var digest := Hash(password.value);
      if verified.value.payload.BodyClaim? {
        return Err(CastFailed);
      }
      var k := Lower(verified.value.payload.email);
      if k in users {
        users := users[k := users[k].(password := digest)];
      }
      r := Ok(());
    }
  }
}
