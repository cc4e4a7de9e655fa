/** The shapes of the requests and responses the core sees: request bodies,
    the payload a token carries, cookies and response bodies. */
module Http {
  import opened Wrappers
  import Jwt
  import opened UserModel

  /** `req.body` of `POST /login`; `user` is the field the login middleware sets. */
  datatype LoginBody = LoginBody(email: Option<string>, password: Option<string>, user: Option<Account>)

  /** What a token's `payload` claim holds: an email, or at login the whole
      request body. */
  datatype Claim = EmailClaim(email: string) | BodyClaim(body: LoginBody)

  type SessionToken = Jwt.Token<Claim>

  /** A token string received from a client (a route parameter or a cookie). */
  type TokenText = Jwt.Wire<Claim>

  datatype SignupBody = SignupBody(
    email: Option<string>, password: Option<string>,
    firstName: Option<string>, lastName: Option<string>)

  datatype VendorBody = VendorBody(
    email: Option<string>, firstName: Option<string>, lastName: Option<string>,
    businessName: Option<string>, businessCategory: Option<string>,
    phone: Option<string>, state: Option<string>)

  /** A signup body whose four fields the signup middleware found present. */
  datatype SignupForm = SignupForm(email: string, password: string, firstName: string, lastName: string)

  /** A vendor body whose seven fields the vendor middleware found present. */
  datatype VendorForm = VendorForm(
    email: string, firstName: string, lastName: string, businessName: string,
    businessCategory: string, phone: string, state: string)

  /** `res.cookie(name, value, { expires, httpOnly })`; `expiresMs` is the
      expiry instant in milliseconds, `None` for a session cookie. */
  datatype Cookie = Cookie(name: string, value: SessionToken, expiresMs: Option<int>, httpOnly: bool)

  /** The JSON bodies the handlers send. */
  datatype Body =
    | StatusMessage(status: int, message: string)
    | StatusData(status: int, message: string, data: Option<Account>)
    | StatusFlag(flag: bool, message: string)
    | Outcome(success: bool, message: string, token: Option<SessionToken>)

  /** `res.status(code).send(body)`, with the cookie set before it, if any. */
  datatype Response = Response(code: int, body: Body, cookie: Option<Cookie>)
}
