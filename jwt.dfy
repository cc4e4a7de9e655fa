/** jsonwebtoken's `sign` and `verify` with a shared secret, as the core uses
    them: payload `{ payload: c }`, `expiresIn: "15m"`. Signatures are modelled
    by recording the key a token was signed with. */
module Jwt {
  import opened Wrappers

  /** `expiresIn: "15m"` in seconds. */
  const ExpiresIn: int := 900

  /** jsonwebtoken's clock: `Math.floor(Date.now() / 1000)`. The divisor is
      positive, so Dafny's division is the floor. */
  function Seconds(nowMs: int): int {
    nowMs / 1000
  }

  datatype Token<C> = Token(payload: C, iat: int, exp: int, key: string)

  /** What `verify` returns: the payload object with its registered claims. */
  datatype Decoded<C> = Decoded(payload: C, iat: int, exp: int)

  datatype TokenError =
    | NotProvided | Malformed | InvalidToken | SignatureRequired | InvalidSignature | Expired(expiredAt: int)

  /** Why a non-empty token string is not a token signed with the secret:
      it does not have three dot-separated parts; its parts do not decode;
      its signature part is empty; or it decodes but its signature does not
      match (a forged or altered payload). */
  datatype Flaw = WrongShape | Undecodable | NoSignature | Forged

  /** A token string as jsonwebtoken reads it: a signed token, or text that
      is not one, with the reason. A signed token is never the empty string. */
  datatype Wire<C> = Signed(token: Token<C>) | Unparsed(text: string, flaw: Flaw)

  function ErrorMessage(e: TokenError): string {
    match e
    case NotProvided => "jwt must be provided"
    case Malformed => "jwt malformed"
    case InvalidToken => "invalid token"
    case SignatureRequired => "jwt signature is required"
    case InvalidSignature => "invalid signature"
    case Expired(_) => "jwt expired"
  }

  /** JavaScript truthiness of the token string. */
  predicate Present<C>(w: Wire<C>) {
    !(w.Unparsed? && w.text == "")
  }

  /** `sign({ payload }, key, { expiresIn: "15m" })` at time `nowMs`. */
  function Sign<C>(payload: C, key: string, nowMs: int): Token<C> {
    var iat := Seconds(nowMs);
    Token(payload, iat, iat + ExpiresIn, key)
  }

  /** `verify(token, key)` at time `nowMs`: the signature is checked first, then
      the expiry; a token is expired from its `exp` second on. */
  function Verify<C>(t: Token<C>, key: string, nowMs: int): (r: Result<Decoded<C>, TokenError>)
    ensures r.Ok? <==> t.key == key && Seconds(nowMs) < t.exp
    ensures r.Ok? ==> r.value.payload == t.payload && r.value.iat == t.iat && r.value.exp == t.exp
    ensures t.key != key ==> r.Err? && r.error == InvalidSignature
    ensures t.key == key && t.exp <= Seconds(nowMs) ==> r.Err? && r.error.Expired?
  {
    if t.key != key then Err(InvalidSignature)
    else if Seconds(nowMs) >= t.exp then Err(Expired(t.exp))
    else Ok(Decoded(t.payload, t.iat, t.exp))
  }

  /** The error jsonwebtoken reports for each flaw. */
  function FlawError(f: Flaw): TokenError {
    match f
    case WrongShape => Malformed
    case Undecodable => InvalidToken
    case NoSignature => SignatureRequired
    case Forged => InvalidSignature
  }

  /** `verify` of a token string: the empty string is "jwt must be provided",
      other text that is not a signed token is rejected with its flaw's error
      (never as expired, since the expiry is read only once the signature
      matched), and a signed token is verified as above. */
  function VerifyWire<C>(w: Wire<C>, key: string, nowMs: int): (r: Result<Decoded<C>, TokenError>)
    ensures w.Unparsed? ==> r.Err? && !r.error.Expired?
    ensures w.Unparsed? && w.text == "" ==> r == Err(NotProvided)
    ensures w.Unparsed? && w.text != "" ==> r == Err(FlawError(w.flaw))
    ensures w.Signed? ==> r == Verify(w.token, key, nowMs)
  {
    match w
    case Signed(t) => Verify(t, key, nowMs)
    case Unparsed(text, flaw) => if text == "" then Err(NotProvided) else Err(FlawError(flaw))
  }

  /** Every issued token carries the given payload and expires exactly
      900 seconds after it was issued. */
  lemma SignWindow<C>(payload: C, key: string, nowMs: int)
    ensures Sign(payload, key, nowMs).payload == payload
    ensures Sign(payload, key, nowMs).iat == Seconds(nowMs)
    ensures Sign(payload, key, nowMs).exp - Sign(payload, key, nowMs).iat == ExpiresIn
  {
  }

  /** Issue then verify with the same key: the payload comes back exactly
      while fewer than 900 whole seconds have passed, and the token is expired
      afterwards. */
  lemma SignThenVerify<C>(payload: C, key: string, issuedMs: int, nowMs: int)
    ensures var r := Verify(Sign(payload, key, issuedMs), key, nowMs);
      if Seconds(nowMs) < Seconds(issuedMs) + ExpiresIn
      then r.Ok? && r.value.payload == payload && r.value.iat == Seconds(issuedMs)
      else r.Err? && r.error.Expired?
  {
  }

  /** On the millisecond clock: because both ends are floored to whole
      seconds, a check less than 899001 ms after issue always passes and one
      900000 ms or more after issue always fails. */
  lemma WindowInMilliseconds<C>(payload: C, key: string, issuedMs: int, nowMs: int)
    requires issuedMs <= nowMs
    ensures nowMs - issuedMs < 899001 ==> Verify(Sign(payload, key, issuedMs), key, nowMs).Ok?
    ensures nowMs - issuedMs >= 900000 ==> Verify(Sign(payload, key, issuedMs), key, nowMs).Err?
  {
  }

  /** A token signed with another key never verifies, whatever the time. */
  lemma OtherKeyRejected<C>(payload: C, signKey: string, verifyKey: string, issuedMs: int, nowMs: int)
    requires signKey != verifyKey
    ensures Verify(Sign(payload, signKey, issuedMs), verifyKey, nowMs) == Err(InvalidSignature)
  {
  }
}
