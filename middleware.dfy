/**
 * The two middleware stages of the server, `authenticator` and `isAdmin`,
 * as functions from the state of one request/response exchange to the
 * state after the stage has run. The imperative versions over Express's
 * request and response objects are in module Express and are proved to
 * agree with these functions.
 */
module Middleware {
  import opened Wrappers
  import opened JsValues

  /** Why the token library refused a token; the middleware does not distinguish them. */
  datatype VerifyError = Malformed | BadSignature | Expired | NotYetActive

  /**
   * `jwt.verify(token, SECRET, callback)`, reduced to what the callback sees:
   * an error, or the decoded payload. The secret and the clock are inside the oracle.
   */
  type Verifier = string -> Result<Claims, VerifyError>

  /** The identity `authenticator` attaches to `req.user`. */
  datatype User = User(id: JsValue, isAdmin: JsValue)

  /** What the middleware sees of `req`: the `authorization` header and `req.user`. */
  datatype RequestState = RequestState(authorization: Option<string>, user: Option<User>)

  /** What the middleware sees of `res`: whether a body was sent, the status code and the `error` field of the body. */
  datatype ResponseState = ResponseState(written: bool, status: int, error: string)

  /** One exchange: the request, the response and how often `next` has been called. */
  datatype Exchange = Exchange(req: RequestState, res: ResponseState, nextCalls: nat)

  /** The status every rejection uses. */
  const Forbidden: int := 403

  /** Express's status code before anything sets one. */
  const DefaultStatus: int := 200

  /** A response nothing has been written to yet. */
  const Unsent := ResponseState(false, DefaultStatus, "")

  /** The three ways a request is turned away. */
  datatype Reason = MissingToken | InvalidToken | AdminsOnly

  /** The `error` message sent for each reason. */
  function Message(reason: Reason): (m: string)
    // always one of the three fixed literals
    ensures m in {"Missing token", "Invalid token", "Forbidden: Admins only"}
  {
    match reason
    case MissingToken => "Missing token"
    case InvalidToken => "Invalid token"
    case AdminsOnly => "Forbidden: Admins only"
  }

  /** Which reason a sent message stands for, if any; the inverse of Message. */
  function ReasonOf(message: string): (r: Option<Reason>)
    ensures r.Some? ==> Message(r.value) == message
  {
    if message == Message(MissingToken) then Some(MissingToken)
    else if message == Message(InvalidToken) then Some(InvalidToken)
    else if message == Message(AdminsOnly) then Some(AdminsOnly)
    else None
  }

  /** Every message identifies its reason, so the three messages are pairwise distinct. */
  lemma ReasonOfMessage(reason: Reason)
    ensures ReasonOf(Message(reason)) == Some(reason)
  {
  }

  /** The header as JavaScript reads it: `undefined` when absent, a string otherwise. */
  function HeaderValue(authorization: Option<string>): (v: JsValue)
    ensures authorization.None? <==> v == Undefined
    ensures authorization.Some? ==> v == Str(authorization.value)
  {
    match authorization
    case None => Undefined
    case Some(s) => Str(s)
  }

  /** `!token`: the header is absent (undefined) or the empty string. */
  predicate TokenMissing(authorization: Option<string>)
    ensures TokenMissing(authorization) <==> !Truthy(HeaderValue(authorization))
  {
    authorization.None? || authorization.value == ""
  }

  /** The tokens handed to the verifier when the header is read: none when it is missing. */
  function Consulted(authorization: Option<string>): (tokens: seq<string>)
    ensures |tokens| <= 1
    ensures tokens == [] <==> TokenMissing(authorization)
  {
    if TokenMissing(authorization) then [] else [authorization.value]
  }

  /** `{id: decoded.id, isAdmin: decoded.isAdmin}`; every other claim is dropped. */
  function UserOf(decoded: Claims): (u: User)
    ensures u.id == Claim(decoded, "id") && u.isAdmin == Claim(decoded, "isAdmin")
  {
    User(Claim(decoded, "id"), Claim(decoded, "isAdmin"))
  }

  /** Any claim besides `id` and `isAdmin` has no bearing on the user attached. */
  lemma UserOfDropsOtherClaims(decoded: Claims, name: string, value: JsValue)
    requires name != "id" && name != "isAdmin"
    ensures UserOf(decoded[name := value]) == UserOf(decoded)
    ensures UserOf(decoded - {name}) == UserOf(decoded)
  {
  }

  /** `res.status(403).json({ error: message })`. */
  function Reject(x: Exchange, reason: Reason): (y: Exchange)
    ensures RejectedFor(x, y, reason)
  {
    x.(res := ResponseState(true, Forbidden, Message(reason)))
  }

  /** The stage called `next` once and left the response alone. */
  predicate Continues(x: Exchange, y: Exchange) {
    y.nextCalls == x.nextCalls + 1 && y.res == x.res
  }

  /**
   * The stage answered 403 with one of the three messages, did not call
   * `next` and left the request as it was.
   */
  predicate Rejected(x: Exchange, y: Exchange) {
    && y.req == x.req
    && y.nextCalls == x.nextCalls
    && y.res.written
    && y.res.status == Forbidden
    && ReasonOf(y.res.error).Some?
  }

  /** The stage rejected for this particular reason. */
  predicate RejectedFor(x: Exchange, y: Exchange, reason: Reason) {
    Rejected(x, y) && y.res.error == Message(reason)
  }

  /** The user a request carrying this header ends up with once `authenticator` lets it through. */
  function TokenUser(verify: Verifier, authorization: Option<string>): (u: Option<User>)
    ensures u.Some? <==> !TokenMissing(authorization) && verify(authorization.value).Success?
  {
    if TokenMissing(authorization) then None
    else match verify(authorization.value)
      case Success(decoded) => Some(UserOf(decoded))
      case Failure(_) => None
  }

  /** `req.user` as JavaScript reads it: undefined, or the object `authenticator` stored. */
  function UserValue(user: Option<User>): JsValue {
    if user.None? then Undefined else Object
  }

  /** `req.user.isAdmin` as JavaScript reads it; only evaluated by `&&` when `req.user` is truthy. */
  function AdminValue(user: Option<User>): JsValue {
    if user.None? then Undefined else user.value.isAdmin
  }

  /** `req.user && req.user.isAdmin`, where `req.user` is undefined or an object. */
  predicate HasAdmin(user: Option<User>)
    ensures HasAdmin(user) <==> Truthy(UserValue(user)) && Truthy(AdminValue(user))
  {
    user.Some? && Truthy(user.value.isAdmin)
  }

  /** The `authenticator` stage. */
  function Authenticate(verify: Verifier, x: Exchange): (y: Exchange)
    ensures y.req.authorization == x.req.authorization
    // a missing header is refused before the verifier is asked
    ensures TokenMissing(x.req.authorization) ==> RejectedFor(x, y, MissingToken)
    // a token the verifier refuses is answered 403 and req.user is untouched
    ensures !TokenMissing(x.req.authorization) && verify(x.req.authorization.value).Failure?
            ==> RejectedFor(x, y, InvalidToken)
    // a verified token attaches exactly {id, isAdmin} and continues once
    ensures !TokenMissing(x.req.authorization) && verify(x.req.authorization.value).Success?
            ==> Continues(x, y) && y.req.user == Some(UserOf(verify(x.req.authorization.value).value))
    // exactly one of: respond, or call next
    ensures Continues(x, y) != Rejected(x, y)
    ensures Continues(x, y) <==> TokenUser(verify, x.req.authorization).Some?
  {
    var token := x.req.authorization;
    if TokenMissing(token) then
      Reject(x, MissingToken)
    else
      match verify(token.value)
      case Failure(_) => Reject(x, InvalidToken)
      case Success(decoded) =>
        x.(req := x.req.(user := Some(UserOf(decoded))), nextCalls := x.nextCalls + 1)
  }

  /** The `isAdmin` stage. */
  function AdminGate(x: Exchange): (y: Exchange)
    // req (and so req.user) is only read
    ensures y.req == x.req
    ensures Continues(x, y) <==> HasAdmin(x.req.user)
    ensures !HasAdmin(x.req.user) ==> RejectedFor(x, y, AdminsOnly)
    ensures Continues(x, y) != Rejected(x, y)
  {
    if HasAdmin(x.req.user) then
      x.(nextCalls := x.nextCalls + 1)
    else
      Reject(x, AdminsOnly)
  }

  /** With the header missing the verifier's answers make no difference: it is never consulted. */
  lemma MissingTokenIgnoresVerifier(v1: Verifier, v2: Verifier, x: Exchange)
    requires TokenMissing(x.req.authorization)
    ensures Authenticate(v1, x) == Authenticate(v2, x)
  {
  }
}
