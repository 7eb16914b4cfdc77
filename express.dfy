/**
 * The middleware as the server runs it: over Express's mutable `req` and
 * `res` objects and the `next` continuation. Each method is proved to
 * leave the objects in the state the matching function of module
 * Middleware computes from the state before the call.
 */
module Express {
  import opened Wrappers
  import opened JsValues
  import opened Middleware
  import Pipeline

  /** `req`: the headers are fixed, `req.user` is assigned by `authenticator`. */
  class Request {
    const authorization: Option<string>
    var user: Option<User>

    /** A request as it arrives: `req.user` is undefined. */
    constructor (authorization: Option<string>)
      ensures this.authorization == authorization && user == None
    {
      this.authorization := authorization;
      user := None;
    }
  }

  /** `res`: the status code and the JSON body sent, if any. */
  class Response {
    var written: bool
    var statusCode: int
    var error: string

    constructor ()
      ensures !written && statusCode == DefaultStatus && error == ""
    {
      written, statusCode, error := false, DefaultStatus, "";
    }

    /** `res.status(code)`. */
    method Status(code: int)
      modifies this
      ensures statusCode == code && written == old(written) && error == old(error)
    {
      statusCode := code;
    }

    /** `res.json({ error: message })`. */
    method Json(message: string)
      modifies this
      ensures written && error == message && statusCode == old(statusCode)
    {
      written, error := true, message;
    }
  }

  /** The `next` continuation, counting how often it is invoked. */
  class Next {
    var calls: nat

    constructor ()
      ensures calls == 0
    {
      calls := 0;
    }

    method Call()
      modifies this
      ensures calls == old(calls) + 1
    {
      calls := calls + 1;
    }
  }

  /** The token library: an oracle, and the list of tokens it has been asked about. */
  class Jwt {
    const verify: Verifier
    var tokens: seq<string>

    constructor (verify: Verifier)
      ensures this.verify == verify && tokens == []
    {
      this.verify := verify;
      tokens := [];
    }

    /** `jwt.verify(token, SECRET, callback)`, with the callback's arguments returned. */
    method Verify(token: string) returns (r: Result<Claims, VerifyError>)
      modifies this
      ensures r == verify(token) && tokens == old(tokens) + [token]
    {
      r := verify(token);
      tokens := tokens + [token];
    }
  }

  /** The exchange the three objects currently represent. */
  function View(req: Request, res: Response, next: Next): Exchange
    reads req, res, next
  {
    Exchange(RequestState(req.authorization, req.user),
             ResponseState(res.written, res.statusCode, res.error),
             next.calls)
  }

  /** `authenticator(req, res, next)`. */
  method Authenticator(req: Request, res: Response, next: Next, jwt: Jwt)
    modifies req, res, next, jwt
    ensures View(req, res, next) == Authenticate(jwt.verify, old(View(req, res, next)))
    ensures jwt.tokens == old(jwt.tokens) + Consulted(req.authorization)
  {
    var token := req.authorization;
    if TokenMissing(token) {
      res.Status(Forbidden);
      res.Json(Message(MissingToken));
      return;
    }
    var verdict := jwt.Verify(token.value);
    match verdict
    case Failure(_) =>
      res.Status(Forbidden);
      res.Json(Message(InvalidToken));
    case Success(decoded) =>
      req.user := Some(UserOf(decoded));
      next.Call();
  }

  /** `isAdmin(req, res, next)`: it reads `req.user` and may only touch `res` and `next`. */
  method IsAdmin(req: Request, res: Response, next: Next)
    modifies res, next
    ensures View(req, res, next) == AdminGate(old(View(req, res, next)))
  {
    if req.user.Some? && Truthy(req.user.value.isAdmin) {
      next.Call();
      return;
    }
    res.Status(Forbidden);
    res.Json(Message(AdminsOnly));
  }

  /**
   * What Express does for a route registered with `authenticator, isAdmin`:
   * a fresh request runs `authenticator`, whose `next` runs `isAdmin`, whose
   * `next` reaches the controller.
   */
  method ServeAdminRoute(authorization: Option<string>, jwt: Jwt) returns (reached: bool, req: Request, res: Response)
    modifies jwt
    // the objects end as the gate chain `[authenticator, isAdmin]` says: same outcome, same request, same response
    ensures var d := Pipeline.RunChain([Pipeline.Authenticator, Pipeline.IsAdmin], jwt.verify, Pipeline.Fresh(authorization));
            && reached == d.reached
            && RequestState(req.authorization, req.user) == d.final.req
            && ResponseState(res.written, res.statusCode, res.error) == d.final.res
    ensures reached <==> HasAdmin(TokenUser(jwt.verify, authorization))
    ensures reached <==> !res.written
    ensures !reached ==> res.statusCode == Forbidden
    ensures TokenMissing(authorization) ==> jwt.tokens == old(jwt.tokens)
  {
    req := new Request(authorization);
    res := new Response();
    var next := new Next();
    Authenticator(req, res, next, jwt);
    reached := false;
    if next.calls == 1 {
      IsAdmin(req, res, next);
      reached := next.calls == 2;
    }
  }
}
