/**
 * The routes of the three routers, with the gates each registers before
 * its controller, and the access each endpoint is meant to have: listing
 * users or sessions is meant for admins, every other user or session
 * route for authenticated callers, login and signup for anyone.
 */
module Routes {
  import opened Wrappers
  import opened JsValues
  import opened Middleware
  import opened Pipeline

  datatype Router = Users | Sessions | Auth

  datatype Verb = Get | Post | Put | Delete

  /** One registration: `router.<verb>(path, ...gates, handler)`. */
  datatype Route = Route(router: Router, verb: Verb, path: string, gates: seq<Gate>, handler: string)

  const AdminChain: seq<Gate> := [Authenticator, IsAdmin]
  const AuthChain: seq<Gate> := [Authenticator]

  /** `router` in the user routes: every route runs `authenticator` first. */
  function UserRoutes(): (routes: seq<Route>)
    ensures forall r :: r in routes ==> r.router == Users && r.gates != [] && r.gates[0] == Authenticator
    // listing runs `authenticator, isAdmin`; every other route `authenticator` alone
    ensures forall r :: r in routes ==>
              if r.verb == Get && r.path == "/" then r.gates == AdminChain else r.gates == AuthChain
  {
    [
      Route(Users, Get, "/", AdminChain, "index"),
      Route(Users, Get, "/:id", AuthChain, "show"),
      Route(Users, Put, "/:id", AuthChain, "update"),
      Route(Users, Delete, "/:id", AuthChain, "destroy")
    ]
  }

  /** `sessionRouter`: every route runs `authenticator` first. */
  function SessionRoutes(): (routes: seq<Route>)
    ensures forall r :: r in routes ==> r.router == Sessions && r.gates != [] && r.gates[0] == Authenticator
    // listing runs `authenticator, isAdmin`; every other route `authenticator` alone
    ensures forall r :: r in routes ==>
              if r.verb == Get && r.path == "/" then r.gates == AdminChain else r.gates == AuthChain
  {
    [
      Route(Sessions, Get, "/", AdminChain, "index"),
      Route(Sessions, Get, "/:id", AuthChain, "show"),
      Route(Sessions, Post, "/", AuthChain, "create"),
      Route(Sessions, Delete, "/:id", AuthChain, "destroy")
    ]
  }

  /** `userRouter` of the auth routes: login and signup run no gate. */
  function AuthRoutes(): (routes: seq<Route>)
    ensures forall r :: r in routes ==> r.router == Auth && r.gates == []
  {
    [
      Route(Auth, Post, "/login", [], "login"),
      Route(Auth, Post, "/signup", [], "signup")
    ]
  }

  const AllRoutes: seq<Route> := UserRoutes() + SessionRoutes() + AuthRoutes()

  /** Who may reach a controller. */
  datatype Access = Public | Authenticated | AdminOnly

  /** The access each endpoint is meant to have, written independently of the gate lists. */
  function Policy(router: Router, verb: Verb, path: string): Access {
    if router == Auth then Public
    else if verb == Get && path == "/" then AdminOnly
    else Authenticated
  }

  /** Whether a caller presenting this header is allowed under the given access level. */
  predicate Permits(access: Access, verify: Verifier, authorization: Option<string>) {
    match access
    case Public => true
    case Authenticated => TokenUser(verify, authorization).Some?
    case AdminOnly => HasAdmin(TokenUser(verify, authorization))
  }

  /** Whether a fresh request with this header reaches the route's controller. */
  predicate Reaches(route: Route, verify: Verifier, authorization: Option<string>) {
    RunChain(route.gates, verify, Fresh(authorization)).reached
  }

  /**
   * `[authenticator, isAdmin]`: the controller is reached iff the header is
   * present, the token verifies and its `isAdmin` claim is truthy; the user
   * it sees is exactly `{id, isAdmin}` of the token.
   */
  lemma AdminChainReach(verify: Verifier, authorization: Option<string>)
    ensures RunChain(AdminChain, verify, Fresh(authorization)).reached
            <==> !TokenMissing(authorization) && verify(authorization.value).Success?
                 && Truthy(Claim(verify(authorization.value).value, "isAdmin"))
    ensures RunChain(AdminChain, verify, Fresh(authorization)).reached
            ==> RunChain(AdminChain, verify, Fresh(authorization)).final.req.user == TokenUser(verify, authorization)
  {
  }

  /** `[authenticator]`: the controller is reached iff the header is present and the token verifies. */
  lemma AuthChainReach(verify: Verifier, authorization: Option<string>)
    ensures RunChain(AuthChain, verify, Fresh(authorization)).reached
            <==> !TokenMissing(authorization) && verify(authorization.value).Success?
  {
  }

  /** The verifier with the `isAdmin` claim of every payload it accepts replaced by `admin`. */
  function WithAdminClaim(verify: Verifier, admin: JsValue): Verifier {
    token =>
      match verify(token)
      case Success(decoded) => Success(decoded["isAdmin" := admin])
      case Failure(e) => Failure(e)
  }

  /** On `[authenticator]` the `isAdmin` claim has no bearing on reaching the controller. */
  lemma AdminClaimIrrelevantOnAuthChain(verify: Verifier, admin: JsValue, authorization: Option<string>)
    ensures RunChain(AuthChain, verify, Fresh(authorization)).reached
            == RunChain(AuthChain, WithAdminClaim(verify, admin), Fresh(authorization)).reached
  {
  }

  /** Every registered route lets through exactly the callers its access policy allows. */
  lemma RoutesEnforcePolicy(verify: Verifier, authorization: Option<string>)
    ensures forall r :: r in AllRoutes ==>
              (Reaches(r, verify, authorization) <==> Permits(Policy(r.router, r.verb, r.path), verify, authorization))
  {
    AdminChainReach(verify, authorization);
    AuthChainReach(verify, authorization);
    forall r | r in AllRoutes
      ensures Reaches(r, verify, authorization) <==> Permits(Policy(r.router, r.verb, r.path), verify, authorization)
    {
      assert r.gates == AdminChain <==> Policy(r.router, r.verb, r.path) == AdminOnly;
      assert r.gates == AuthChain <==> Policy(r.router, r.verb, r.path) == Authenticated;
      assert r.gates == [] <==> Policy(r.router, r.verb, r.path) == Public;
    }
  }

  /** Login and signup register no gate: every request reaches their controllers. */
  lemma AuthRoutesOpen(verify: Verifier, authorization: Option<string>)
    ensures forall r :: r in AuthRoutes() ==> Reaches(r, verify, authorization) && r in AllRoutes
  {
  }

  /**
   * A request without a token is answered 403 "Missing token" on every gated
   * route and never reaches a controller, so no controller or store is touched.
   */
  lemma MissingTokenRejected(verify: Verifier, authorization: Option<string>)
    requires TokenMissing(authorization)
    ensures forall r :: r in AllRoutes && r.gates != [] ==>
              var d := RunChain(r.gates, verify, Fresh(authorization));
              !d.reached && d.ran == 1 && d.final.res == ResponseState(true, Forbidden, Message(MissingToken))
  {
    forall r | r in AllRoutes && r.gates != []
      ensures var d := RunChain(r.gates, verify, Fresh(authorization));
              !d.reached && d.ran == 1 && d.final.res == ResponseState(true, Forbidden, Message(MissingToken))
    {
      assert r.gates[0] == Authenticator;
    }
  }
}
