# GeoGame request authorization, in Dafny

This project models how the GeoGame server decides whether an HTTP request
may reach a controller. There are two middleware stages:

- `authenticator` reads the `authorization` header. If the header is missing
  or empty, it answers 403 `Missing token`. Otherwise it asks the token
  library to verify the token. If verification fails, it answers 403
  `Invalid token`. If it succeeds, it sets `req.user` to the token's
  `{id, isAdmin}` and calls `next`.
- `isAdmin` calls `next` only when `req.user` is set and its `isAdmin` is
  truthy. Otherwise it answers 403 `Forbidden: Admins only`.

The route files give each route a list of these gates before its controller.

The model has three layers:

- `Middleware` (middleware.dfy): the two stages as functions over the state
  of one exchange. That state is the request's header and user, the response
  (written or not, status code, `error` message) and the number of `next`
  calls.
- `Express` (express.dfy): the stages as methods that update mutable
  `Request`, `Response` and `Next` objects and a `Jwt` verifier object. Each
  middleware method is proved to leave those objects exactly as the matching
  function says, and running the admin route on fresh objects is proved to
  end exactly as the gate chain does.
- `Pipeline` and `Routes` (pipeline.dfy, routes.dfy): gate lists run in
  order, plus the route table as data. A lemma shows that every route admits
  exactly the callers it is meant for: listing users or sessions is meant
  for admins, the other user and session routes for authenticated callers,
  and login and signup for anyone.

Token verification (`jwt.verify`) is an oracle parameter of type
`string -> Result<Claims, VerifyError>`. The signing secret, the clock and
the cryptography sit behind that oracle. A decoded payload is a map from
claim names to JavaScript values, and truthiness follows JavaScript. The
`Jwt` object records every token it is asked about, so "the verifier was
never consulted" can be stated: the record stays unchanged. At the function
level, the same fact is that the result does not depend on the verifier.

A missing token is usually taken to mean an absent header. The code tests
`!token`, so an empty header counts as missing too. The model follows the
code.

## Model

| member | source | states |
|---|---|---|
| `Middleware.Authenticate` | server/middleware/authmiddleware.js:6-26 | the header is never changed; missing/empty header gives 403 `Missing token` with request and `next` count unchanged; a refused token gives 403 `Invalid token` with `req.user` unchanged; a verified token sets `req.user` to exactly `{id, isAdmin}` of the payload, calls `next` once and writes nothing; exactly one of "continue" and "reject" happens, and it continues iff the token verifies |
| `JsValues.Truthy` | server/middleware/authmiddleware.js:9-30 | definition of JavaScript truthiness, as `if (!token)` and `req.user && req.user.isAdmin` use it: the falsy values are exactly `undefined`, `null`, `false`, `0` and `""` |
| `Middleware.TokenMissing` | server/middleware/authmiddleware.js:9 | definition of `!token`: the header is missing exactly when its JavaScript value (`undefined` when absent, else the string) is falsy |
| `Middleware.UserOf` | server/middleware/authmiddleware.js:19-22 | definition of the attached user: `id` and `isAdmin` are the payload's `id` and `isAdmin` claims, `undefined` when absent |
| `Middleware.UserOfDropsOtherClaims` | server/middleware/authmiddleware.js:19-22 | adding, changing or removing any claim other than `id` and `isAdmin` leaves the attached user unchanged |
| `Middleware.Reject` | server/middleware/authmiddleware.js:10-33 | definition of `res.status(403).json({error})`: the response is written with status 403 and the reason's message, while the request and the `next` count stay unchanged |
| `JsValues.Claim` | server/middleware/authmiddleware.js:20-21 | definition of `decoded.id` / `decoded.isAdmin`: the claim's value when the payload has it, `undefined` otherwise |
| `Middleware.HeaderValue` | server/middleware/authmiddleware.js:7 | definition of `req.headers['authorization']`: `undefined` exactly when the header is absent, otherwise the header string |
| `Middleware.Message` | server/middleware/authmiddleware.js:10-33 | definition of the error bodies: every message is one of the three literals `Missing token`, `Invalid token`, `Forbidden: Admins only` |
| `Middleware.HasAdmin` | server/middleware/authmiddleware.js:30 | definition of `req.user && req.user.isAdmin`: holds exactly when `req.user` (undefined or an object) is truthy and its `isAdmin` is truthy, as JavaScript's `&&` evaluates it |
| `Middleware.AdminGate` | server/middleware/authmiddleware.js:29-34 | the request (including `req.user`) is only read; it calls `next` iff `req.user` is set and its `isAdmin` is truthy; otherwise it sends 403 `Forbidden: Admins only`; never both |
| `Middleware.ReasonOf` | server/middleware/authmiddleware.js:10-33 | a recognised message maps back to the reason that sends it |
| `Middleware.ReasonOfMessage` | server/middleware/authmiddleware.js:10-33 | `ReasonOf` inverts `Message`, so the three error messages are pairwise distinct |
| `Middleware.Consulted` | server/middleware/authmiddleware.js:7-13 | the verifier is asked about at most one token, and about none exactly when the header is missing or empty |
| `Middleware.TokenUser` | server/middleware/authmiddleware.js:13-22 | a header yields a user iff it is non-empty and the verifier accepts it |
| `Middleware.MissingTokenIgnoresVerifier` | server/middleware/authmiddleware.js:7-11 | with a missing header, any two verifiers give the same result, so the verifier is not consulted |
| `Express.Response.Status` | server/middleware/authmiddleware.js:10 | `res.status(code)` sets the status and nothing else |
| `Express.Response.Json` | server/middleware/authmiddleware.js:10 | `res.json({error})` marks the response written with that message and keeps the status |
| `Express.Next.Call` | server/middleware/authmiddleware.js:24 | `next()` is counted once per call |
| `Express.Jwt.Verify` | server/middleware/authmiddleware.js:13 | returns the oracle's verdict for the token and records that the token was asked about |
| `Express.Authenticator` | server/middleware/authmiddleware.js:6-26 | the request, response and `next` objects end as `Authenticate` says; the verifier's record grows by the token, or stays unchanged when the header is missing |
| `Express.IsAdmin` | server/middleware/authmiddleware.js:29-34 | may change only `res` and `next` (never `req`), which end as `AdminGate` says |
| `Express.ServeAdminRoute` | server/routes/user_routes.js:7 | running `authenticator` and then `isAdmin` (only if the first called `next`) on fresh objects ends exactly as `Pipeline.RunChain` on `[authenticator, isAdmin]` says: same reached/not reached, same request including `req.user`, same response status, written flag and `error` message |
| `Pipeline.RunGate` | server/middleware/authmiddleware.js:6-34 | every gate either continues or rejects, never both, and never changes the header |
| `Pipeline.RunChain` | server/routes/session_routes.js:8-11 | the number of gates run never exceeds the list; reaching the controller means every gate called `next` once and nothing was written; otherwise the gates before the rejecting one called `next` and the last one to run wrote a 403 with a known message |
| `Pipeline.RejectionIsFinal` | server/middleware/authmiddleware.js:9-16 | after a rejection, no later gate runs: appending gates to a rejecting chain changes nothing |
| `Pipeline.ReachedComposes` | server/routes/user_routes.js:7 | a chain that reaches its controller passes its final exchange unchanged to any gates registered after it |
| `Pipeline.ChainUser` | server/middleware/authmiddleware.js:18-24 | when the controller is reached after an `authenticator`, the token verified and `req.user` is exactly the user the token yields; with no `authenticator`, the user is the one the request came with |
| `Pipeline.GuardedByAdminGate` | server/middleware/authmiddleware.js:29-34 | an `isAdmin` gate anywhere in a chain lets the controller run only for a token whose `isAdmin` claim is truthy (when the request carried no other user) |
| `Pipeline.MissingTokenChainIgnoresVerifier` | server/middleware/authmiddleware.js:7-11 | with a missing header, a whole chain's outcome does not depend on the verifier |
| `Routes.UserRoutes` | server/routes/user_routes.js:7-10 | the user router's four routes all run `authenticator` first; `GET /` runs `[authenticator, isAdmin]` and the others `[authenticator]` |
| `Routes.SessionRoutes` | server/routes/session_routes.js:8-11 | the session router's four routes all run `authenticator` first; `GET /` runs `[authenticator, isAdmin]` and the others `[authenticator]` |
| `Routes.AuthRoutes` | server/routes/auth.js:5-6 | login and signup are registered with no gate |
| `Routes.AdminChainReach` | server/routes/user_routes.js:7 | on `[authenticator, isAdmin]` the controller is reached iff the header is non-empty, the token verifies and its `isAdmin` claim is truthy; the controller then sees exactly that token's user |
| `Routes.AuthChainReach` | server/routes/user_routes.js:8-10 | on `[authenticator]` the controller is reached iff the header is non-empty and the token verifies |
| `Routes.AdminClaimIrrelevantOnAuthChain` | server/routes/session_routes.js:9-11 | on `[authenticator]`, replacing the `isAdmin` claim of every payload does not change whether the controller is reached |
| `Routes.RoutesEnforcePolicy` | server/routes/user_routes.js:7-10 | every registered route of the three routers is reached exactly by the callers its access level allows (admin for listings, authenticated for the rest, public for login/signup) |
| `Routes.AuthRoutesOpen` | server/routes/auth.js:5-6 | login and signup are reached by every request, whatever its header |
| `Routes.MissingTokenRejected` | server/middleware/authmiddleware.js:9-11 | without a token, every gated route answers 403 `Missing token` from its first gate and no controller runs |

## Left out

- Token verification: signature, expiry and payload parsing belong to the `jsonwebtoken` library (JSON Web Token, RFC 7519). The model keeps only the verdict, as an oracle, and treats its callback as a synchronous call.
- The `SECRET` fallback (authmiddleware.js:3) is configuration. It is folded into the oracle.
- JavaScript numbers are integers here, so `NaN` and `-0` are not modelled, and neither is their falsiness. A payload that is a string rather than an object has no claims, so it behaves as an empty claim map.
- Express router registration, module loading and the HTTP mount points are not modelled. The route files require `./middleware/authMiddleware` relative to `server/routes`, and that path does not match `server/middleware/authmiddleware.js`. The model takes the gate lists as intended and does not model module resolution.
- The controllers (`session_controllers`, `user_controllers`, `authControllers`) and the user and session stores are not part of this model. So login, signup, session-registry consistency and the store operations are not modelled. "No store access before a rejection" is stated as "no controller is reached".
- `server/__tests__/user_model.test.js` tests `server/models/user_models`, which is not part of this model. The client form script `client/assets/signup.js` is browser and network code.
- Writing to a response that was already sent (Express would throw) is not modelled. No chain here writes twice.
