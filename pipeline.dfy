/**
 * A route's gate list run in order, as Express does: each gate either
 * calls `next`, which hands the exchange to the following gate (and after
 * the last gate to the controller), or answers the request itself, which
 * ends the chain.
 */
module Pipeline {
  import opened Wrappers
  import opened Middleware

  /** The middleware a route can list before its controller. */
  datatype Gate = Authenticator | IsAdmin

  /** How a chain ended: the final exchange, how many gates ran, whether the controller was reached. */
  datatype Dispatch = Dispatch(final: Exchange, ran: nat, reached: bool)

  /** One gate. */
  function RunGate(g: Gate, verify: Verifier, x: Exchange): (y: Exchange)
    ensures y.req.authorization == x.req.authorization
    // every gate either continues or rejects, never both
    ensures Continues(x, y) != Rejected(x, y)
  {
    match g
    case Authenticator => Authenticate(verify, x)
    case IsAdmin => AdminGate(x)
  }

  /** The gates in order, stopping at the first one that does not call `next`. */
  function RunChain(gates: seq<Gate>, verify: Verifier, x: Exchange): (d: Dispatch)
    ensures d.ran <= |gates|
    ensures d.final.req.authorization == x.req.authorization
    // reaching the controller: every gate called next once and nothing was written
    ensures d.reached ==> d.ran == |gates| && d.final.res == x.res && d.final.nextCalls == x.nextCalls + |gates|
    // a rejection: the gates before the rejecting one called next, and it answered 403
    ensures !d.reached ==> 0 < d.ran && d.final.nextCalls == x.nextCalls + d.ran - 1
                           && d.final.res.written && d.final.res.status == Forbidden
                           && ReasonOf(d.final.res.error).Some?
    decreases |gates|
  {
    if gates == [] then
      Dispatch(x, 0, true)
    else
      var y := RunGate(gates[0], verify, x);
      if Continues(x, y) then
        var d := RunChain(gates[1..], verify, y);
        d.(ran := d.ran + 1)
      else
        Dispatch(y, 1, false)
  }

  /** A fresh exchange: the request carries only its header and nothing has been answered. */
  function Fresh(authorization: Option<string>): Exchange {
    Exchange(RequestState(authorization, None), Unsent, 0)
  }

  /**
   * Nothing downstream of a rejection runs: gates appended after a chain
   * that rejected never change the outcome.
   */
  lemma {:induction false} RejectionIsFinal(gates: seq<Gate>, more: seq<Gate>, verify: Verifier, x: Exchange)
    requires !RunChain(gates, verify, x).reached
    ensures RunChain(gates + more, verify, x) == RunChain(gates, verify, x)
  {
    assert gates != [];
    assert (gates + more)[0] == gates[0];
    assert (gates + more)[1..] == gates[1..] + more;
    var y := RunGate(gates[0], verify, x);
    if Continues(x, y) {
      RejectionIsFinal(gates[1..], more, verify, y);
    }
  }

  /** A chain that reaches its controller hands the following gates the exchange it ended with. */
  lemma {:induction false} ReachedComposes(gates: seq<Gate>, more: seq<Gate>, verify: Verifier, x: Exchange)
    requires RunChain(gates, verify, x).reached
    ensures RunChain(gates + more, verify, x).final == RunChain(more, verify, RunChain(gates, verify, x).final).final
    ensures RunChain(gates + more, verify, x).reached == RunChain(more, verify, RunChain(gates, verify, x).final).reached
  {
    if gates == [] {
      assert gates + more == more;
    } else {
      assert (gates + more)[0] == gates[0];
      assert (gates + more)[1..] == gates[1..] + more;
      ReachedComposes(gates[1..], more, verify, RunGate(gates[0], verify, x));
    }
  }

  /**
   * The user the controller sees: the one the token yields when the chain
   * holds an `authenticator`, and the user the request came with otherwise;
   * and an `authenticator` in the chain lets only a verified token through.
   */
  lemma {:induction false} ChainUser(gates: seq<Gate>, verify: Verifier, x: Exchange)
    ensures RunChain(gates, verify, x).reached && Authenticator in gates
            ==> TokenUser(verify, x.req.authorization).Some?
    ensures RunChain(gates, verify, x).reached
            ==> RunChain(gates, verify, x).final.req.user
                == (if Authenticator in gates then TokenUser(verify, x.req.authorization) else x.req.user)
    decreases |gates|
  {
    if gates != [] {
      var y := RunGate(gates[0], verify, x);
      assert Authenticator in gates <==> gates[0] == Authenticator || Authenticator in gates[1..];
      if Continues(x, y) {
        ChainUser(gates[1..], verify, y);
      }
    }
  }

  /**
   * An `isAdmin` gate anywhere in the chain lets the controller run only for
   * a token whose `isAdmin` claim is truthy, provided the request did not
   * already carry some other user.
   */
  lemma {:induction false} GuardedByAdminGate(gates: seq<Gate>, verify: Verifier, x: Exchange)
    requires x.req.user == None || x.req.user == TokenUser(verify, x.req.authorization)
    requires IsAdmin in gates
    ensures RunChain(gates, verify, x).reached ==> HasAdmin(TokenUser(verify, x.req.authorization))
    decreases |gates|
  {
    var y := RunGate(gates[0], verify, x);
    if Continues(x, y) && gates[0] != IsAdmin {
      assert IsAdmin in gates[1..];
      GuardedByAdminGate(gates[1..], verify, y);
    }
  }

  /** With the header missing, a chain's outcome does not depend on the verifier. */
  lemma {:induction false} MissingTokenChainIgnoresVerifier(gates: seq<Gate>, v1: Verifier, v2: Verifier, x: Exchange)
    requires TokenMissing(x.req.authorization)
    ensures RunChain(gates, v1, x) == RunChain(gates, v2, x)
    decreases |gates|
  {
    if gates != [] {
      var y := RunGate(gates[0], v1, x);
      assert y == RunGate(gates[0], v2, x);
      if Continues(x, y) {
        MissingTokenChainIgnoresVerifier(gates[1..], v1, v2, y);
      }
    }
  }
}
