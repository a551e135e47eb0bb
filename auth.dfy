/** The session gate `createAuthHandler` puts in front of a guarded route
    (index.js:134-153). */
module Auth {
  import opened Values
  import opened Handlers

  /** The request header that carries the session identifier. */
  const SessionHeader: string := "session-id"

  const NotLoggedIn: Value := Str("Not logged in.")

  /** The action the gate asks to check a session. */
  const CheckSession: Action := Name(Str("auth.checkSession"))

  /** How the gate ends: it calls `next()`, it answers 403, or its promise
      chain rejects and `.done()` rethrows the error. */
  datatype Verdict = Allow | Deny | Unhandled(error: Value)

  /** The gate's trace for one request. */
  datatype GateRun = GateRun(sent: seq<Sent>, calls: seq<Call>, verdict: Verdict)

  function CheckCall(sessionId: Value, authInfo: Value): Call
  {
    Call(CheckSession, [sessionId, authInfo])
  }

  /** `.catch(defaultError)`: `defaultError` gets the error as its only
      argument, so its `res.send` throws on `undefined` and nothing is sent. */
  function CheckFailed(call: Call): GateRun
  {
    var e := DefaultErrorEffect(false);
    GateRun(e.sends, [call], Unhandled(e.result.error))
  }

  /** The guard function for a route whose authorization entry is
      `authInfo`, applied to one request. */
  function Gate(authInfo: Value, req: Request, exec: Call -> Settled<Value>): (g: GateRun)
    ensures g.verdict.Allow? ==> g.sent == []
    ensures g.verdict.Deny? ==> |g.sent| == 1 && g.sent[0].status == 403
    ensures g.verdict.Unhandled? ==> g.sent == []
    ensures |g.calls| <= 1
  {
    var sessionId := Lookup(req.headers, SessionHeader);
    if !Truthy(sessionId) then GateRun([Sent(403, NotLoggedIn)], [], Deny)
    else
      var call := CheckCall(sessionId, authInfo);
      match exec(call)
      case Thrown(_) => CheckFailed(call)
      case Ok(response) =>
        match Get(response, "result")
        case Thrown(_) => CheckFailed(call)
        case Ok(result) =>
          if Truthy(result) then GateRun([], [call], Allow)
          else GateRun([Sent(403, Get(response, "reason").value)], [call], Deny)
  }

  /** Without a truthy session header the gate answers 403 "Not logged in."
      and calls nothing: neither the session check nor `next`. */
  lemma MissingSessionDenied(authInfo: Value, req: Request, exec: Call -> Settled<Value>)
    requires !Truthy(Lookup(req.headers, SessionHeader))
    ensures Gate(authInfo, req, exec) == GateRun([Sent(403, NotLoggedIn)], [], Deny)
  {
  }

  /** A session check that resolves to a value other than `undefined` or
      `null` whose `result` is falsy answers 403 with its `reason`: an
      object's own `reason`, and `undefined` for a value such as `false` or
      `0`, which has no such property. */
  lemma RejectedSessionDenied(authInfo: Value, req: Request, exec: Call -> Settled<Value>)
    requires Truthy(Lookup(req.headers, SessionHeader))
    requires var r := exec(CheckCall(Lookup(req.headers, SessionHeader), authInfo));
             && r.Ok? && !r.value.Undefined? && !r.value.Null?
             && !(r.value.Obj? && Truthy(Lookup(r.value.props, "result")))
    ensures var r := exec(CheckCall(Lookup(req.headers, SessionHeader), authInfo));
            Gate(authInfo, req, exec).sent
              == [Sent(403, if r.value.Obj? then Lookup(r.value.props, "reason") else Undefined)]
    ensures Gate(authInfo, req, exec).verdict == Deny
  {
  }

  /** The gate calls `next()` exactly when the header is truthy and the
      session check resolves to a value whose `result` is truthy. */
  lemma AllowExactly(authInfo: Value, req: Request, exec: Call -> Settled<Value>)
    ensures var sessionId := Lookup(req.headers, SessionHeader);
            var r := exec(CheckCall(sessionId, authInfo));
            Gate(authInfo, req, exec).verdict == Allow <==>
              && Truthy(sessionId)
              && r.Ok?
              && Get(r.value, "result").Ok?
              && Truthy(Get(r.value, "result").value)
  {
  }

  /** A session check that fails sends no response at all: the error ends
      unhandled instead of becoming a 500. */
  lemma FailedCheckSendsNothing(authInfo: Value, req: Request, exec: Call -> Settled<Value>)
    requires Truthy(Lookup(req.headers, SessionHeader))
    requires exec(CheckCall(Lookup(req.headers, SessionHeader), authInfo)).Thrown?
    ensures Gate(authInfo, req, exec).sent == []
    ensures Gate(authInfo, req, exec).verdict == Unhandled(TypeError)
  {
  }

  /** The function `createAuthHandler(authInfo)` returns, applied to one
      request. */
  method Guard(authInfo: Value, req: Request, res: Response, actions: Actions) returns (verdict: Verdict)
    modifies res, actions
    ensures var g := Gate(authInfo, req, actions.behaviour);
            && res.sent == old(res.sent) + g.sent
            && actions.log == old(actions.log) + g.calls
            && verdict == g.verdict
  {
    var sessionId := Lookup(req.headers, SessionHeader);
    if !Truthy(sessionId) {
      res.Send(403, NotLoggedIn);
      return Deny;
    }
    var response := actions.Execute(CheckCall(sessionId, authInfo));
    if response.Ok? {
      var result := Get(response.value, "result");
      if result.Ok? {
        if Truthy(result.value) {
          return Allow;
        }
        res.Send(403, Get(response.value, "reason").value);
        return Deny;
      }
    }
    // defaultError(error) logs, then throws reading `send` of `undefined`.
    verdict := Unhandled(TypeError);
  }
}
