/** The per-route handler object and its request pipeline:
    `extendHandlerObject`, `getDefaultTransform`, `createHandler`,
    `defaultRespond` and `defaultError` (index.js:62-132). */
module Handlers {
  import opened Values
  import opened Paths

  /** What the server hands the pipeline: headers, route parameters, body. */
  datatype Request = Request(headers: map<string, Value>, params: map<string, Value>, body: Value)

  /** One `res.send(status, body)`. */
  datatype Sent = Sent(status: int, body: Value)

  /** The `handler` field of a handler object: the action name it was given,
      or the function `extendHandlerObject` installs, which calls
      `virgilio.execute` with the previous `handler` value first. */
  datatype Action = Name(name: Value) | Invoke(inner: Action)

  /** One call of `virgilio.execute`: its first argument and the rest. */
  datatype Call = Call(action: Action, args: seq<Value>)

  /** What a user-supplied `respond` or `error` function does: the sends it
      makes on `res`, then how it settles. */
  datatype Effect = Effect(sends: seq<Sent>, result: Settled<Value>)

  datatype Transform =
    | DefaultTransform(params: seq<string>)
    | CustomTransform(apply: Request -> Settled<Value>)

  datatype Respond = DefaultRespond | CustomRespond(apply: Value -> Effect)

  datatype ErrorStage = DefaultError | CustomError(apply: Value -> Effect)

  /** A route's handler specification as written in the route tree: an action
      name, or a handler object. */
  datatype Spec = Named(name: string) | Record(rec: HandlerRecord)

  /** The fields of a handler object; `None` stands for an absent or falsy field. */
  datatype Fields = Fields(
    handler: Action,
    transform: Option<Transform>,
    respond: Option<Respond>,
    error: Option<ErrorStage>,
    fallbackError: Option<ErrorStage>)

  /** The body `defaultError` sends. */
  const ErrorMessage: Value := Str("An error occured")

  /** A handler object that `extendHandlerObject` has completed. */
  predicate Ready(f: Fields)
  {
    f.handler.Invoke? && f.transform.Some? && f.respond.Some? && f.error.Some?
  }

  /** The fields after `extendHandlerObject`, `params` being the parameter
      names of the path the object is registered at. */
  function Extended(f: Fields, params: seq<string>): (g: Fields)
    ensures Ready(g)
  {
    Fields(
      Invoke(f.handler),
      if f.transform.Some? then f.transform else Some(DefaultTransform(params)),
      if f.respond.Some? then f.respond else Some(DefaultRespond),
      if f.error.Some? then f.error else Some(DefaultError),
      Some(DefaultError))
  }

  /** `outer` is `inner` wrapped by zero or more `extendHandlerObject` calls. */
  predicate Wraps(outer: Action, inner: Action)
    decreases outer
  {
    outer == inner || (outer.Invoke? && Wraps(outer.inner, inner))
  }

  lemma {:induction false} WrapsTransitive(a: Action, b: Action, c: Action)
    requires Wraps(b, a) && Wraps(c, b)
    ensures Wraps(c, a)
    decreases c
  {
    if c != b {
      WrapsTransitive(a, b, c.inner);
    }
  }

  /** `g` is what `f` can become by any number of `extendHandlerObject`
      calls: the handler is wrapped again, a field that was present is kept,
      and a field that was absent is absent or holds its default. */
  ghost predicate Grown(f: Fields, g: Fields)
  {
    && Wraps(g.handler, f.handler)
    && (f.transform.Some? ==> g.transform == f.transform)
    && (f.transform.None? && g.transform.Some? ==> g.transform.value.DefaultTransform?)
    && (f.respond.Some? ==> g.respond == f.respond)
    && (f.respond.None? && g.respond.Some? ==> g.respond.value.DefaultRespond?)
    && (f.error.Some? ==> g.error == f.error)
    && (f.error.None? && g.error.Some? ==> g.error.value.DefaultError?)
    && (g.fallbackError == f.fallbackError || g.fallbackError == Some(DefaultError))
  }

  /** One `extendHandlerObject` call grows the fields. */
  lemma ExtendedGrows(f: Fields, params: seq<string>)
    ensures Grown(f, Extended(f, params))
  {
    assert Wraps(f.handler, f.handler);
  }

  lemma GrownTransitive(f: Fields, g: Fields, h: Fields)
    requires Grown(f, g) && Grown(g, h)
    ensures Grown(f, h)
  {
    WrapsTransitive(f.handler, g.handler, h.handler);
  }

  /** A completed handler object stays completed however often it is extended
      again. */
  lemma GrownKeepsReady(f: Fields, g: Fields)
    requires Ready(f) && Grown(f, g)
    ensures Ready(g)
  {
  }

  /** Extending an object twice (one object registered under two method
      keys) wraps its handler twice and keeps the transform of the first
      path: the second call finds every stage already present. */
  lemma ExtendedTwice(f: Fields, first: seq<string>, second: seq<string>)
    ensures Extended(Extended(f, first), second).handler == Invoke(Invoke(f.handler))
    ensures f.transform.None? ==>
      Extended(Extended(f, first), second).transform == Some(DefaultTransform(first))
  {
  }

  /** The argument list the default transform builds: the request's value of
      each parameter, in order, then the body. */
  function DefaultArgs(params: seq<string>, req: Request): seq<Value>
  {
    seq(|params|, i requires 0 <= i < |params| => Lookup(req.params, params[i])) + [req.body]
  }

  /** The value the default transform of `path` reads for the parameter
      segment at index `i` sits after the values of the parameter segments
      before it: parameters are read left to right. */
  lemma DefaultArgsInPathOrder(path: string, req: Request, i: nat)
    requires i < |Split(path)| && IsParam(Split(path)[i])
    ensures var segments := Split(path);
            var args := DefaultArgs(ParamNames(segments), req);
            var k := |ParamNames(segments[..i])|;
            k < |args| - 1 && args[k] == Lookup(req.params, segments[i][1..])
  {
    var segments := Split(path);
    assert segments == segments[..i] + [segments[i]] + segments[i + 1..];
    ParamNamesAppend(segments[..i] + [segments[i]], segments[i + 1..]);
    ParamNamesAppend(segments[..i], [segments[i]]);
  }

  /** The default transform of `path` passes one value per parameter
      segment of the path, in path order, each the request's value for that
      segment's name without its colon, and then the body. */
  lemma DefaultTransformOfPath(path: string, req: Request)
    ensures var ps := ParamSegments(Split(path));
            var args := DefaultArgs(ParamNames(Split(path)), req);
            && |args| == |ps| + 1
            && (forall j :: 0 <= j < |ps| ==> args[j] == Lookup(req.params, ps[j][1..]))
            && args[|ps|] == req.body
  {
    ParamNamesOfParamSegments(Split(path));
  }

  /** `[handler].concat(args)` less its head: `concat` spreads an array
      argument one level and adds anything else as one element. */
  function Spread(args: Value): seq<Value>
  {
    if args.Arr? then args.items else [args]
  }

  /** The transform stage applied to the request. */
  function ApplyTransform(t: Transform, req: Request): Settled<Value>
  {
    match t
    case DefaultTransform(params) => Ok(Arr(DefaultArgs(params, req)))
    case CustomTransform(apply) => apply(req)
  }

  /** `defaultRespond(response, res)` or the user's `respond`. */
  function RespondEffect(stage: Respond, response: Value): Effect
  {
    match stage
    case DefaultRespond => Effect([Sent(200, response)], Ok(Undefined))
    case CustomRespond(apply) => apply(response)
  }

  /** `defaultError(error, res)`: it logs, then sends the fixed message on
      `res`; called without `res`, the send throws a TypeError. */
  function DefaultErrorEffect(hasRes: bool): Effect
  {
    if hasRes then Effect([Sent(500, ErrorMessage)], Ok(Undefined))
    else Effect([], Thrown(TypeError))
  }

  /** The error stage given the error and the request's `res`. */
  function ErrorEffect(stage: ErrorStage, error: Value): Effect
  {
    match stage
    case DefaultError => DefaultErrorEffect(true)
    case CustomError(apply) => apply(error)
  }

  /** A trace of one request through the promise chain: the sends on `res`,
      the `virgilio.execute` calls, the errors given to the error stage, and
      how the chain settles (a rejection is rethrown by `.done()`). */
  datatype Run = Run(sent: seq<Sent>, calls: seq<Call>, errorArgs: seq<Value>, settled: Settled<Value>)

  function Chain(a: Run, b: Run): Run
  {
    Run(a.sent + b.sent, a.calls + b.calls, a.errorArgs + b.errorArgs, b.settled)
  }

  /** `promise.then(next)`. */
  function Then(r: Run, next: Value -> Run): Run
  {
    if r.settled.Ok? then Chain(r, next(r.settled.value)) else r
  }

  /** `promise.catch(recover)`. */
  function Catch(r: Run, recover: Value -> Run): Run
  {
    if r.settled.Thrown? then Chain(r, recover(r.settled.error)) else r
  }

  function ErrorRun(stage: ErrorStage, error: Value): Run
  {
    var e := ErrorEffect(stage, error);
    Run(e.sends, [], [error], e.result)
  }

  /** The call the pipeline makes to `virgilio.execute` once the transform
      has produced `args`: the previous handler value, then the elements of
      `args`. */
  function HandlerCall(f: Fields, args: Value): Call
    requires f.handler.Invoke?
  {
    Call(f.handler.inner, Spread(args))
  }

  /** `Promise.cast(req).then(transform).then(handler).then(respond)`. */
  function Attempt(f: Fields, req: Request, exec: Call -> Settled<Value>): Run
    requires Ready(f)
  {
    var transformed := Run([], [], [], ApplyTransform(f.transform.value, req));
    var handled := Then(transformed, args =>
      var call := HandlerCall(f, args);
      Run([], [call], [], exec(call)));
    Then(handled, response =>
      var e := RespondEffect(f.respond.value, response);
      Run(e.sends, [], [], e.result))
  }

  /** The whole chain built by `createHandler`: both `.catch` steps call the
      object's own `error`; `fallbackError` is never consulted. */
  function Pipeline(f: Fields, req: Request, exec: Call -> Settled<Value>): Run
    requires Ready(f)
  {
    var recover := e => ErrorRun(f.error.value, e);
    Catch(Catch(Attempt(f, req, exec), recover), recover)
  }

  /** Stages run in order: the action runs only after the transform
      succeeded, exactly once, with the action name followed by the
      transform's array elements. */
  lemma PipelineCalls(f: Fields, req: Request, exec: Call -> Settled<Value>)
    requires Ready(f)
    ensures var t := ApplyTransform(f.transform.value, req);
            Pipeline(f, req, exec).calls ==
              if t.Ok? then [HandlerCall(f, t.value)] else []
  {
  }

  /** Under the default transform the action gets the request's value of
      each route parameter, in path order, then the body, each as an
      argument of its own: `concat` spreads the array the transform
      returns. */
  lemma DefaultTransformCall(f: Fields, params: seq<string>, req: Request, exec: Call -> Settled<Value>)
    requires Ready(f) && f.transform == Some(DefaultTransform(params))
    ensures Pipeline(f, req, exec).calls == [Call(f.handler.inner, DefaultArgs(params, req))]
  {
    PipelineCalls(f, req, exec);
  }

  /** With the default respond and error stages every request gets exactly
      one response: 200 with the action's result, or 500 with the fixed
      message when the transform or the action failed. */
  lemma DefaultStagesRespondOnce(f: Fields, req: Request, exec: Call -> Settled<Value>)
    requires Ready(f) && f.respond == Some(DefaultRespond) && f.error == Some(DefaultError)
    ensures var t := ApplyTransform(f.transform.value, req);
            var run := Pipeline(f, req, exec);
            && run.settled.Ok?
            && (if t.Ok? && exec(HandlerCall(f, t.value)).Ok?
                then run.sent == [Sent(200, exec(HandlerCall(f, t.value)).value)] && run.errorArgs == []
                else run.sent == [Sent(500, ErrorMessage)] && |run.errorArgs| == 1)
  {
  }

  /** A successful attempt never reaches the error stage. */
  lemma SuccessSkipsErrorStage(f: Fields, req: Request, exec: Call -> Settled<Value>)
    requires Ready(f) && Attempt(f, req, exec).settled.Ok?
    ensures Pipeline(f, req, exec) == Attempt(f, req, exec)
  {
  }

  /** A failure anywhere in the attempt, the respond stage included, goes to
      the error stage with that error; if the error stage itself throws, the
      same error stage runs a second time with the new error, and what it
      does then is the final outcome. */
  lemma FailureRunsErrorStage(f: Fields, req: Request, exec: Call -> Settled<Value>)
    requires Ready(f) && Attempt(f, req, exec).settled.Thrown?
    ensures var a := Attempt(f, req, exec);
            var first := ErrorEffect(f.error.value, a.settled.error);
            var run := Pipeline(f, req, exec);
            if first.result.Ok? then
              run.errorArgs == [a.settled.error] && run.sent == a.sent + first.sends && run.settled == first.result
            else
              var second := ErrorEffect(f.error.value, first.result.error);
              && run.errorArgs == [a.settled.error, first.result.error]
              && run.sent == a.sent + first.sends + second.sends
              && run.settled == second.result
  {
  }

  /** The error stage runs at most twice, and only after a failure. */
  lemma ErrorStageAtMostTwice(f: Fields, req: Request, exec: Call -> Settled<Value>)
    requires Ready(f)
    ensures var run := Pipeline(f, req, exec);
            |run.errorArgs| <= 2 &&
            (|run.errorArgs| == 0 <==> Attempt(f, req, exec).settled.Ok?)
  {
  }

  /** A custom error stage that always throws without sending leaves the
      request without any response and the rejection unhandled: the default
      error stage is not used as a fallback. */
  lemma FailingErrorStageSendsNothing(f: Fields, req: Request, exec: Call -> Settled<Value>, failure: Value)
    requires Ready(f) && Attempt(f, req, exec).settled.Thrown? && Attempt(f, req, exec).sent == []
    requires f.error.value.CustomError?
    requires forall e :: f.error.value.apply(e) == Effect([], Thrown(failure))
    ensures Pipeline(f, req, exec).sent == []
    ensures Pipeline(f, req, exec).settled == Thrown(failure)
  {
    FailureRunsErrorStage(f, req, exec);
  }

  /** `res`: the response object the pipeline sends on. */
  class Response {
    var sent: seq<Sent>

    constructor ()
      ensures sent == []
    {
      sent := [];
    }

    /** `res.send(status, body)`. */
    method Send(status: int, body: Value)
      modifies this
      ensures sent == old(sent) + [Sent(status, body)]
    {
      sent := sent + [Sent(status, body)];
    }

    /** The sends a user-supplied stage makes. */
    method SendAll(sends: seq<Sent>)
      modifies this
      ensures sent == old(sent) + sends
    {
      sent := sent + sends;
    }
  }

  /** `virgilio.execute`: an action invoker whose results are given by
      `behaviour`; every call is logged. */
  class Actions {
    const behaviour: Call -> Settled<Value>
    var log: seq<Call>

    constructor (behaviour: Call -> Settled<Value>)
      ensures this.behaviour == behaviour && log == []
    {
      this.behaviour := behaviour;
      log := [];
    }

    method Execute(call: Call) returns (r: Settled<Value>)
      modifies this
      ensures log == old(log) + [call] && r == behaviour(call)
    {
      log := log + [call];
      r := behaviour(call);
    }
  }

  /** Runs a respond stage on `res`. */
  method RunRespond(stage: Respond, response: Value, res: Response) returns (r: Settled<Value>)
    modifies res
    ensures res.sent == old(res.sent) + RespondEffect(stage, response).sends
    ensures r == RespondEffect(stage, response).result
  {
    match stage
    case DefaultRespond =>
      res.Send(200, response);
      r := Ok(Undefined);
    case CustomRespond(apply) =>
      var e := apply(response);
      res.SendAll(e.sends);
      r := e.result;
  }

  /** Runs an error stage on `res`. */
  method RunError(stage: ErrorStage, error: Value, res: Response) returns (r: Settled<Value>)
    modifies res
    ensures res.sent == old(res.sent) + ErrorEffect(stage, error).sends
    ensures r == ErrorEffect(stage, error).result
  {
    match stage
    case DefaultError =>
      res.Send(500, ErrorMessage);
      r := Ok(Undefined);
    case CustomError(apply) =>
      var e := apply(error);
      res.SendAll(e.sends);
      r := e.result;
  }

  /** A handler object. The route tree may share one object between several
      method keys; `extendHandlerObject` changes it in place. */
  class HandlerRecord {
    var handler: Action
    var transform: Option<Transform>
    var respond: Option<Respond>
    var error: Option<ErrorStage>
    var fallbackError: Option<ErrorStage>

    function State(): Fields
      reads this
    {
      Fields(handler, transform, respond, error, fallbackError)
    }

    /** An object literal from the route tree. */
    constructor (handler: Value, transform: Option<Transform>, respond: Option<Respond>, error: Option<ErrorStage>)
      ensures State() == Fields(Name(handler), transform, respond, error, None)
    {
      this.handler := Name(handler);
      this.transform := transform;
      this.respond := respond;
      this.error := error;
      this.fallbackError := None;
    }

    /** `{handler: name}`, which a string specification becomes. */
    constructor FromName(name: string)
      ensures State() == Fields(Name(Str(name)), None, None, None, None)
    {
      handler := Name(Str(name));
      transform, respond, error, fallbackError := None, None, None, None;
    }

    /** The in-place part of `extendHandlerObject`: wrap `handler` in a call
      of `virgilio.execute`, fill in the missing stages (the default
      transform of `path` included), and set `fallbackError`. */
    method Extend(path: string)
      modifies this
      ensures State() == Extended(old(State()), ParamNames(Split(path)))
    {
      handler := Invoke(handler);
      if transform.None? {
        var params := CollectParams(path);
        transform := Some(DefaultTransform(params));
      }
      if respond.None? {
        respond := Some(DefaultRespond);
      }
      if error.None? {
        error := Some(DefaultError);
      }
      fallbackError := Some(DefaultError);
    }

    /** The `then` steps of that chain: transform, the action, respond. */
    method RunStages(req: Request, res: Response, actions: Actions) returns (outcome: Settled<Value>)
      requires Ready(State())
      modifies res, actions
      ensures var run := Attempt(State(), req, actions.behaviour);
              && res.sent == old(res.sent) + run.sent
              && actions.log == old(actions.log) + run.calls
              && run.errorArgs == []
              && outcome == run.settled
    {
      outcome := ApplyTransform(transform.value, req);
      if outcome.Ok? {
        outcome := actions.Execute(HandlerCall(State(), outcome.value));
        if outcome.Ok? {
          outcome := RunRespond(respond.value, outcome.value, res);
        }
      }
    }

    /** The function `createHandler` returns, bound to this object, applied
      to one request: transform, then the action, then respond; a failure
      goes to `error`, and a failure of that to `error` again. */
    method Handle(req: Request, res: Response, actions: Actions)
        returns (errorArgs: seq<Value>, settled: Settled<Value>)
      requires Ready(State())
      modifies res, actions
      ensures var run := Pipeline(old(State()), req, actions.behaviour);
              && res.sent == old(res.sent) + run.sent
              && actions.log == old(actions.log) + run.calls
              && errorArgs == run.errorArgs
              && settled == run.settled
    {
      var outcome := RunStages(req, res, actions);
      errorArgs := [];
      if outcome.Thrown? {
        errorArgs := [outcome.error];
        outcome := RunError(error.value, outcome.error, res);
        if outcome.Thrown? {
          errorArgs := errorArgs + [outcome.error];
          outcome := RunError(error.value, outcome.error, res);
        }
      }
      settled := outcome;
    }
  }

  /** `createHandler(spec, path)`: normalise a string specification to a new
      object, then extend the object for `path`. The returned object stands
      for the handler function bound to it. */
  method CreateHandler(spec: Spec, path: string) returns (h: HandlerRecord)
    modifies if spec.Record? then {spec.rec} else {}
    ensures spec.Record? ==> h == spec.rec
    ensures spec.Record? ==> h.State() == Extended(old(spec.rec.State()), ParamNames(Split(path)))
    ensures spec.Named? ==> fresh(h)
    ensures spec.Named? ==>
      h.State() == Extended(Fields(Name(Str(spec.name)), None, None, None, None), ParamNames(Split(path)))
  {
    if spec.Named? {
      h := new HandlerRecord.FromName(spec.name);
    } else {
      h := spec.rec;
    }
    h.Extend(path);
  }
}
