# virgilio-http, modelled in Dafny

virgilio-http exposes the actions of a virgilio application over HTTP.
`registerRoutes` walks a route tree. A key that names an HTTP method (in any
case) holds a handler specification, and any other key is a path segment
with a subtree below it. Each specification is registered on the restify
server at the path its keys spell out. That specification is either an
action name or an object with `handler`, `transform`, `respond` and `error`.
A string becomes an object `{handler}`. `extendHandlerObject` then completes
the object in place:

- the handler becomes a call of `virgilio.execute`;
- a missing transform becomes the default transform, which passes the
  route's `:parameters` in path order and then the body;
- missing respond and error stages get the defaults (200 with the result,
  500 with a fixed message).

Every request runs the promise chain transform → action → respond, with two
`.catch` steps that both call the object's `error`. A path with a truthy
entry in the `authRoutes` table gets a session gate in front of it. The gate
answers 403 without a `session-id` header, asks `auth.checkSession`
otherwise, and lets the request through only when that check's `result` is
truthy.

The project has five modules:

- `Values` (values.dfy): JavaScript values, truthiness, property access,
  and how a promise settles.
- `Paths` (paths.dfy): `sanitizePath`, `split('/')` with its inverse, and
  the collection of parameter names.
- `Handlers` (handlers.dfy): handler objects.
  - `HandlerRecord` is a class whose fields `Extend` updates in place,
    because one object may be shared by several method keys.
  - The promise chain is a trace (`Run`) built by `Then` and `Catch`.
  - The methods `RunStages` and `Handle` run that chain against a
    `Response` object and an `Actions` object. `Actions` logs every
    `virgilio.execute` call and answers it with an abstract behaviour.
- `Auth` (auth.dfy): the session gate, as a function `Gate` and as a method
  `Guard` proved equal to it.
- `Routes` (routes.dfy): the route-tree compiler.
  - `Compile` is the compiler as a function, related by lemmas to an
    independent description of the tree's leaves (`Leaves`/`Placed`).
  - `Server` holds the endpoints. Its methods `RegisterRoutes`,
    `RegisterKeys`, `RegisterKey`, `RegisterEntry` and `RegisterRoute`
    register exactly `Compile`'s registrations, in order. Every handler
    object of the tree is ready afterwards, and every string specification
    is bound to a new object holding its extended fields, so every bound
    handler can serve.
  - `Serve` runs one request through an endpoint.

Where the code does something other than its names and comments suggest,
the model follows the code:

- The method list (index.js:10) uses restify's names `del` and `opts`. A key
  `delete` or `options` is therefore a path segment (`DeleteIsASegment`).
- The regular expression of `sanitizePath` (index.js:156) ends in `\/?`
  after a greedy `(.+)`, so a trailing slash is kept and `/` becomes `//`.
  It cannot match across a line terminator, so such a path is returned
  unchanged.
- The comment on the second `.catch` (index.js:76-77) says the default
  handler takes over, but that step calls the object's own `error` again.
  `fallbackError` (index.js:98) is set but never read.
- A failed session check goes to `defaultError` without `res`. That call
  throws before sending anything, so this code sends no response.
- Only method keys are lower-cased; path segments keep their case.

## Model

| member | source | states |
|---|---|---|
| Paths.SanitizeShape | index.js:155-158 | the empty path stays empty; any other one-line path gets a leading slash and at least one character after it; at most one slash is added, in front, and the original path is a suffix of the result |
| Paths.SanitizeIdempotent | index.js:155-158 | sanitising twice is sanitising once |
| Paths.SanitizedConcat | index.js:40-41 | a non-empty sanitised base followed by anything stays sanitised, so re-sanitising `basePath + sanitizePath(key)` on recursion changes nothing |
| Paths.Split | index.js:109 | `split('/')` yields at least one piece |
| Paths.SplitPieces | index.js:109 | no piece holds a slash |
| Paths.JoinSplit | index.js:109 | joining the pieces with `/` gives the string back |
| Paths.SplitJoin | index.js:109 | splitting a join of slash-free pieces gives the pieces back |
| Paths.SplitSlashFree | index.js:109 | a slash-free string splits into itself |
| Paths.SplitAround | index.js:109 | a slash after a slash-free piece splits there |
| Paths.SplitConcat | index.js:109 | splitting `a + "/" + b` gives the pieces of `a` followed by those of `b` |
| Paths.ParamNames | index.js:111-115 | there are never more parameter names than segments |
| Paths.ParamSegments | index.js:112 | every kept segment is a `:` segment of the path |
| Paths.ParamNamesOfParamSegments | index.js:111-115 | the names are exactly the `:` segments, in order, each without its colon |
| Paths.ParamNamesAppend | index.js:111-115 | the names of consecutive segment lists are concatenated in path order |
| Paths.ParamsOfConcat | index.js:109-115 | the parameters of a path joined from two parts are those of the first part, then those of the second |
| Paths.ParamOfSegment | index.js:112-113 | a lone `:name` segment yields exactly `name` |
| Paths.CollectParams | index.js:108-115 | the loop over the split path pushes exactly the parameter names of the path, in order |
| Handlers.Extended | index.js:94-98 | after extension an object has a wrapped handler, a transform, a respond and an error stage |
| Handlers.WrapsTransitive | index.js:89-93 | wrapping a wrapped handler again is still a wrapping of the original |
| Handlers.ExtendedGrows | index.js:83-100 | extension wraps the handler, keeps every stage already present and only fills missing stages with their defaults |
| Handlers.GrownTransitive | index.js:83-100 | repeated extensions compose into one growth of the original fields |
| Handlers.GrownKeepsReady | index.js:94-97 | a completed object stays completed however often it is extended again |
| Handlers.ExtendedTwice | index.js:89-95 | an object extended twice has its handler wrapped twice and keeps the default transform of the first path |
| Handlers.DefaultTransformOfPath | index.js:108-122 | the default transform of a path passes one value per `:` segment of the path, in path order, each the request's value for that segment's name without its colon, and then the body |
| Handlers.DefaultArgsInPathOrder | index.js:108-122 | the argument for the `:` segment at a given position follows those of all earlier `:` segments and is that parameter's request value |
| Handlers.DefaultTransformCall | index.js:89-92 | under the default transform the action is called with the previous handler, then each route parameter's request value in path order, then the body, each as an argument of its own, because `concat` spreads the transform's array |
| Handlers.PipelineCalls | index.js:66-68 | the action runs exactly once, and only when the transform succeeded, with the previous handler followed by the transform's elements |
| Handlers.DefaultStagesRespondOnce | index.js:62-81 | with the default respond and error stages every request gets exactly one response: 200 with the action's result, or 500 after one call of the error stage |
| Handlers.SuccessSkipsErrorStage | index.js:66-74 | a chain whose `then` steps succeed never reaches the error stage |
| Handlers.FailureRunsErrorStage | index.js:72-79 | a failure goes to `error` with that error; if `error` throws, `error` runs again with the new error and its outcome is final |
| Handlers.ErrorStageAtMostTwice | index.js:72-79 | the error stage runs at most twice, and not at all exactly when the `then` steps succeed |
| Handlers.FailingErrorStageSendsNothing | index.js:75-79 | an error stage that always throws without sending leaves the request unanswered and the rejection unhandled: no fallback takes over |
| Handlers.Actions.Execute | index.js:92 | a `virgilio.execute` call is logged and answered by the application's behaviour |
| Handlers.RunRespond | index.js:125-127 | the respond stage sends what its effect says and settles as its effect does (200 with the response by default) |
| Handlers.RunError | index.js:129-132 | the error stage sends what its effect says and settles as its effect does (500 with the fixed message by default) |
| Handlers.HandlerRecord.FromName | index.js:84-88 | a string specification becomes an object holding only that handler name |
| Handlers.HandlerRecord.Extend | index.js:89-98 | the object's new fields are `Extended` of its old fields with the parameter names of the path |
| Handlers.HandlerRecord.RunStages | index.js:66-71 | transform, action and respond send, call and settle as the specification `Attempt` says |
| Handlers.HandlerRecord.Handle | index.js:64-80 | a request through the bound handler sends, calls, reaches the error stage and settles as the specification `Pipeline` says |
| Handlers.CreateHandler | index.js:62-63 | an object specification is extended in place and returned; a string specification gives a new object with the extended fields of `{handler}` |
| Auth.Gate | index.js:134-153 | letting a request through sends nothing; a denial sends exactly one 403; an unhandled failure sends nothing; at most one session check is made |
| Auth.MissingSessionDenied | index.js:136-139 | without a truthy `session-id` header the answer is 403 "Not logged in." and nothing is called |
| Auth.RejectedSessionDenied | index.js:142-148 | a check resolving to a value other than `undefined` or `null` whose `result` is falsy gives 403: with the object's `reason` for an object, with `undefined` for a value such as `false` or `0` |
| Auth.AllowExactly | index.js:140-145 | `next()` is called exactly when the header is truthy and the check resolves to a value whose `result` is truthy |
| Auth.FailedCheckSendsNothing | index.js:150-151 | a failing session check sends no response and ends in an unhandled TypeError |
| Auth.Guard | index.js:135-152 | the gate as run on `res` and `virgilio.execute` sends, calls and decides as `Gate` says |
| Routes.AsciiLower | index.js:35-36 | lower-casing keeps the length and lower-cases each character |
| Routes.PlacedAt | index.js:30-44 | the registration for a leaf is at the leaf's path, with its lower-cased key and its specification |
| Routes.PlacedAppend | index.js:33-43 | the registrations of consecutive leaves are concatenated in order |
| Routes.PlacedUnder | index.js:40-41 | registering a subtree's leaves below a key is registering them at the base extended by the sanitised key |
| Routes.CompileRegistersLeaves | index.js:30-44 | the compiler registers every method leaf of the tree, in key order, at its base followed by its sanitised ancestor keys |
| Routes.CompilePrefixRegistersLeaves | index.js:32-43 | the same for the first keys of a node at a sanitised base |
| Routes.EntryRegistersLeaves | index.js:34-42 | the same for one key |
| Routes.LeavesAreMethodKeys | index.js:35-37 | in a well-formed tree every leaf is under a method key |
| Routes.UnderKeepsKeys | index.js:39-41 | recursion keeps the method keys of a subtree's leaves |
| Routes.CompiledMethodsRecognised | index.js:35-37 | every registration uses one of `get post put del head opts patch` |
| Routes.DeleteIsASegment | index.js:35-41 | `{delete: {GET: h}}` registers `get /delete`: `delete` is not a method key, and method keys match in any case |
| Routes.CompiledRecordsInTree | index.js:34-41 | every object a compiled registration names is an object of the tree |
| Routes.BoundHandlersReady | index.js:84-97 | when the tree's objects are ready and string specifications hold their extended fields, every handler bound to a registration is ready |
| Routes.NamedFields | index.js:84-98 | a string specification's object is ready after extension |
| Routes.Server.BindAt | index.js:46-59 | the `k`-th bound endpoint is at the `k`-th registration's path and method with its handler object, and gets the session gate, with the table's entry as its `authInfo`, exactly when that entry is truthy |
| Routes.Server.BindAppend | index.js:33-43 | the endpoints of consecutive registrations are concatenated in order |
| Routes.Server.RegisterRoute | index.js:46-60 | one endpoint is appended at the path and method; an object specification is bound to that very object, now extended; a string specification to a new object with its extended fields |
| Routes.Server.RegisterRoutes | index.js:30-44 | the endpoints appended are exactly the compiled registrations, in order; each object specification is bound to its own object, and every object of the tree is ready afterwards; each string specification is bound to a new object, outside the tree, holding the extended fields of `{handler: name}` at its path; every bound handler is ready to serve; the `k`-th new endpoint has the `k`-th compiled path and method and is guarded exactly when the authorization table's entry for that path is truthy |
| Routes.Server.RegisterKeys | index.js:32-43 | after the `forEach` over all keys the registrations are those of the whole node, bound in order after the earlier endpoints, with the same facts about objects |
| Routes.Server.RegisterKey | index.js:33-43 | one `forEach` step extends the registrations made so far by those of the next key, keeps every handled object ready, and binds that key's string specifications to new objects with their extended fields |
| Routes.Server.RegisterEntry | index.js:34-42 | one key registers a method leaf at the base, or its subtree at the base extended by the sanitised key; its string specifications get new objects with their extended fields |
| Routes.GuardedWithoutSessionNeverRunsAction | index.js:49-51 | a guarded endpoint without a session header answers 403 and never calls an action |
| Routes.AllowedRunsPipeline | index.js:50-51 | an allowed request runs the route's pipeline after the session check, and the client sees what the pipeline sends |
| Routes.DefaultEndpointRespondsOnce | index.js:46-60 | with default stages an endpoint answers exactly once, except when the session check fails, when it answers not at all |
| Routes.Serve | index.js:49-59 | one request to an endpoint sends, calls and settles as `EndpointRun` says: the gate first when guarded, then the handler chain |

## Left out

- `registerMiddleware` (index.js:168-177): a thin pass-through to restify's `server.use`, outside the routing core.
- Creating the server and `listen` (index.js:9, 26-28), and the namespace glue (index.js:12-24): I/O and framework wiring.
- Logging (`virgilio.log`): it has no effect on routing or responses.
- restify's matching of incoming requests to registered paths: the model stops at the endpoint list and at serving one request through a chosen endpoint.
- Bluebird scheduling: `Promise.cast`, `.bind` and `.done()` are modelled as the order in which settled outcomes are chained. The rethrow of `.done()` is the final `Thrown` outcome.
- `virgilio.execute` and `auth.checkSession` are parameters: an abstract behaviour from calls to settled outcomes.
- Routes.AsciiLower: models `toLowerCase` on ASCII only. This decides method keys exactly, and the lower-cased text is only kept for method keys.
- Numbers are modelled as unbounded integers. Only truthiness and equality are used.
- Trees whose method keys hold subtrees, or whose other keys hold handler specifications, are excluded by `WellFormed`. The code would register or recurse on them with undefined results.
- Routes.Server.RegisterRoutes: for an object specification it states only that the endpoint is bound to that very object and that the object is ready afterwards, not its final fields (for an object registered once, `Extended` of its fields before). `RegisterRoute` states the final fields for one registration, and `ExtendedTwice` and `Grown` relate the fields of an object registered more than once, on values.
- Handler stages that are present but not functions: a truthy non-function `transform` is skipped by `.then`, so the action would get the request itself, and a truthy non-function `respond` or `error` throws a TypeError when called. The model represents every present stage as a function.
- Property access on strings and arrays: `Get` reads `undefined` for every key of a value that is not an object, which holds for the `result` and `reason` keys the session gate reads but not for inherited properties such as `length`.
- pseudocode.js is not part of this model.
