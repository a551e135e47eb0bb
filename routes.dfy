/** The route-tree compiler `registerRoutes`/`registerRoute`
    (index.js:10, 30-60) and the server it registers endpoints with. */
module Routes {
  import opened Values
  import opened Paths
  import opened Handlers
  import opened Auth

  /** A route tree: its keys in `Object.keys` order. */
  datatype Node = Node(entries: seq<Entry>)
  datatype Entry = Entry(key: string, child: Child)
  /** A method key holds a handler specification, any other key a subtree. */
  datatype Child = Leaf(spec: Spec) | Sub(node: Node)

  /** The method names the compiler recognises; `delete` and `options` are
      not among them. */
  const HttpMethods: seq<string> := ["get", "post", "put", "del", "head", "opts", "patch"]

  function LowerChar(c: char): char
  {
    if 'A' <= c <= 'Z' then (c as int + 32) as char else c
  }

  /** `toLowerCase` on the ASCII letters. Only the Kelvin sign and the dotted
      capital I lower-case into ASCII ('k' and 'i' plus a combining dot), and
      no method name has a 'k' or an 'i', so this decides method keys exactly
      as `toLowerCase` does; the lower-cased names it produces are those of
      method keys, which are ASCII. */
  function AsciiLower(s: string): (r: string)
    ensures |r| == |s|
    ensures forall i :: 0 <= i < |s| ==> r[i] == LowerChar(s[i])
  {
    if s == [] then [] else [LowerChar(s[0])] + AsciiLower(s[1..])
  }

  /** `httpMethods.indexOf(key.toLowerCase()) >= 0`. */
  predicate IsMethodKey(key: string)
  {
    AsciiLower(key) in HttpMethods
  }

  /** Every key holds what its name says: a specification under a method
      key, a subtree under any other key. */
  predicate WellFormed(n: Node)
    decreases n
  {
    forall i :: 0 <= i < |n.entries| ==> EntryWellFormed(n.entries[i])
  }

  predicate EntryWellFormed(e: Entry)
    decreases e
  {
    && (e.child.Leaf? <==> IsMethodKey(e.key))
    && (e.child.Sub? ==> WellFormed(e.child.node))
  }

  /** One registration: `server[method](path, handler)`. */
  datatype Registration = Registration(path: string, verb: string, spec: Spec)

  /** `registerRoutes(n, basePath)`: the registrations in the order they
      are made. */
  function Compile(n: Node, basePath: string): seq<Registration>
    decreases n, |n.entries| + 1
  {
    CompilePrefix(n, |n.entries|, SanitizePath(basePath))
  }

  /** The registrations of the first `k` keys at the sanitised `base`. */
  function CompilePrefix(n: Node, k: nat, base: string): seq<Registration>
    requires k <= |n.entries|
    decreases n, k
  {
    if k == 0 then [] else CompilePrefix(n, k - 1, base) + CompileEntry(n.entries[k - 1], base)
  }

  /** The `forEach` body for one key: register a method leaf at `base`, or
      recurse into a subtree at `base + sanitizePath(key)`. */
  function CompileEntry(e: Entry, base: string): seq<Registration>
    decreases e, 0
  {
    match e.child
    case Leaf(spec) => [Registration(base, AsciiLower(e.key), spec)]
    case Sub(child) => Compile(child, base + SanitizePath(e.key))
  }

  /** A method leaf of a tree: the keys of its ancestors, its own key, and
      its specification. */
  datatype LeafPath = LeafPath(segments: seq<string>, key: string, spec: Spec)

  /** The method leaves of a tree in key order, found without any path
      arithmetic. */
  function Leaves(n: Node): seq<LeafPath>
    decreases n, |n.entries| + 1
  {
    LeavesPrefix(n, |n.entries|)
  }

  function LeavesPrefix(n: Node, k: nat): seq<LeafPath>
    requires k <= |n.entries|
    decreases n, k
  {
    if k == 0 then [] else LeavesPrefix(n, k - 1) + EntryLeaves(n.entries[k - 1])
  }

  /** The leaves one key contributes. */
  function EntryLeaves(e: Entry): seq<LeafPath>
    decreases e, 0
  {
    match e.child
    case Leaf(spec) => [LeafPath([], e.key, spec)]
    case Sub(child) => Under(e.key, Leaves(child))
  }

  /** The leaves of a subtree seen from its parent. */
  function Under(key: string, leaves: seq<LeafPath>): (r: seq<LeafPath>)
    ensures |r| == |leaves|
  {
    if leaves == [] then []
    else [LeafPath([key] + leaves[0].segments, leaves[0].key, leaves[0].spec)] + Under(key, leaves[1..])
  }

  /** The base followed by every ancestor key, each sanitised. */
  function PathOf(base: string, segments: seq<string>): string
    decreases segments
  {
    if segments == [] then base
    else PathOf(base + SanitizePath(segments[0]), segments[1..])
  }

  /** The registration each leaf should produce. */
  function Placed(base: string, leaves: seq<LeafPath>): (r: seq<Registration>)
    ensures |r| == |leaves|
  {
    if leaves == [] then []
    else
      [Registration(PathOf(base, leaves[0].segments), AsciiLower(leaves[0].key), leaves[0].spec)]
      + Placed(base, leaves[1..])
  }

  lemma {:induction false} PlacedAt(base: string, leaves: seq<LeafPath>, i: nat)
    requires i < |leaves|
    ensures Placed(base, leaves)[i]
            == Registration(PathOf(base, leaves[i].segments), AsciiLower(leaves[i].key), leaves[i].spec)
  {
    if i > 0 {
      PlacedAt(base, leaves[1..], i - 1);
    }
  }

  lemma {:induction false} PlacedAppend(base: string, a: seq<LeafPath>, b: seq<LeafPath>)
    ensures Placed(base, a + b) == Placed(base, a) + Placed(base, b)
  {
    if a != [] {
      assert (a + b)[1..] == a[1..] + b;
      PlacedAppend(base, a[1..], b);
    } else {
      assert a + b == b;
    }
  }

  lemma {:induction false} PlacedUnder(base: string, key: string, leaves: seq<LeafPath>)
    ensures Placed(base, Under(key, leaves)) == Placed(base + SanitizePath(key), leaves)
  {
    if leaves != [] {
      PlacedUnder(base, key, leaves[1..]);
      assert ([key] + leaves[0].segments)[1..] == leaves[0].segments;
    }
  }

  /** The compiler registers every method leaf exactly once, in key order,
      under the lower-cased method name, at the sanitised base path followed
      by the sanitised keys of its ancestors. */
  lemma {:induction false} CompileRegistersLeaves(n: Node, basePath: string)
    ensures Compile(n, basePath) == Placed(SanitizePath(basePath), Leaves(n))
    decreases n, |n.entries| + 1
  {
    SanitizeIdempotent(basePath);
    CompilePrefixRegistersLeaves(n, |n.entries|, SanitizePath(basePath));
  }

  lemma {:induction false} CompilePrefixRegistersLeaves(n: Node, k: nat, base: string)
    requires k <= |n.entries|
    requires IsSanitized(base)
    ensures CompilePrefix(n, k, base) == Placed(base, LeavesPrefix(n, k))
    decreases n, k
  {
    if k > 0 {
      var e := n.entries[k - 1];
      var before, added := LeavesPrefix(n, k - 1), EntryLeaves(e);
      CompilePrefixRegistersLeaves(n, k - 1, base);
      EntryRegistersLeaves(e, base);
      PlacedAppend(base, before, added);
      calc {
        CompilePrefix(n, k, base);
        CompilePrefix(n, k - 1, base) + CompileEntry(e, base);
        Placed(base, before) + Placed(base, added);
        Placed(base, before + added);
        { assert LeavesPrefix(n, k) == before + added; }
        Placed(base, LeavesPrefix(n, k));
      }
    }
  }

  lemma {:induction false} EntryRegistersLeaves(e: Entry, base: string)
    requires IsSanitized(base)
    ensures CompileEntry(e, base) == Placed(base, EntryLeaves(e))
    decreases e, 0
  {
    match e.child {
      case Leaf(spec) =>
      case Sub(child) =>
        var path := base + SanitizePath(e.key);
        SanitizeIdempotent(e.key);
        SanitizedConcat(base, SanitizePath(e.key));
        CompileRegistersLeaves(child, path);
        PlacedUnder(base, e.key, Leaves(child));
    }
  }

  /** Every leaf of a well-formed tree sits under a method key. */
  lemma {:induction false} LeavesAreMethodKeys(n: Node)
    requires WellFormed(n)
    ensures forall l :: l in Leaves(n) ==> IsMethodKey(l.key)
    decreases n, |n.entries| + 1
  {
    LeavesPrefixAreMethodKeys(n, |n.entries|);
  }

  lemma {:induction false} LeavesPrefixAreMethodKeys(n: Node, k: nat)
    requires WellFormed(n) && k <= |n.entries|
    ensures forall l :: l in LeavesPrefix(n, k) ==> IsMethodKey(l.key)
    decreases n, k
  {
    if k > 0 {
      LeavesPrefixAreMethodKeys(n, k - 1);
      var e := n.entries[k - 1];
      if e.child.Sub? {
        LeavesAreMethodKeys(e.child.node);
        UnderKeepsKeys(e.key, Leaves(e.child.node));
      }
    }
  }

  lemma {:induction false} UnderKeepsKeys(key: string, leaves: seq<LeafPath>)
    ensures forall i :: 0 <= i < |leaves| ==> Under(key, leaves)[i].key == leaves[i].key
  {
    if leaves != [] {
      UnderKeepsKeys(key, leaves[1..]);
    }
  }

  /** Every registration of a well-formed tree uses one of the recognised
      method names. */
  lemma CompiledMethodsRecognised(n: Node, basePath: string)
    requires WellFormed(n)
    ensures forall r :: r in Compile(n, basePath) ==> r.verb in HttpMethods
  {
    CompileRegistersLeaves(n, basePath);
    LeavesAreMethodKeys(n);
    var regs, ls := Compile(n, basePath), Leaves(n);
    forall r | r in regs ensures r.verb in HttpMethods {
      var i :| 0 <= i < |regs| && regs[i] == r;
      PlacedAt(SanitizePath(basePath), ls, i);
      assert ls[i] in ls;
    }
  }

  /** `delete` is a path segment, and method keys match whatever their case. */
  lemma DeleteIsASegment(spec: Spec)
    ensures Compile(Node([Entry("delete", Sub(Node([Entry("GET", Leaf(spec))])))]), "")
            == [Registration("/delete", "get", spec)]
  {
    var inner := Node([Entry("GET", Leaf(spec))]);
    assert !HasLineTerminator("delete");
    assert SanitizePath("delete") == "/delete";
    assert AsciiLower("GET") == "get" by {
      assert AsciiLower("T") == "t";
      assert AsciiLower("ET") == "et";
    }
    assert Compile(inner, "/delete") == [Registration("/delete", "get", spec)] by {
      assert !HasLineTerminator("/delete");
      assert SanitizePath("/delete") == "/delete";
      assert CompilePrefix(inner, 1, "/delete") == CompileEntry(inner.entries[0], "/delete");
    }
    var tree := Node([Entry("delete", Sub(inner))]);
    assert SanitizePath("") == "";
    assert "" + SanitizePath("delete") == "/delete";
    assert CompilePrefix(tree, 1, "") == CompileEntry(tree.entries[0], "");
  }

  /** The handler objects a specification names. */
  function SpecRecords(spec: Spec): set<HandlerRecord>
  {
    if spec.Record? then {spec.rec} else {}
  }

  /** The handler objects of a tree. */
  function Records(n: Node): set<HandlerRecord>
    decreases n, |n.entries| + 1
  {
    RecordsPrefix(n, |n.entries|)
  }

  function RecordsPrefix(n: Node, k: nat): set<HandlerRecord>
    requires k <= |n.entries|
    decreases n, k
  {
    if k == 0 then {} else RecordsPrefix(n, k - 1) + EntryRecords(n.entries[k - 1])
  }

  /** The handler objects one key holds. */
  function EntryRecords(e: Entry): set<HandlerRecord>
    decreases e, 0
  {
    match e.child
    case Leaf(spec) => SpecRecords(spec)
    case Sub(child) => Records(child)
  }

  /** The handler objects of a tree exist already. */
  lemma {:induction false} RecordsAllocated(n: Node)
    ensures forall r :: r in Records(n) ==> allocated(r)
    decreases n, |n.entries| + 1
  {
    RecordsPrefixAllocated(n, |n.entries|);
  }

  lemma {:induction false} RecordsPrefixAllocated(n: Node, k: nat)
    requires k <= |n.entries|
    ensures forall r :: r in RecordsPrefix(n, k) ==> allocated(r)
    decreases n, k
  {
    if k > 0 {
      RecordsPrefixAllocated(n, k - 1);
      var e := n.entries[k - 1];
      match e.child
      case Leaf(spec) =>
        if spec.Record? {
          assert allocated(spec.rec);
        }
      case Sub(child) =>
        RecordsAllocated(child);
        assert RecordsPrefix(n, k) == RecordsPrefix(n, k - 1) + Records(child);
    }
  }

  lemma {:induction false} RecordsPrefixGrow(n: Node, i: nat, k: nat)
    requires i <= k <= |n.entries|
    ensures RecordsPrefix(n, i) <= RecordsPrefix(n, k)
    decreases k
  {
    if i < k {
      RecordsPrefixGrow(n, i, k - 1);
    }
  }

  /** The facts the compiler's loop needs about the key at index `i`. */
  lemma EntryOfTree(n: Node, i: nat)
    requires WellFormed(n) && i < |n.entries|
    ensures EntryWellFormed(n.entries[i])
    ensures RecordsPrefix(n, i) <= Records(n)
    ensures EntryRecords(n.entries[i]) <= Records(n)
  {
    RecordsPrefixGrow(n, i, |n.entries|);
    RecordsPrefixGrow(n, i + 1, |n.entries|);
  }

  /** A specification that is an object is registered with that very
      object. */
  predicate OwnHandlers(regs: seq<Registration>, handlers: seq<HandlerRecord>)
    requires |regs| == |handlers|
  {
    forall k :: 0 <= k < |regs| && regs[k].spec.Record? ==> handlers[k] == regs[k].spec.rec
  }

  lemma OwnHandlersAppend(regs: seq<Registration>, handlers: seq<HandlerRecord>,
                          regs2: seq<Registration>, handlers2: seq<HandlerRecord>)
    requires |regs| == |handlers| && |regs2| == |handlers2|
    requires OwnHandlers(regs, handlers) && OwnHandlers(regs2, handlers2)
    ensures OwnHandlers(regs + regs2, handlers + handlers2)
  {
  }

  /** The objects bound to string specifications. */
  function NamedObjects(regs: seq<Registration>, handlers: seq<HandlerRecord>): set<HandlerRecord>
    requires |regs| == |handlers|
  {
    set k | 0 <= k < |regs| && regs[k].spec.Named? :: handlers[k]
  }

  lemma NamedObjectsAppend(regs: seq<Registration>, handlers: seq<HandlerRecord>,
                           regs2: seq<Registration>, handlers2: seq<HandlerRecord>)
    requires |regs| == |handlers| && |regs2| == |handlers2|
    ensures NamedObjects(regs + regs2, handlers + handlers2)
            == NamedObjects(regs, handlers) + NamedObjects(regs2, handlers2)
  {
    var all, first, second := NamedObjects(regs + regs2, handlers + handlers2),
                              NamedObjects(regs, handlers), NamedObjects(regs2, handlers2);
    forall h | h in all ensures h in first + second {
      var k :| 0 <= k < |regs + regs2| && (regs + regs2)[k].spec.Named? && (handlers + handlers2)[k] == h;
      if k < |regs| {
        assert regs[k].spec.Named? && handlers[k] == h;
      } else {
        assert regs2[k - |regs|].spec.Named? && handlers2[k - |regs|] == h;
      }
    }
    forall h | h in first + second ensures h in all {
      if h in first {
        var k :| 0 <= k < |regs| && regs[k].spec.Named? && handlers[k] == h;
        assert (regs + regs2)[k] == regs[k] && (handlers + handlers2)[k] == h;
      } else {
        var k :| 0 <= k < |regs2| && regs2[k].spec.Named? && handlers2[k] == h;
        var j := |regs| + k;
        assert (regs + regs2)[j] == regs2[k] && (handlers + handlers2)[j] == h;
      }
    }
  }

  /** The objects made for string specifications: each lies outside `recs`
      and holds the fields `extendHandlerObject` gives `{handler: name}` at
      the path of its registration. */
  ghost predicate NamedHandled(regs: seq<Registration>, handlers: seq<HandlerRecord>, recs: set<HandlerRecord>)
    requires |regs| == |handlers|
    reads NamedObjects(regs, handlers)
  {
    forall k :: 0 <= k < |regs| && regs[k].spec.Named? ==>
      handlers[k] !in recs && handlers[k].State() == NamedFields(regs[k].spec.name, regs[k].path)
  }

  lemma NamedHandledAppend(regs: seq<Registration>, handlers: seq<HandlerRecord>,
                           regs2: seq<Registration>, handlers2: seq<HandlerRecord>, recs: set<HandlerRecord>)
    requires |regs| == |handlers| && |regs2| == |handlers2|
    requires NamedHandled(regs, handlers, recs) && NamedHandled(regs2, handlers2, recs)
    ensures NamedHandled(regs + regs2, handlers + handlers2, recs)
  {
    forall k | 0 <= k < |regs + regs2| && (regs + regs2)[k].spec.Named?
      ensures (handlers + handlers2)[k] !in recs
      ensures (handlers + handlers2)[k].State() == NamedFields((regs + regs2)[k].spec.name, (regs + regs2)[k].path)
    {
      if k >= |regs| {
        assert (regs + regs2)[k] == regs2[k - |regs|];
        assert (handlers + handlers2)[k] == handlers2[k - |regs|];
      }
    }
  }

  /** Once the objects of `recs` are ready, every handler bound to a
      registration is ready: an object specification is bound to its own
      object, a string specification to an object with the extended fields. */
  lemma BoundHandlersReady(regs: seq<Registration>, handlers: seq<HandlerRecord>, recs: set<HandlerRecord>)
    requires |regs| == |handlers| && OwnHandlers(regs, handlers) && NamedHandled(regs, handlers, recs)
    requires forall r :: r in regs && r.spec.Record? ==> r.spec.rec in recs
    requires AllReady(recs)
    ensures forall k :: 0 <= k < |handlers| ==> Ready(handlers[k].State())
  {
    forall k | 0 <= k < |handlers| ensures Ready(handlers[k].State()) {
      if regs[k].spec.Record? {
        assert regs[k] in regs;
      }
    }
  }

  /** Every object a compiled registration names is an object of the tree. */
  lemma {:induction false} CompiledRecordsInTree(n: Node, basePath: string)
    ensures forall r :: r in Compile(n, basePath) && r.spec.Record? ==> r.spec.rec in Records(n)
    decreases n, |n.entries| + 1
  {
    CompiledPrefixRecords(n, |n.entries|, SanitizePath(basePath));
  }

  lemma {:induction false} CompiledPrefixRecords(n: Node, k: nat, base: string)
    requires k <= |n.entries|
    ensures forall r :: r in CompilePrefix(n, k, base) && r.spec.Record? ==> r.spec.rec in RecordsPrefix(n, k)
    decreases n, k
  {
    if k > 0 {
      CompiledPrefixRecords(n, k - 1, base);
      CompiledEntryRecords(n.entries[k - 1], base);
    }
  }

  lemma {:induction false} CompiledEntryRecords(e: Entry, base: string)
    ensures forall r :: r in CompileEntry(e, base) && r.spec.Record? ==> r.spec.rec in EntryRecords(e)
    decreases e, 0
  {
    match e.child
    case Leaf(_) =>
    case Sub(child) => CompiledRecordsInTree(child, base + SanitizePath(e.key));
  }

  /** Every object of `rs` is ready to handle requests. */
  predicate AllReady(rs: set<HandlerRecord>)
    reads rs
  {
    forall r :: r in rs ==> Ready(r.State())
  }

  /** The fields `extendHandlerObject` gives the object a string
      specification becomes. */
  function NamedFields(name: string, path: string): (f: Fields)
    ensures Ready(f)
  {
    Extended(Fields(Name(Str(name)), None, None, None, None), ParamNames(Split(path)))
  }

  /** A registered endpoint: the handler is `[authHandler, handler]` when
      `guard` holds the route's authorization entry. */
  datatype Endpoint = Endpoint(verb: string, path: string, guard: Option<Value>, handler: HandlerRecord)

  /** The restify server: the endpoints registered so far. */
  class Server {
    const authRoutes: map<string, Value>
    var endpoints: seq<Endpoint>

    constructor (authRoutes: map<string, Value>)
      ensures this.authRoutes == authRoutes && endpoints == []
    {
      this.authRoutes := authRoutes;
      endpoints := [];
    }

    /** `authRoutes[path]`, when it is truthy. */
    function GuardFor(path: string): Option<Value>
    {
      var info := Lookup(authRoutes, path);
      if Truthy(info) then Some(info) else None
    }

    /** The endpoint `server[method](path, ...)` adds for a registration
        whose handler object is `handler`. */
    function Bound(r: Registration, handler: HandlerRecord): Endpoint
    {
      Endpoint(r.verb, r.path, GuardFor(r.path), handler)
    }

    /** The endpoints for a sequence of registrations, in order. */
    function Bind(regs: seq<Registration>, handlers: seq<HandlerRecord>): (es: seq<Endpoint>)
      requires |regs| == |handlers|
      ensures |es| == |regs|
    {
      if regs == [] then [] else [Bound(regs[0], handlers[0])] + Bind(regs[1..], handlers[1..])
    }

    /** The `k`-th endpoint of a binding is at the `k`-th registration's path
        and method, bound to its handler object, and carries the session
        gate exactly when the authorization table's entry for that path is
        truthy, with that entry as the gate's `authInfo`. */
    lemma {:induction false} BindAt(regs: seq<Registration>, handlers: seq<HandlerRecord>, k: nat)
      requires |regs| == |handlers| && k < |regs|
      ensures var e, r := Bind(regs, handlers)[k], regs[k];
              && e.path == r.path && e.verb == r.verb && e.handler == handlers[k]
              && (e.guard.Some? <==> Truthy(Lookup(authRoutes, r.path)))
              && (e.guard.Some? ==> e.guard.value == Lookup(authRoutes, r.path))
    {
      if k > 0 {
        BindAt(regs[1..], handlers[1..], k - 1);
      }
    }

    lemma {:induction false} BindAppend(regs: seq<Registration>, handlers: seq<HandlerRecord>,
                                        regs2: seq<Registration>, handlers2: seq<HandlerRecord>)
      requires |regs| == |handlers| && |regs2| == |handlers2|
      ensures Bind(regs + regs2, handlers + handlers2) == Bind(regs, handlers) + Bind(regs2, handlers2)
    {
      if regs == [] {
        assert regs + regs2 == regs2;
        assert handlers + handlers2 == handlers2;
      } else {
        BindAppend(regs[1..], handlers[1..], regs2, handlers2);
        var head := [Bound(regs[0], handlers[0])];
        assert (regs + regs2)[0] == regs[0] && (handlers + handlers2)[0] == handlers[0];
        assert (regs + regs2)[1..] == regs[1..] + regs2;
        assert (handlers + handlers2)[1..] == handlers[1..] + handlers2;
        assert Bind(regs + regs2, handlers + handlers2)
            == head + (Bind(regs[1..], handlers[1..]) + Bind(regs2, handlers2));
        AppendAssociative(head, Bind(regs[1..], handlers[1..]), Bind(regs2, handlers2));
      }
    }

    /** `registerRoute(path, method, spec)`; `handler` is the object the
        endpoint is bound to. */
    method RegisterRoute(path: string, verb: string, spec: Spec) returns (ghost handler: HandlerRecord)
      modifies this, SpecRecords(spec)
      ensures endpoints == old(endpoints) + [Bound(Registration(path, verb, spec), handler)]
      ensures spec.Record? ==> handler == spec.rec
      ensures spec.Record? ==> handler.State() == Extended(old(spec.rec.State()), ParamNames(Split(path)))
      ensures spec.Named? ==> fresh(handler) && handler.State() == NamedFields(spec.name, path)
    {
      var h := CreateHandler(spec, path);
      var guard := GuardFor(path);
      endpoints := endpoints + [Endpoint(verb, path, guard, h)];
      handler := h;
    }

    /** `BindAt` for every endpoint appended after `prior`. */
    lemma BindAll(prior: seq<Endpoint>, regs: seq<Registration>, handlers: seq<HandlerRecord>)
      requires |regs| == |handlers|
      ensures forall k :: 0 <= k < |handlers| ==>
                var e, r := (prior + Bind(regs, handlers))[|prior| + k], regs[k];
                && e.path == r.path && e.verb == r.verb && e.handler == handlers[k]
                && (e.guard.Some? <==> Truthy(Lookup(authRoutes, r.path)))
                && (e.guard.Some? ==> e.guard.value == Lookup(authRoutes, r.path))
    {
      forall k | 0 <= k < |handlers| {
        BindAt(regs, handlers, k);
      }
    }

    /** What one key of `registerRoutes` adds to what the earlier keys did:
        its registrations, endpoints and handler objects come after theirs. */
    lemma RegisterStep(tree: Node, i: nat, base: string, prior: seq<Endpoint>,
                       done: seq<Registration>, handlers: seq<HandlerRecord>,
                       regs: seq<Registration>, added: seq<HandlerRecord>)
      requires i < |tree.entries|
      requires done == CompilePrefix(tree, i, base) && regs == CompileEntry(tree.entries[i], base)
      requires |handlers| == |done| && |added| == |regs|
      requires OwnHandlers(done, handlers) && OwnHandlers(regs, added)
      ensures done + regs == CompilePrefix(tree, i + 1, base)
      ensures prior + Bind(done, handlers) + Bind(regs, added) == prior + Bind(done + regs, handlers + added)
      ensures OwnHandlers(done + regs, handlers + added)
      ensures RecordsPrefix(tree, i + 1) == RecordsPrefix(tree, i) + EntryRecords(tree.entries[i])
    {
      BindAppend(done, handlers, regs, added);
      AppendAssociative(prior, Bind(done, handlers), Bind(regs, added));
      OwnHandlersAppend(done, handlers, regs, added);
    }

    /** What `registerRoutes` has done once it is through the first `i` keys
        of `tree`: their registrations are bound in order after the endpoints
        that were there before, the objects of the tree handle their own
        registrations, and those objects are ready. */
    ghost predicate Progress(tree: Node, i: nat, base: string, prior: seq<Endpoint>,
                             done: seq<Registration>, handlers: seq<HandlerRecord>)
      requires i <= |tree.entries|
      reads this, RecordsPrefix(tree, i)
    {
      && done == CompilePrefix(tree, i, base)
      && |handlers| == |done|
      && endpoints == prior + Bind(done, handlers)
      && OwnHandlers(done, handlers)
      && AllReady(RecordsPrefix(tree, i))
    }

    /** `registerRoutes(tree, basePath)`: register every method leaf, in key
        order, extending each handler object on the way. */
    method RegisterRoutes(tree: Node, basePath: string) returns (ghost handlers: seq<HandlerRecord>)
      requires WellFormed(tree)
      modifies this, Records(tree)
      decreases tree, 2
      ensures |handlers| == |Compile(tree, basePath)|
      ensures endpoints == old(endpoints) + Bind(Compile(tree, basePath), handlers)
      ensures OwnHandlers(Compile(tree, basePath), handlers)
      ensures AllReady(Records(tree))
      ensures fresh(NamedObjects(Compile(tree, basePath), handlers))
      ensures NamedHandled(Compile(tree, basePath), handlers, Records(tree))
      ensures forall k :: 0 <= k < |handlers| ==> Ready(handlers[k].State())
      ensures forall k :: 0 <= k < |handlers| ==>
                var e, r := endpoints[|old(endpoints)| + k], Compile(tree, basePath)[k];
                && e.path == r.path && e.verb == r.verb && e.handler == handlers[k]
                && (e.guard.Some? <==> Truthy(Lookup(authRoutes, r.path)))
                && (e.guard.Some? ==> e.guard.value == Lookup(authRoutes, r.path))
    {
      var base := SanitizePath(basePath);
      ghost var done;
      done, handlers := RegisterKeys(tree, base);
      assert RecordsPrefix(tree, |tree.entries|) == Records(tree);
      CompiledRecordsInTree(tree, basePath);
      BoundHandlersReady(done, handlers, Records(tree));
      BindAll(old(endpoints), done, handlers);
    }

    /** The `forEach` of `registerRoutes` over the keys of `tree`. */
    method RegisterKeys(tree: Node, base: string) returns (ghost done: seq<Registration>, ghost handlers: seq<HandlerRecord>)
      requires WellFormed(tree)
      modifies this, Records(tree)
      decreases tree, 1
      ensures Progress(tree, |tree.entries|, base, old(endpoints), done, handlers)
      ensures NamedHandled(done, handlers, Records(tree))
      ensures fresh(NamedObjects(done, handlers))
    {
      done, handlers := [], [];
      var i := 0;
      while i < |tree.entries|
        invariant 0 <= i <= |tree.entries|
        invariant Progress(tree, i, base, old(endpoints), done, handlers)
        invariant NamedHandled(done, handlers, Records(tree))
        invariant fresh(NamedObjects(done, handlers))
      {
        var regs, added := RegisterKey(tree, i, base, old(endpoints), done, handlers);
        done, handlers := done + regs, handlers + added;
        i := i + 1;
      }
    }

    /** One turn of the `forEach` in `registerRoutes`: the `i`-th key is
        registered after the keys before it. */
    method RegisterKey(tree: Node, i: nat, base: string, ghost prior: seq<Endpoint>,
                       ghost done: seq<Registration>, ghost handlers: seq<HandlerRecord>)
      returns (ghost regs: seq<Registration>, ghost added: seq<HandlerRecord>)
      requires WellFormed(tree) && i < |tree.entries|
      requires Progress(tree, i, base, prior, done, handlers)
      requires NamedHandled(done, handlers, Records(tree))
      modifies this, Records(tree)
      decreases tree, 0, i
      ensures Progress(tree, i + 1, base, prior, done + regs, handlers + added)
      ensures NamedHandled(done + regs, handlers + added, Records(tree))
      ensures |regs| == |added|
      ensures fresh(NamedObjects(done + regs, handlers + added) - NamedObjects(done, handlers))
    {
      var e := tree.entries[i];
      EntryOfTree(tree, i);
      RecordsAllocated(tree);
      added := RegisterEntry(e, base);
      regs := CompileEntry(e, base);
      RegisterStep(tree, i, base, prior, done, handlers, regs, added);
      assert NamedHandled(done, handlers, Records(tree));
      forall k | 0 <= k < |regs| && regs[k].spec.Named? ensures added[k] !in Records(tree) {
        assert added[k] in NamedObjects(regs, added);
      }
      assert NamedHandled(regs, added, Records(tree));
      NamedHandledAppend(done, handlers, regs, added, Records(tree));
      NamedObjectsAppend(done, handlers, regs, added);
    }

    /** The `forEach` body of `registerRoutes` for one key. */
    method RegisterEntry(e: Entry, base: string) returns (ghost handlers: seq<HandlerRecord>)
      requires EntryWellFormed(e)
      modifies this, EntryRecords(e)
      decreases e, 3
      ensures |handlers| == |CompileEntry(e, base)|
      ensures endpoints == old(endpoints) + Bind(CompileEntry(e, base), handlers)
      ensures OwnHandlers(CompileEntry(e, base), handlers)
      ensures AllReady(EntryRecords(e))
      ensures NamedHandled(CompileEntry(e, base), handlers, EntryRecords(e))
      ensures fresh(NamedObjects(CompileEntry(e, base), handlers))
    {
      if IsMethodKey(e.key) {
        var h := RegisterRoute(base, AsciiLower(e.key), e.child.spec);
        handlers := [h];
      } else {
        handlers := RegisterRoutes(e.child.node, base + SanitizePath(e.key));
      }
    }
  }

  /** What one request to an endpoint goes through: the session gate when
      the endpoint is guarded (restify runs `next` into the pipeline), then
      the handler pipeline. */
  function EndpointRun(guard: Option<Value>, f: Fields, req: Request, exec: Call -> Settled<Value>): Run
    requires Ready(f)
  {
    if guard.None? then Pipeline(f, req, exec)
    else
      var g := Gate(guard.value, req, exec);
      match g.verdict
      case Allow => Chain(Run(g.sent, g.calls, [], Ok(Undefined)), Pipeline(f, req, exec))
      case Deny => Run(g.sent, g.calls, [], Ok(Undefined))
      case Unhandled(error) => Run(g.sent, g.calls, [], Thrown(error))
  }

  /** A guarded endpoint without a session header answers 403 and never
      reaches the action. */
  lemma GuardedWithoutSessionNeverRunsAction(info: Value, f: Fields, req: Request, exec: Call -> Settled<Value>)
    requires Ready(f) && !Truthy(Lookup(req.headers, SessionHeader))
    ensures EndpointRun(Some(info), f, req, exec).sent == [Sent(403, NotLoggedIn)]
    ensures EndpointRun(Some(info), f, req, exec).calls == []
  {
    MissingSessionDenied(info, req, exec);
  }

  /** An allowed request runs the route's pipeline after the session check,
      and what the client sees is what the pipeline sends. */
  lemma AllowedRunsPipeline(info: Value, f: Fields, req: Request, exec: Call -> Settled<Value>)
    requires Ready(f) && Gate(info, req, exec).verdict == Allow
    ensures var run, p := EndpointRun(Some(info), f, req, exec), Pipeline(f, req, exec);
            && run.sent == p.sent
            && run.calls == [CheckCall(Lookup(req.headers, SessionHeader), info)] + p.calls
            && run.settled == p.settled
  {
  }

  /** With the default respond and error stages, a request gets exactly one
      response unless the session check fails, in which case it gets none. */
  lemma DefaultEndpointRespondsOnce(guard: Option<Value>, f: Fields, req: Request, exec: Call -> Settled<Value>)
    requires Ready(f) && f.respond == Some(DefaultRespond) && f.error == Some(DefaultError)
    ensures var run := EndpointRun(guard, f, req, exec);
            |run.sent| == (if guard.Some? && Gate(guard.value, req, exec).verdict.Unhandled? then 0 else 1)
  {
    DefaultStagesRespondOnce(f, req, exec);
  }

  /** One request to a registered endpoint. */
  method Serve(e: Endpoint, req: Request, res: Response, actions: Actions) returns (settled: Settled<Value>)
    requires Ready(e.handler.State())
    modifies res, actions
    ensures var run := EndpointRun(e.guard, old(e.handler.State()), req, actions.behaviour);
            && res.sent == old(res.sent) + run.sent
            && actions.log == old(actions.log) + run.calls
            && settled == run.settled
  {
    if e.guard.Some? {
      var verdict := Guard(e.guard.value, req, res, actions);
      match verdict
      case Deny =>
        return Ok(Undefined);
      case Unhandled(error) =>
        return Thrown(error);
      case Allow =>
    }
    var _, outcome := e.handler.Handle(req, res, actions);
    settled := outcome;
  }
}
