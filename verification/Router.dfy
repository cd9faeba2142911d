/** The route table (sources/Core/Router.cpp): nested groups flattened at registration, dispatch of a
    request on the flat table, and the middleware chains.

    Whether a pattern compiles, whether it matches a path, and what a handler does are parameters. */
module RouteTable {

  import opened Optional

  type Verb = nat
  type HandlerId = nat

  /** A variant in the source: an HTTP or a WebSocket handler. */
  datatype Handler = Http(id: HandlerId) | WebSocket(id: HandlerId)

  datatype Route = Route(methods: set<Verb>, path: string, pre: seq<Handler>, handler: Handler, post: seq<Handler>)

  /** What a registration function does to the router it is given, in order. */
  datatype Decl =
    | Add(route: Route)
    | Group(prefix: string, pre: seq<Handler>, post: seq<Handler>, body: seq<Decl>)

  /** Does the regular expression made from a path compile? */
  type Compiles = string -> bool

  // ---------------------------------------------------------------- flattening

  /** The route of a group's subrouter as the group re-adds it. */
  function Nested(g: Decl, r: Route): Route
    requires g.Group?
  {
    Route(r.methods, g.prefix + r.path, g.pre + r.pre, r.handler, g.post + r.post)
  }

  /** add(): a route whose pattern does not compile is dropped. */
  function Added(ok: Compiles, r: Route): seq<Route> {
    if ok(r.path) then [r] else []
  }

  function AddNested(ok: Compiles, g: Decl, routes: seq<Route>): seq<Route>
    requires g.Group?
  {
    if routes == [] then [] else Added(ok, Nested(g, routes[0])) + AddNested(ok, g, routes[1..])
  }

  /** The table after a list of registrations. */
  function Table(ok: Compiles, decls: seq<Decl>): seq<Route>
    decreases decls
  {
    if decls == [] then [] else Entries(ok, decls[0]) + Table(ok, decls[1..])
  }

  function Entries(ok: Compiles, d: Decl): seq<Route>
    decreases d
  {
    match d
    case Add(r) => Added(ok, r)
    case Group(_, _, _, body) => AddNested(ok, d, Table(ok, body))
  }

  // ---------------------------------------------------------------- the meaning of nesting

  /** The groups around a declaration, the outermost first. */
  type Context = seq<Decl>

  predicate Groups(ctx: Context) {
    forall i | 0 <= i < |ctx| :: ctx[i].Group?
  }

  function Prefixes(ctx: Context): string
    requires Groups(ctx)
  {
    if ctx == [] then "" else ctx[0].prefix + Prefixes(ctx[1..])
  }

  function Pres(ctx: Context): seq<Handler>
    requires Groups(ctx)
  {
    if ctx == [] then [] else ctx[0].pre + Pres(ctx[1..])
  }

  function Posts(ctx: Context): seq<Handler>
    requires Groups(ctx)
  {
    if ctx == [] then [] else ctx[0].post + Posts(ctx[1..])
  }

  /** A route as seen from outside all its groups: prefixes concatenated, middlewares of the outer
      groups before those of the inner ones, its own last. */
  function Seen(ctx: Context, r: Route): Route
    requires Groups(ctx)
  {
    Route(r.methods, Prefixes(ctx) + r.path, Pres(ctx) + r.pre, r.handler, Posts(ctx) + r.post)
  }

  /** Every pattern on the way out compiles: the route's own, with the innermost prefix, and so on. */
  predicate Survives(ok: Compiles, ctx: Context, r: Route)
    requires Groups(ctx)
  {
    ok(Prefixes(ctx) + r.path) && (ctx == [] || Survives(ok, ctx[1..], r))
  }

  /** The reference meaning of a declaration tree: the first route, in the order of declaration, that
      survives and is wanted, found by walking the tree without building any table. */
  function Walk(ok: Compiles, want: Route -> bool, ctx: Context, decls: seq<Decl>): Option<Route>
    requires Groups(ctx)
    decreases decls
  {
    if decls == [] then None
    else
      var first := WalkOne(ok, want, ctx, decls[0]);
      if first.Some? then first else Walk(ok, want, ctx, decls[1..])
  }

  function WalkOne(ok: Compiles, want: Route -> bool, ctx: Context, d: Decl): Option<Route>
    requires Groups(ctx)
    decreases d
  {
    match d
    case Add(r) => if Survives(ok, ctx, r) && want(Seen(ctx, r)) then Some(Seen(ctx, r)) else None
    case Group(_, _, _, body) => Walk(ok, want, ctx + [d], body)
  }

  /** The first wanted entry of a table. */
  function First(want: Route -> bool, routes: seq<Route>): Option<Route> {
    if routes == [] then None else if want(routes[0]) then Some(routes[0]) else First(want, routes[1..])
  }

  /** A whole list of routes moved out of the groups around it. */
  function Lifted(ok: Compiles, ctx: Context, routes: seq<Route>): seq<Route>
    requires Groups(ctx)
    decreases |ctx|
  {
    if ctx == [] then routes else Lifted(ok, ctx[..|ctx| - 1], AddNested(ok, ctx[|ctx| - 1], routes))
  }

  lemma {:induction false} AddNestedOfBoth(ok: Compiles, g: Decl, a: seq<Route>, b: seq<Route>)
    requires g.Group?
    ensures AddNested(ok, g, a + b) == AddNested(ok, g, a) + AddNested(ok, g, b)
  {
    if a == [] {
      assert a + b == b;
    } else {
      assert (a + b)[1..] == a[1..] + b;
      AddNestedOfBoth(ok, g, a[1..], b);
    }
  }

  lemma {:induction false} LiftedOfBoth(ok: Compiles, ctx: Context, a: seq<Route>, b: seq<Route>)
    requires Groups(ctx)
    ensures Lifted(ok, ctx, a + b) == Lifted(ok, ctx, a) + Lifted(ok, ctx, b)
    decreases |ctx|
  {
    if ctx != [] {
      var g := ctx[|ctx| - 1];
      AddNestedOfBoth(ok, g, a, b);
      LiftedOfBoth(ok, ctx[..|ctx| - 1], AddNested(ok, g, a), AddNested(ok, g, b));
    }
  }

  lemma {:induction false} OuterLast(ctx: Context, g: Decl)
    requires Groups(ctx) && g.Group?
    ensures Prefixes(ctx + [g]) == Prefixes(ctx) + g.prefix
    ensures Pres(ctx + [g]) == Pres(ctx) + g.pre
    ensures Posts(ctx + [g]) == Posts(ctx) + g.post
  {
    if ctx == [] {
      assert ctx + [g] == [g];
      assert Prefixes([]) == "" && Pres([]) == [] && Posts([]) == [];
    } else {
      assert (ctx + [g])[1..] == ctx[1..] + [g];
      OuterLast(ctx[1..], g);
    }
  }

  /** Moving a route out of its innermost group first or of all groups at once is the same. */
  lemma {:induction false} SeenStep(ok: Compiles, ctx: Context, g: Decl, r: Route)
    requires Groups(ctx) && g.Group?
    ensures Groups(ctx + [g])
    ensures Seen(ctx + [g], r) == Seen(ctx, Nested(g, r))
    ensures Survives(ok, ctx + [g], r) <==> Survives(ok, ctx, Nested(g, r)) && ok(r.path)
  {
    OuterLast(ctx, g);
    assert Prefixes(ctx) + g.prefix + r.path == Prefixes(ctx) + (g.prefix + r.path);
    assert Pres(ctx) + g.pre + r.pre == Pres(ctx) + (g.pre + r.pre);
    assert Posts(ctx) + g.post + r.post == Posts(ctx) + (g.post + r.post);
    if ctx == [] {
      assert (ctx + [g])[1..] == [];
      assert Prefixes([]) + r.path == r.path;
      assert Prefixes([]) + (g.prefix + r.path) == g.prefix + r.path;
    } else {
      assert (ctx + [g])[1..] == ctx[1..] + [g];
      SeenStep(ok, ctx[1..], g, r);
    }
  }

  /** One route lifted: itself as seen from outside, if every pattern on the way compiles. */
  lemma {:induction false} LiftedOne(ok: Compiles, ctx: Context, r: Route)
    requires Groups(ctx)
    ensures Lifted(ok, ctx, Added(ok, r)) == if Survives(ok, ctx, r) then [Seen(ctx, r)] else []
    decreases |ctx|
  {
    if ctx == [] {
      assert Prefixes([]) + r.path == r.path;
      assert Seen([], r) == r;
    } else {
      var g := ctx[|ctx| - 1];
      var outer := ctx[..|ctx| - 1];
      assert ctx == outer + [g];
      SeenStep(ok, outer, g, r);
      if ok(r.path) {
        OneNested(ok, g, r);
        LiftedOne(ok, outer, Nested(g, r));
      } else {
        LiftedNothing(ok, ctx);
      }
    }
  }

  lemma OneNested(ok: Compiles, g: Decl, r: Route)
    requires g.Group?
    ensures AddNested(ok, g, [r]) == Added(ok, Nested(g, r))
  {
    assert [r][1..] == [];
    assert AddNested(ok, g, []) == [];
    var a := Added(ok, Nested(g, r));
    assert a + [] == a;
  }

  lemma {:induction false} LiftedNothing(ok: Compiles, ctx: Context)
    requires Groups(ctx)
    ensures Lifted(ok, ctx, []) == []
    decreases |ctx|
  {
    if ctx != [] {
      LiftedNothing(ok, ctx[..|ctx| - 1]);
    }
  }

  lemma {:induction false} FirstOfBoth(want: Route -> bool, a: seq<Route>, b: seq<Route>)
    ensures First(want, a + b) == if First(want, a).Some? then First(want, a) else First(want, b)
  {
    if a == [] {
      assert a + b == b;
    } else {
      assert (a + b)[1..] == a[1..] + b;
      FirstOfBoth(want, a[1..], b);
    }
  }

  /** Flattening preserves meaning: searching the flat table finds what walking the tree finds. */
  lemma {:induction false} TableMeansTree(ok: Compiles, want: Route -> bool, ctx: Context, decls: seq<Decl>)
    requires Groups(ctx)
    ensures First(want, Lifted(ok, ctx, Table(ok, decls))) == Walk(ok, want, ctx, decls)
    decreases decls
  {
    if decls == [] {
      LiftedNothing(ok, ctx);
    } else {
      EntriesMeanTree(ok, want, ctx, decls[0]);
      TableMeansTree(ok, want, ctx, decls[1..]);
      LiftedOfBoth(ok, ctx, Entries(ok, decls[0]), Table(ok, decls[1..]));
      FirstOfBoth(want, Lifted(ok, ctx, Entries(ok, decls[0])), Lifted(ok, ctx, Table(ok, decls[1..])));
    }
  }

  lemma {:induction false} EntriesMeanTree(ok: Compiles, want: Route -> bool, ctx: Context, d: Decl)
    requires Groups(ctx)
    ensures First(want, Lifted(ok, ctx, Entries(ok, d))) == WalkOne(ok, want, ctx, d)
    decreases d
  {
    match d
    case Add(r) => LiftedOne(ok, ctx, r);
    case Group(_, _, _, body) =>
      TableMeansTree(ok, want, ctx + [d], body);
      assert (ctx + [d])[..|ctx|] == ctx;
  }

  /** The same for the whole router. */
  lemma DispatchPreserved(ok: Compiles, want: Route -> bool, decls: seq<Decl>)
    ensures First(want, Table(ok, decls)) == Walk(ok, want, [], decls)
  {
    TableMeansTree(ok, want, [], decls);
  }

  // ---------------------------------------------------------------- two groups or one

  /** One group with both prefixes, and the outer middlewares before the inner ones. */
  function Merged(outer: Decl, inner: Decl): Decl
    requires outer.Group? && inner.Group?
  {
    Group(outer.prefix + inner.prefix, outer.pre + inner.pre, outer.post + inner.post, inner.body)
  }

  function Twice(outer: Decl, inner: Decl): Decl
    requires outer.Group? && inner.Group?
  {
    Group(outer.prefix, outer.pre, outer.post, [inner])
  }

  /** No route is dropped only because it does not compile with the inner prefix alone. */
  ghost predicate InnerCompiles(ok: Compiles, outer: Decl, inner: Decl, routes: seq<Route>)
    requires outer.Group? && inner.Group?
  {
    forall i | 0 <= i < |routes| :: ok(outer.prefix + (inner.prefix + routes[i].path)) ==> ok(inner.prefix + routes[i].path)
  }

  lemma {:induction false} NestingRoutes(ok: Compiles, outer: Decl, inner: Decl, routes: seq<Route>)
    requires outer.Group? && inner.Group?
    ensures var nested := AddNested(ok, outer, AddNested(ok, inner, routes));
            var merged := AddNested(ok, Merged(outer, inner), routes);
            && |nested| <= |merged|
            && (InnerCompiles(ok, outer, inner, routes) ==> nested == merged)
            && (|nested| == |merged| ==> InnerCompiles(ok, outer, inner, routes))
  {
    if routes != [] {
      var r, rest := routes[0], routes[1..];
      NestingRoutes(ok, outer, inner, rest);
      AddNestedOfBoth(ok, outer, Added(ok, Nested(inner, r)), AddNested(ok, inner, rest));
      assert outer.prefix + (inner.prefix + r.path) == (outer.prefix + inner.prefix) + r.path;
      assert Nested(Merged(outer, inner), r) == Nested(outer, Nested(inner, r)) by {
        assert outer.pre + (inner.pre + r.pre) == (outer.pre + inner.pre) + r.pre;
        assert outer.post + (inner.post + r.post) == (outer.post + inner.post) + r.post;
      }
      var one := Added(ok, Nested(inner, r));
      if one != [] {
        assert AddNested(ok, outer, one) == Added(ok, Nested(outer, Nested(inner, r))) + AddNested(ok, outer, one[1..]);
      }
      if InnerCompiles(ok, outer, inner, routes) {
        forall i | 0 <= i < |rest|
          ensures ok(outer.prefix + (inner.prefix + rest[i].path)) ==> ok(inner.prefix + rest[i].path)
        {
          assert rest[i] == routes[i + 1];
        }
        assert routes[0] == r;
      }
    }
  }

  /** Nesting two groups is the same as one merged group exactly when no route of the body is lost
      because its pattern does not compile with the inner prefix alone; in particular when all
      patterns compile. */
  lemma NestedGroupsMerge(ok: Compiles, outer: Decl, inner: Decl)
    requires outer.Group? && inner.Group?
    ensures Table(ok, [Twice(outer, inner)]) == Table(ok, [Merged(outer, inner)]) <==>
            InnerCompiles(ok, outer, inner, Table(ok, inner.body))
  {
    var routes := Table(ok, inner.body);
    NestingRoutes(ok, outer, inner, routes);
    OneEntry(ok, inner);
    OneEntry(ok, Twice(outer, inner));
    OneEntry(ok, Merged(outer, inner));
    SameGroup(ok, outer, Twice(outer, inner), AddNested(ok, inner, routes));
  }

  /** Two groups that differ: with any notion of compiling that takes "/a" and "/{/{x:(}/a" but not
      "/{x:(}/a". By sources/Core/Router.cpp:17-57 the second is read up to its malformed brace, which
      leaves the pattern of "/"; the last has an unbalanced parenthesis as its custom expression. */
  lemma NestingDiffers(ok: Compiles, r: Route)
    requires r.path == "/a" && ok("/a") && !ok("/{x:(}/a") && ok("/{/{x:(}/a")
    ensures var outer, inner := Group("/{", [], [], []), Group("/{x:(}", [], [], [Add(r)]);
            && Table(ok, [Twice(outer, inner)]) == []
            && Table(ok, [Merged(outer, inner)]) == [Route(r.methods, "/{/{x:(}/a", r.pre, r.handler, r.post)]
  {
    var outer, inner := Group("/{", [], [], []), Group("/{x:(}", [], [], [Add(r)]);
    OneEntry(ok, Add(r));
    OneEntry(ok, inner);
    OneEntry(ok, Twice(outer, inner));
    OneEntry(ok, Merged(outer, inner));
    assert inner.prefix + r.path == "/{x:(}/a";
    assert Merged(outer, inner).prefix + r.path == "/{/{x:(}/a";
    OneNested(ok, inner, r);
    OneNested(ok, Merged(outer, inner), r);
    assert [] + r.pre == r.pre && [] + r.post == r.post;
  }

  /** One such notion: everything else compiles. */
  lemma NestedGroupsDiffer(r: Route)
    requires r.path == "/a"
    ensures var outer, inner := Group("/{", [], [], []), Group("/{x:(}", [], [], [Add(r)]);
            Table(path => path != "/{x:(}/a", [Twice(outer, inner)]) != Table(path => path != "/{x:(}/a", [Merged(outer, inner)])
  {
    NestingDiffers(path => path != "/{x:(}/a", r);
  }

  lemma OneEntry(ok: Compiles, d: Decl)
    ensures Table(ok, [d]) == Entries(ok, d)
  {
    assert [d][1..] == [];
    assert Table(ok, []) == [];
    assert Entries(ok, d) + [] == Entries(ok, d);
  }

  /** A group's own declarations play no part in how it re-adds routes. */
  lemma {:induction false} SameGroup(ok: Compiles, g: Decl, h: Decl, routes: seq<Route>)
    requires g.Group? && h.Group? && g.prefix == h.prefix && g.pre == h.pre && g.post == h.post
    ensures AddNested(ok, g, routes) == AddNested(ok, h, routes)
  {
    if routes != [] {
      SameGroup(ok, g, h, routes[1..]);
    }
  }
}

/** Dispatch of a request on the flat table. The state is whatever handlers read and write: the request
    and the response, with the client's address (stored by `locate`, see TrustedProxies) and the path
    parameters of the chosen route (stored by `capture`). A handler may leave a response, throw, or both. */
module RouteDispatch {
  import opened Optional
  import opened RouteTable

  datatype Outcome<+S> = Done(s: S) | Thrown(s: S)

  /** What a WebSocket middleware says about an upgrade. */
  datatype Verdict<+S> = Passed(s: S) | Refused(s: S) | Failed(s: S)

  datatype Env<!S> = Env(
    run: (HandlerId, S) -> Outcome<S>,
    guard: (HandlerId, S) -> Verdict<S>,
    responded: S -> bool,
    target: S -> Option<string>,
    verb: S -> Verb,
    matches: (string, string) -> bool,
    reject: S -> S,
    locate: S -> S,
    capture: (string, string, S) -> S,
    internalError: HandlerId,
    methodNotAllowed: HandlerId,
    notFound: HandlerId)

  // ---------------------------------------------------------------- chains

  function HttpOnly(handlers: seq<Handler>): seq<HandlerId> {
    if handlers == [] then []
    else (if handlers[0].Http? then [handlers[0].id] else []) + HttpOnly(handlers[1..])
  }

  function WebSocketOnly(handlers: seq<Handler>): seq<HandlerId> {
    if handlers == [] then []
    else (if handlers[0].WebSocket? then [handlers[0].id] else []) + WebSocketOnly(handlers[1..])
  }

  predicate Over<S>(env: Env<S>, o: Outcome<S>) {
    o.Thrown? || env.responded(o.s)
  }

  /** Handlers in order, until one leaves a response or throws. */
  function RunChain<S>(env: Env<S>, ids: seq<HandlerId>, s: S): Outcome<S>
    decreases |ids|
  {
    if ids == [] then Done(s)
    else
      var o := env.run(ids[0], s);
      if Over(env, o) then o else RunChain(env, ids[1..], o.s)
  }

  /** All the handlers in order, whatever they leave; only an exception stops them. */
  function RunAll<S>(env: Env<S>, ids: seq<HandlerId>, s: S): Outcome<S>
    decreases |ids|
  {
    if ids == [] then Done(s)
    else
      var o := RunAll(env, ids[..|ids| - 1], s);
      if o.Thrown? then o else env.run(ids[|ids| - 1], o.s)
  }

  /** The route's own call operator: middlewares before, handler, middlewares after. */
  function RouteRun<S>(env: Env<S>, r: Route, s: S): Outcome<S> {
    var before := RunChain(env, HttpOnly(r.pre), s);
    if Over(env, before) then before
    else
      var o := env.run(r.handler.id, before.s);
      if Over(env, o) then o else RunChain(env, HttpOnly(r.post), o.s)
  }

  function Chain(r: Route): seq<HandlerId> {
    HttpOnly(r.pre) + [r.handler.id] + HttpOnly(r.post)
  }

  lemma {:induction false} ChainOfBoth<S>(env: Env<S>, a: seq<HandlerId>, b: seq<HandlerId>, s: S)
    requires a == [] ==> !env.responded(s)
    ensures var o := RunChain(env, a, s);
            RunChain(env, a + b, s) == if Over(env, o) then o else RunChain(env, b, o.s)
    decreases |a|
  {
    if a == [] {
      assert a + b == b;
    } else {
      assert (a + b)[1..] == a[1..] + b;
      var o := env.run(a[0], s);
      if !Over(env, o) {
        ChainOfBoth(env, a[1..], b, o.s);
      }
    }
  }

  lemma {:induction false} AllFromFront<S>(env: Env<S>, ids: seq<HandlerId>, s: S)
    requires ids != []
    ensures var o := env.run(ids[0], s);
            RunAll(env, ids, s) == if o.Thrown? then o else RunAll(env, ids[1..], o.s)
    decreases |ids|
  {
    var front := ids[..|ids| - 1];
    if front == [] {
      assert RunAll(env, front, s) == Done(s);
      assert ids[1..] == [];
    } else {
      AllFromFront(env, front, s);
      assert front[1..] == ids[1..][..|ids| - 2];
    }
  }

  /** The number of handlers of a chain that run. */
  function Count<S>(env: Env<S>, ids: seq<HandlerId>, s: S): (k: nat)
    ensures k <= |ids|
    decreases |ids|
  {
    if ids == [] then 0
    else
      var o := env.run(ids[0], s);
      if Over(env, o) then 1 else 1 + Count(env, ids[1..], o.s)
  }

  /** A chain runs exactly its shortest prefix that leaves a response or throws, or all of itself if no
      prefix does. */
  lemma {:induction false} ShortestPrefix<S>(env: Env<S>, ids: seq<HandlerId>, s: S)
    ensures var k := Count(env, ids, s);
            && RunChain(env, ids, s) == RunAll(env, ids[..k], s)
            && (k < |ids| ==> Over(env, RunChain(env, ids, s)))
            && forall j | 0 < j < k :: !Over(env, RunAll(env, ids[..j], s))
    decreases |ids|
  {
    var k := Count(env, ids, s);
    if ids != [] {
      var o := env.run(ids[0], s);
      AllFromFront(env, ids[..1], s);
      assert ids[..1][1..] == [];
      if !Over(env, o) {
        ShortestPrefix(env, ids[1..], o.s);
        AllFromFront(env, ids[..k], s);
        assert ids[..k][1..] == ids[1..][..k - 1];
        forall j | 0 < j < k ensures !Over(env, RunAll(env, ids[..j], s)) {
          AllFromFront(env, ids[..j], s);
          assert ids[..j][1..] == ids[1..][..j - 1];
          if j > 1 {
            assert !Over(env, RunAll(env, ids[1..][..j - 1], o.s));
          }
        }
      }
    }
  }

  /** A request that has no response yet runs the shortest prefix of its own route's chain: the HTTP
      middlewares before, the handler, the HTTP middlewares after. */
  lemma RouteRunsItsChain<S>(env: Env<S>, r: Route, s: S)
    requires !env.responded(s)
    ensures RouteRun(env, r, s) == RunChain(env, Chain(r), s)
    ensures var k := Count(env, Chain(r), s);
            && RouteRun(env, r, s) == RunAll(env, Chain(r)[..k], s)
            && (k < |Chain(r)| ==> Over(env, RouteRun(env, r, s)))
            && forall j | 0 < j < k :: !Over(env, RunAll(env, Chain(r)[..j], s))
  {
    var pre, post := HttpOnly(r.pre), HttpOnly(r.post);
    var before := RunChain(env, pre, s);
    assert Chain(r) == pre + ([r.handler.id] + post);
    ChainOfBoth(env, pre, [r.handler.id] + post, s);
    if !Over(env, before) {
      assert ([r.handler.id] + post)[1..] == post;
    }
    ShortestPrefix(env, Chain(r), s);
  }

  // ---------------------------------------------------------------- choosing a route

  predicate PathMatches<S>(env: Env<S>, r: Route, path: string) {
    r.handler.Http? && env.matches(r.path, path)
  }

  predicate Serves<S>(env: Env<S>, r: Route, path: string, verb: Verb) {
    PathMatches(env, r, path) && verb in r.methods
  }

  /** A route that leaves no response, or throws, is answered by the internal error handler. */
  function Repaired<S>(env: Env<S>, o: Outcome<S>): Outcome<S> {
    if o.Thrown? || !env.responded(o.s) then env.run(env.internalError, o.s) else o
  }

  function Choose<S>(env: Env<S>, path: string, byPathAndMethod: Option<Route>, byPath: Option<Route>, s: S): Outcome<S> {
    match byPathAndMethod
    case Some(r) => Repaired(env, RouteRun(env, r, env.capture(r.path, path, s)))
    case None => env.run(if byPath.Some? then env.methodNotAllowed else env.notFound, s)
  }

  /** The search in the flat table. */
  function Dispatch<S>(env: Env<S>, routes: seq<Route>, s: S): Outcome<S> {
    match env.target(s)
    case None => env.run(env.internalError, s)
    case Some(path) =>
      Choose(env, path, First(r => Serves(env, r, path, env.verb(s)), routes), First(r => PathMatches(env, r, path), routes), s)
  }

  /** The same choice made by walking the nested groups. */
  function DispatchTree<S>(env: Env<S>, ok: Compiles, decls: seq<Decl>, s: S): Outcome<S> {
    match env.target(s)
    case None => env.run(env.internalError, s)
    case Some(path) =>
      Choose(env, path, Walk(ok, r => Serves(env, r, path, env.verb(s)), [], decls), Walk(ok, r => PathMatches(env, r, path), [], decls), s)
  }

  /** Flattening nested groups preserves dispatch, errors included, for every request. */
  lemma FlatteningPreservesDispatch<S>(env: Env<S>, ok: Compiles, decls: seq<Decl>, s: S)
    ensures Dispatch(env, Table(ok, decls), s) == DispatchTree(env, ok, decls, s)
  {
    match env.target(s)
    case None =>
    case Some(path) =>
      DispatchPreserved(ok, r => Serves(env, r, path, env.verb(s)), decls);
      DispatchPreserved(ok, r => PathMatches(env, r, path), decls);
  }

  ghost predicate FirstAt(want: Route -> bool, routes: seq<Route>, i: nat) {
    i < |routes| && want(routes[i]) && forall j | 0 <= j < i :: !want(routes[j])
  }

  lemma {:induction false} FirstIsTheLeast(want: Route -> bool, routes: seq<Route>)
    ensures First(want, routes).None? <==> forall i | 0 <= i < |routes| :: !want(routes[i])
    ensures forall i: nat | FirstAt(want, routes, i) :: First(want, routes) == Some(routes[i])
  {
    if routes != [] && !want(routes[0]) {
      FirstIsTheLeast(want, routes[1..]);
      forall i: nat | FirstAt(want, routes, i) ensures First(want, routes) == Some(routes[i]) {
        assert FirstAt(want, routes[1..], i - 1);
      }
      if First(want, routes).None? {
        forall i | 0 <= i < |routes| ensures !want(routes[i]) {
          if i > 0 { assert routes[1..][i - 1] == routes[i]; }
        }
      }
    }
  }

  /** Which of the four endings a request with a valid target gets, by position in the table: the first
      HTTP route that has the path and the method; 405 exactly when some HTTP route has the path but none
      has both; 404 exactly when no HTTP route has the path. WebSocket routes play no part. */
  lemma DispatchChooses<S>(env: Env<S>, routes: seq<Route>, s: S, path: string)
    requires env.target(s) == Some(path)
    ensures forall i: nat | FirstAt(r => Serves(env, r, path, env.verb(s)), routes, i) ::
              Dispatch(env, routes, s) == Repaired(env, RouteRun(env, routes[i], env.capture(routes[i].path, path, s)))
    ensures (forall i | 0 <= i < |routes| :: !Serves(env, routes[i], path, env.verb(s))) ==>
            Dispatch(env, routes, s) ==
            env.run(if exists i :: 0 <= i < |routes| && PathMatches(env, routes[i], path) then env.methodNotAllowed else env.notFound, s)
  {
    FirstIsTheLeast(r => Serves(env, r, path, env.verb(s)), routes);
    FirstIsTheLeast(r => PathMatches(env, r, path), routes);
  }

  // ---------------------------------------------------------------- the whole request

  function Serve<S>(env: Env<S>, globals: seq<HandlerId>, routes: seq<Route>, s: S): Outcome<S> {
    var g := RunChain(env, globals, env.locate(s));
    if g.Thrown? then env.run(env.internalError, g.s)
    else if globals != [] && env.responded(g.s) then g
    else Dispatch(env, routes, g.s)
  }

  ghost predicate AlwaysAnswers<S(!new)>(env: Env<S>, id: HandlerId) {
    forall s :: env.run(id, s).Done? && env.responded(env.run(id, s).s)
  }

  /** Whatever middlewares and handlers do (throw, or leave no response), every request is answered and no
      exception escapes, as long as the three error handlers answer. */
  lemma EveryRequestIsAnswered<S(!new)>(env: Env<S>, globals: seq<HandlerId>, routes: seq<Route>, s: S)
    requires AlwaysAnswers(env, env.internalError)
    requires AlwaysAnswers(env, env.methodNotAllowed)
    requires AlwaysAnswers(env, env.notFound)
    ensures var o := Serve(env, globals, routes, s); o.Done? && env.responded(o.s)
  {
  }

  /** The internal error handler alone is needed for a request whose path and method have a route. */
  lemma {:induction false} RoutedRequestIsAnswered<S(!new)>(env: Env<S>, routes: seq<Route>, s: S, path: string, i: nat)
    requires AlwaysAnswers(env, env.internalError)
    requires env.target(s) == Some(path) && i < |routes| && Serves(env, routes[i], path, env.verb(s))
    ensures var o := Dispatch(env, routes, s); o.Done? && env.responded(o.s)
  {
    FirstIsTheLeast(r => Serves(env, r, path, env.verb(s)), routes);
  }

  // ---------------------------------------------------------------- upgrades

  /** The WebSocket middlewares before the handler: all must pass, the first that does not ends it. */
  function RunGuards<S>(env: Env<S>, ids: seq<HandlerId>, s: S): Verdict<S>
    decreases |ids|
  {
    if ids == [] then Passed(s)
    else
      var v := env.guard(ids[0], s);
      if v.Passed? then RunGuards(env, ids[1..], v.s) else v
  }

  datatype Upgrade<+S> = Admitted(index: nat, s: S) | Answered(o: Outcome<S>)

  /** The first route from index i on that is wanted. */
  function IndexFrom(want: Route -> bool, routes: seq<Route>, i: nat): (k: nat)
    requires i <= |routes|
    ensures i <= k <= |routes|
    ensures k < |routes| ==> want(routes[k])
    ensures forall j | i <= j < k :: !want(routes[j])
    decreases |routes| - i
  {
    if i == |routes| || want(routes[i]) then i else IndexFrom(want, routes, i + 1)
  }

  predicate Accepts<S>(env: Env<S>, r: Route, path: string) {
    r.handler.WebSocket? && env.matches(r.path, path)
  }

  function Admit<S>(env: Env<S>, routes: seq<Route>, start: S): Upgrade<S> {
    var s := env.locate(start);
    match env.target(s)
    case None => Answered(env.run(env.internalError, s))
    case Some(path) =>
      var i := IndexFrom(r => Accepts(env, r, path), routes, 0);
      if i == |routes| then Answered(env.run(env.notFound, s))
      else
        match RunGuards(env, WebSocketOnly(routes[i].pre), env.capture(routes[i].path, path, s))
        case Passed(t) => Admitted(i, t)
        case Refused(t) => Answered(Done(env.reject(t)))
        case Failed(t) => Answered(env.run(env.internalError, t))
  }

  /** The state in which guard j of a chain is asked. */
  function Before<S>(env: Env<S>, ids: seq<HandlerId>, s: S, j: nat): S
    requires j <= |ids|
    decreases j
  {
    if j == 0 then s else env.guard(ids[j - 1], Before(env, ids, s, j - 1)).s
  }

  lemma {:induction false} BeforeFromFront<S>(env: Env<S>, ids: seq<HandlerId>, s: S, j: nat)
    requires 0 < j <= |ids|
    ensures Before(env, ids, s, j) == Before(env, ids[1..], env.guard(ids[0], s).s, j - 1)
    decreases j
  {
    if j > 1 {
      BeforeFromFront(env, ids, s, j - 1);
      assert ids[j - 1] == ids[1..][j - 2];
    } else {
      assert Before(env, ids, s, 0) == s;
    }
  }

  ghost predicate AllPass<S>(env: Env<S>, ids: seq<HandlerId>, s: S) {
    forall j: nat | j < |ids| :: env.guard(ids[j], Before(env, ids, s, j)).Passed?
  }

  lemma {:induction false} GuardsPassExactly<S>(env: Env<S>, ids: seq<HandlerId>, s: S)
    ensures RunGuards(env, ids, s).Passed? <==> AllPass(env, ids, s)
    ensures RunGuards(env, ids, s).Passed? ==> RunGuards(env, ids, s).s == Before(env, ids, s, |ids|)
    decreases |ids|
  {
    if ids != [] {
      var v := env.guard(ids[0], s);
      assert Before(env, ids, s, 0) == s;
      if v.Passed? {
        GuardsPassExactly(env, ids[1..], v.s);
        BeforeFromFront(env, ids, s, |ids|);
        forall j: nat | 0 < j < |ids|
          ensures Before(env, ids, s, j) == Before(env, ids[1..], v.s, j - 1) && ids[j] == ids[1..][j - 1]
        {
          BeforeFromFront(env, ids, s, j);
        }
        if AllPass(env, ids, s) {
          forall j: nat | j < |ids[1..]| ensures env.guard(ids[1..][j], Before(env, ids[1..], v.s, j)).Passed? {
            assert env.guard(ids[j + 1], Before(env, ids, s, j + 1)).Passed?;
            assert ids[j + 1] == ids[1..][j];
          }
        }
      }
    }
  }

  /** An upgrade is admitted on route i exactly when the target is valid, i is the first WebSocket route
      with its path, and every WebSocket middleware before the handler passes in turn. A refusal never
      falls through to a later route. */
  lemma AdmittedExactly<S>(env: Env<S>, routes: seq<Route>, start: S, i: nat)
    ensures var s := env.locate(start);
            (Admit(env, routes, start).Admitted? && Admit(env, routes, start).index == i) <==>
            && env.target(s).Some?
            && FirstAt(r => Accepts(env, r, env.target(s).value), routes, i)
            && AllPass(env, WebSocketOnly(routes[i].pre), env.capture(routes[i].path, env.target(s).value, s))
  {
    var s := env.locate(start);
    if env.target(s).Some? {
      var path := env.target(s).value;
      var k := IndexFrom(r => Accepts(env, r, path), routes, 0);
      if k < |routes| {
        GuardsPassExactly(env, WebSocketOnly(routes[k].pre), env.capture(routes[k].path, path, s));
      }
    }
  }
}

/** The router: its table and global middlewares, changed and searched in place. */
module RouterObject {
  import opened Optional
  import opened RouteTable
  import opened RouteDispatch

  class Router {
    var routes: seq<Route>
    var globals: seq<HandlerId>

    constructor ()
      ensures routes == [] && globals == []
    {
      routes, globals := [], [];
    }

    method Use(id: HandlerId)
      modifies this`globals
      ensures globals == old(globals) + [id]
    {
      globals := globals + [id];
    }

    method AddRoute(ok: Compiles, r: Route)
      modifies this`routes
      ensures routes == old(routes) + Added(ok, r)
    {
      if ok(r.path) {
        routes := routes + [r];
      }
    }

    /** What a registration function does. */
    method Register(ok: Compiles, decls: seq<Decl>)
      modifies this`routes
      ensures routes == old(routes) + Table(ok, decls)
      decreases decls
    {
      var i := 0;
      while i < |decls|
        invariant 0 <= i <= |decls|
        invariant routes + Table(ok, decls[i..]) == old(routes) + Table(ok, decls)
      {
        ghost var was := routes;
        assert decls[i..][1..] == decls[i + 1..];
        match decls[i] {
          case Add(r) => AddRoute(ok, r);
          case Group(_, _, _, _) => MakeGroup(ok, decls[i]);
        }
        assert routes == was + Entries(ok, decls[i]);
        assert was + Entries(ok, decls[i]) + Table(ok, decls[i + 1..]) == was + Table(ok, decls[i..]);
        i := i + 1;
      }
      assert decls[i..] == [];
    }

    method MakeGroup(ok: Compiles, g: Decl)
      requires g.Group?
      modifies this`routes
      ensures routes == old(routes) + Entries(ok, g)
      decreases g
    {
      var sub := new Router();
      sub.Register(ok, g.body);
      assert sub.routes == Table(ok, g.body);
      ReAdd(ok, g, sub.routes);
    }

    /** The loop of group() over the routes of its subrouter. */
    method ReAdd(ok: Compiles, g: Decl, nested: seq<Route>)
      requires g.Group?
      modifies this`routes
      ensures routes == old(routes) + AddNested(ok, g, nested)
    {
      var i := 0;
      while i < |nested|
        invariant 0 <= i <= |nested|
        invariant routes + AddNested(ok, g, nested[i..]) == old(routes) + AddNested(ok, g, nested)
      {
        ghost var was := routes;
        var r := nested[i];
        assert nested[i..][1..] == nested[i + 1..];
        AddRoute(ok, Nested(g, r));
        assert was + Added(ok, Nested(g, r)) + AddNested(ok, g, nested[i + 1..]) == was + AddNested(ok, g, nested[i..]);
        i := i + 1;
      }
      assert nested[i..] == [];
    }

    /** A middleware chain of one kind, as every chain of the router runs. */
    method Middlewares<S>(env: Env<S>, handlers: seq<Handler>, s: S) returns (o: Outcome<S>)
      ensures o == RunChain(env, HttpOnly(handlers), s)
    {
      o := Done(s);
      var i := 0;
      while i < |handlers|
        invariant 0 <= i <= |handlers|
        invariant o.Done? && RunChain(env, HttpOnly(handlers[i..]), o.s) == RunChain(env, HttpOnly(handlers), s)
      {
        var h := handlers[i];
        assert handlers[i..][1..] == handlers[i + 1..];
        if h.Http? {
          assert HttpOnly(handlers[i..])[1..] == HttpOnly(handlers[i + 1..]);
          o := env.run(h.id, o.s);
          if Over(env, o) {
            return;
          }
        } else {
          assert HttpOnly(handlers[i..]) == HttpOnly(handlers[i + 1..]);
        }
        i := i + 1;
      }
    }

    method RunRoute<S>(env: Env<S>, r: Route, s: S) returns (o: Outcome<S>)
      ensures o == RouteRun(env, r, s)
    {
      o := Middlewares(env, r.pre, s);
      if o.Done? && !env.responded(o.s) {
        o := env.run(r.handler.id, o.s);
        if o.Done? && !env.responded(o.s) {
          o := Middlewares(env, r.post, o.s);
        }
      }
    }

    /** route(): global middlewares, then the search. */
    method RouteRequest<S>(env: Env<S>, s: S) returns (o: Outcome<S>)
      ensures o == Serve(env, globals, routes, s)
    {
      var located := env.locate(s);
      var at := located;
      var i := 0;
      while i < |globals|
        invariant 0 <= i <= |globals|
        invariant i > 0 ==> !env.responded(at)
        invariant RunChain(env, globals[i..], at) == RunChain(env, globals, located)
        invariant i == 0 ==> at == located
      {
        assert globals[i..][1..] == globals[i + 1..];
        o := env.run(globals[i], at);
        if o.Thrown? {
          o := env.run(env.internalError, o.s);
          return;
        }
        if env.responded(o.s) {
          return;
        }
        at := o.s;
        i := i + 1;
      }
      assert RunChain(env, globals[i..], at) == Done(at);
      var target := env.target(at);
      if target.None? {
        o := env.run(env.internalError, at);
        return;
      }
      o := Search(env, target.value, at);
    }

    method Search<S>(env: Env<S>, path: string, s: S) returns (o: Outcome<S>)
      requires env.target(s) == Some(path)
      ensures o == Dispatch(env, routes, s)
    {
      var pathMatched := false;
      ghost var serves := r => Serves(env, r, path, env.verb(s));
      ghost var hasPath := r => PathMatches(env, r, path);
      var i := 0;
      while i < |routes|
        invariant 0 <= i <= |routes|
        invariant forall j | 0 <= j < i :: !serves(routes[j])
        invariant pathMatched <==> exists j :: 0 <= j < i && hasPath(routes[j])
      {
        var r := routes[i];
        if r.handler.Http? && env.matches(r.path, path) {
          pathMatched := true;
          assert hasPath(routes[i]);
          if env.verb(s) in r.methods {
            assert FirstAt(serves, routes, i);
            FirstIsTheLeast(serves, routes);
            o := RunRoute(env, r, env.capture(r.path, path, s));
            if o.Thrown? || !env.responded(o.s) {
              o := env.run(env.internalError, o.s);
            }
            return;
          }
        }
        i := i + 1;
      }
      FirstIsTheLeast(serves, routes);
      FirstIsTheLeast(hasPath, routes);
      o := env.run(if pathMatched then env.methodNotAllowed else env.notFound, s);
    }

    method Guards<S>(env: Env<S>, handlers: seq<Handler>, s: S) returns (v: Verdict<S>)
      ensures v == RunGuards(env, WebSocketOnly(handlers), s)
    {
      v := Passed(s);
      var i := 0;
      while i < |handlers|
        invariant 0 <= i <= |handlers|
        invariant v.Passed? && RunGuards(env, WebSocketOnly(handlers[i..]), v.s) == RunGuards(env, WebSocketOnly(handlers), s)
      {
        var h := handlers[i];
        assert handlers[i..][1..] == handlers[i + 1..];
        if h.WebSocket? {
          assert WebSocketOnly(handlers[i..])[1..] == WebSocketOnly(handlers[i + 1..]);
          v := env.guard(h.id, v.s);
          if !v.Passed? {
            return;
          }
        } else {
          assert WebSocketOnly(handlers[i..]) == WebSocketOnly(handlers[i + 1..]);
        }
        i := i + 1;
      }
    }

    /** upgrade(): the first WebSocket route with the path decides. */
    method UpgradeRequest<S>(env: Env<S>, start: S) returns (u: Upgrade<S>)
      ensures u == Admit(env, routes, start)
    {
      var s := env.locate(start);
      var target := env.target(s);
      if target.None? {
        return Answered(env.run(env.internalError, s));
      }
      ghost var accepts := r => Accepts(env, r, target.value);
      var i := 0;
      while i < |routes|
        invariant 0 <= i <= |routes|
        invariant IndexFrom(accepts, routes, 0) == IndexFrom(accepts, routes, i)
      {
        if routes[i].handler.WebSocket? && env.matches(routes[i].path, target.value) {
          var v := Guards(env, routes[i].pre, env.capture(routes[i].path, target.value, s));
          match v {
            case Passed(t) => return Admitted(i, t);
            case Refused(t) => return Answered(Done(env.reject(t)));
            case Failed(t) => return Answered(env.run(env.internalError, t));
          }
        }
        i := i + 1;
      }
      u := Answered(env.run(env.notFound, s));
    }
  }
}
