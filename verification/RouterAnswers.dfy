/** What a request and an upgrade get, said without the chains' own recursion
    (sources/Core/Router.cpp:99-142 and 266-407). */
module RouterAnswers {
  import opened Optional
  import opened RouteTable
  import opened RouteDispatch

  // ---------------------------------------------------------------- which handlers a chain has

  lemma Regroup(a: seq<HandlerId>, b: seq<HandlerId>, c: seq<HandlerId>)
    ensures a + (b + c) == (a + b) + c
  {
  }

  /** A chain keeps the handlers of its kind, all of them, in their order. */
  lemma {:induction false} HttpOfBoth(a: seq<Handler>, b: seq<Handler>)
    ensures HttpOnly(a + b) == HttpOnly(a) + HttpOnly(b)
    decreases |a|
  {
    if a == [] {
      assert a + b == b;
    } else {
      assert (a + b)[1..] == a[1..] + b;
      HttpOfBoth(a[1..], b);
      Regroup(if a[0].Http? then [a[0].id] else [], HttpOnly(a[1..]), HttpOnly(b));
    }
  }

  lemma {:induction false} WebSocketOfBoth(a: seq<Handler>, b: seq<Handler>)
    ensures WebSocketOnly(a + b) == WebSocketOnly(a) + WebSocketOnly(b)
    decreases |a|
  {
    if a == [] {
      assert a + b == b;
    } else {
      assert (a + b)[1..] == a[1..] + b;
      WebSocketOfBoth(a[1..], b);
      Regroup(if a[0].WebSocket? then [a[0].id] else [], WebSocketOnly(a[1..]), WebSocketOnly(b));
    }
  }

  lemma KindOfOne(h: Handler)
    ensures HttpOnly([h]) == if h.Http? then [h.id] else []
    ensures WebSocketOnly([h]) == if h.WebSocket? then [h.id] else []
  {
    assert [h][1..] == [];
  }

  lemma {:induction false} KindsKept(handlers: seq<Handler>, id: HandlerId)
    ensures id in HttpOnly(handlers) <==> Http(id) in handlers
    ensures id in WebSocketOnly(handlers) <==> WebSocket(id) in handlers
    ensures |HttpOnly(handlers)| + |WebSocketOnly(handlers)| == |handlers|
    decreases |handlers|
  {
    if handlers != [] {
      KindsKept(handlers[1..], id);
      assert handlers == [handlers[0]] + handlers[1..];
    }
  }

  // ---------------------------------------------------------------- requests

  /** route(): the client address is stored, then the global middlewares run, the shortest prefix of them
      that leaves a response or throws. A response ends the request; an exception is answered by the
      internal error handler; otherwise, all of them having run, the request is dispatched. */
  lemma GlobalsRunFirst<S>(env: Env<S>, globals: seq<HandlerId>, routes: seq<Route>, s: S)
    ensures var k := Count(env, globals, env.locate(s));
            var o := RunAll(env, globals[..k], env.locate(s));
            && k <= |globals|
            && (forall j | 0 < j < k :: !Over(env, RunAll(env, globals[..j], env.locate(s))))
            && (if o.Thrown? then Serve(env, globals, routes, s) == env.run(env.internalError, o.s)
                else if globals != [] && env.responded(o.s) then Serve(env, globals, routes, s) == o
                else k == |globals| && Serve(env, globals, routes, s) == Dispatch(env, routes, o.s))
  {
    ShortestPrefix(env, globals, env.locate(s));
  }

  /** A target that is no URL is answered by the internal error handler, and nothing else runs. */
  lemma BadTarget<S>(env: Env<S>, routes: seq<Route>, s: S)
    requires env.target(s).None?
    ensures Dispatch(env, routes, s) == env.run(env.internalError, s)
  {
  }

  /** The internal error handler runs after a route exactly when the route threw or left no response; a
      response is never replaced. */
  lemma ResponseStands<S>(env: Env<S>, routes: seq<Route>, s: S, path: string, i: nat)
    requires env.target(s) == Some(path) && FirstAt(r => Serves(env, r, path, env.verb(s)), routes, i)
    ensures var o := RouteRun(env, routes[i], env.capture(routes[i].path, path, s));
            Dispatch(env, routes, s) == if o.Done? && env.responded(o.s) then o else env.run(env.internalError, o.s)
  {
    DispatchChooses(env, routes, s, path);
  }

  /** Which of the endings a request with a valid target gets, in the terms of the table: the first HTTP
      route whose pattern matches the path and whose methods have the verb is run; with none, the handler
      is 405 if some HTTP route matches the path, otherwise 404. */
  lemma RouteChosen<S>(env: Env<S>, routes: seq<Route>, s: S, path: string)
    requires env.target(s) == Some(path)
    ensures forall i: nat ::
              && i < |routes| && routes[i].handler.Http? && env.matches(routes[i].path, path) && env.verb(s) in routes[i].methods
              && (forall j | 0 <= j < i :: routes[j].handler.WebSocket? || !env.matches(routes[j].path, path) || env.verb(s) !in routes[j].methods)
              ==> Dispatch(env, routes, s) == Repaired(env, RouteRun(env, routes[i], env.capture(routes[i].path, path, s)))
    ensures (forall i | 0 <= i < |routes| ::
               routes[i].handler.WebSocket? || !env.matches(routes[i].path, path) || env.verb(s) !in routes[i].methods) ==>
            var pathFound := exists i :: 0 <= i < |routes| && routes[i].handler.Http? && env.matches(routes[i].path, path);
            Dispatch(env, routes, s) == env.run(if pathFound then env.methodNotAllowed else env.notFound, s)
  {
    DispatchChooses(env, routes, s, path);
    forall i: nat |
      && i < |routes| && routes[i].handler.Http? && env.matches(routes[i].path, path) && env.verb(s) in routes[i].methods
      && (forall j | 0 <= j < i :: routes[j].handler.WebSocket? || !env.matches(routes[j].path, path) || env.verb(s) !in routes[j].methods)
      ensures FirstAt(r => Serves(env, r, path, env.verb(s)), routes, i)
    {
    }
    assert forall i | 0 <= i < |routes| :: PathMatches(env, routes[i], path) <==> routes[i].handler.Http? && env.matches(routes[i].path, path);
  }

  // ---------------------------------------------------------------- upgrades

  /** The route an upgrade is admitted on: the first WebSocket route whose pattern matches the path. */
  lemma AdmittedOnFirst<S>(env: Env<S>, routes: seq<Route>, start: S)
    ensures var u := Admit(env, routes, start);
            u.Admitted? ==>
              && env.target(env.locate(start)).Some?
              && u.index < |routes| && routes[u.index].handler.WebSocket?
              && env.matches(routes[u.index].path, env.target(env.locate(start)).value)
              && forall j | 0 <= j < u.index :: routes[j].handler.Http? || !env.matches(routes[j].path, env.target(env.locate(start)).value)
  {
    AdmittedExactly(env, routes, start, if Admit(env, routes, start).Admitted? then Admit(env, routes, start).index else 0);
  }

  /** The first middleware that does not pass ends the upgrade. */
  lemma {:induction false} FirstRefusal<S>(env: Env<S>, ids: seq<HandlerId>, s: S, j: nat)
    requires j < |ids| && !env.guard(ids[j], Before(env, ids, s, j)).Passed?
    requires forall i: nat | i < j :: env.guard(ids[i], Before(env, ids, s, i)).Passed?
    ensures RunGuards(env, ids, s) == env.guard(ids[j], Before(env, ids, s, j))
    decreases j
  {
    assert Before(env, ids, s, 0) == s;
    if j > 0 {
      var v := env.guard(ids[0], s);
      BeforeFromFront(env, ids, s, j);
      forall i: nat | i < j - 1 ensures env.guard(ids[1..][i], Before(env, ids[1..], v.s, i)).Passed? {
        BeforeFromFront(env, ids, s, i + 1);
        assert env.guard(ids[i + 1], Before(env, ids, s, i + 1)).Passed?;
      }
      FirstRefusal(env, ids[1..], v.s, j - 1);
    }
  }

  /** An upgrade whose target is no URL gets the internal error handler; one without a WebSocket route for
      its path the not-found handler. */
  lemma NoUpgradeRoute<S>(env: Env<S>, routes: seq<Route>, start: S)
    ensures var s := env.locate(start);
            && (env.target(s).None? ==> Admit(env, routes, start) == Answered(env.run(env.internalError, s)))
            && (env.target(s).Some? && (forall i | 0 <= i < |routes| :: !Accepts(env, routes[i], env.target(s).value)) ==>
                  Admit(env, routes, start) == Answered(env.run(env.notFound, s)))
  {
  }

  /** The first WebSocket route for the path decides: refused by a middleware, the upgrade gets the
      rejection; if the middleware throws, the internal error handler. */
  lemma RefusedUpgrade<S>(env: Env<S>, routes: seq<Route>, start: S, i: nat, j: nat)
    requires var s := env.locate(start);
             && env.target(s).Some? && FirstAt(r => Accepts(env, r, env.target(s).value), routes, i)
             && var ids := WebSocketOnly(routes[i].pre);
                var t := env.capture(routes[i].path, env.target(s).value, s);
                && j < |ids| && !env.guard(ids[j], Before(env, ids, t, j)).Passed?
                && forall k: nat | k < j :: env.guard(ids[k], Before(env, ids, t, k)).Passed?
    ensures var s := env.locate(start);
            var ids := WebSocketOnly(routes[i].pre);
            var v := env.guard(ids[j], Before(env, ids, env.capture(routes[i].path, env.target(s).value, s), j));
            Admit(env, routes, start) == Answered(if v.Refused? then Done(env.reject(v.s)) else env.run(env.internalError, v.s))
  {
    var s := env.locate(start);
    var path := env.target(s).value;
    var k := IndexFrom(r => Accepts(env, r, path), routes, 0);
    assert k == i;
    FirstRefusal(env, WebSocketOnly(routes[i].pre), env.capture(routes[i].path, path, s), j);
  }
}
