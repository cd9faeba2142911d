/** Where every connection of the pool is, from the factory to its end (include/cppgate/ConnectionPool.h):
    idle, in a handle, or in a call. */
module PoolConnections {
  import opened Optional
  import opened ConnectionPoolProtocol

  ghost predicate Somewhere(p: Pool, c: Conn) {
    exists x :: At(p, x) == Some(c)
  }

  /** The ways a connection is closed: found broken or too old, discarded, closed while idle by close(),
      or given back to a closed pool. */
  predicate Closes(p: Pool, a: Action, c: Conn) {
    match a
    case Checked(id, result) =>
      && id in p.calls && p.calls[id].CheckingOut? && p.calls[id].conn == c
      && (result == Broken || (result == Expired && p.calls[id].aboveMin))
    case Discard(h, id) => h in p.handles && p.Fresh(id) && p.handles[h] == c
    case CloseAction => !p.closed && c in p.idle
    case Proceed(id) => p.closed && id in p.calls && p.calls[id].GivingBack? && p.calls[id].conn == c
    case _ => false
  }

  // ---------------------------------------------------------------- nothing is lost

  lemma IdleStays(p: Pool, q: Pool, i: nat)
    requires i < |p.idle| && p.idle <= q.idle
    ensures Somewhere(q, p.idle[i])
  {
    assert At(q, InIdle(i)) == Some(p.idle[i]);
  }

  /** Where the connection at place x is after a lock-held section of call id. */
  lemma KeptByTaking(p: Pool, id: nat, x: Place)
    requires Inv(p) && id in p.calls && (p.calls[id].Trying? || p.calls[id].Warming?) && At(p, x).Some?
    ensures Somewhere(Locked(p, id), At(p, x).value)
  {
    var q := Locked(p, id);
    if At(q, x) != At(p, x) {
      assert At(q, InCall(id)) == At(p, x);
    }
  }

  lemma KeptByServing(p: Pool, connection: Option<Conn>, x: Place)
    requires Inv(p) && CanServe(p) && At(p, x).Some?
    ensures At(ServeFirst(p, connection), x) == At(p, x)
    ensures connection.Some? ==> At(ServeFirst(p, connection), InCall(p.waiters[0])) == connection
  {
    assert p.waiters[0] in p.waiters && Queued(p, p.waiters[0]);
  }

  lemma KeptByGivingBack(p: Pool, id: nat, x: Place)
    requires Inv(p) && id in p.calls && p.calls[id].GivingBack? && At(p, x).Some?
    ensures Somewhere(Locked(p, id), At(p, x).value) || (p.closed && At(p, x) == Some(p.calls[id].conn))
  {
    var q := Locked(p, id);
    var conn := p.calls[id].conn;
    if CanServe(p) {
      assert p.waiters[0] in p.waiters && Queued(p, p.waiters[0]);
      KeptByServing(p, Some(conn), x);
      assert At(q, InCall(p.waiters[0])) == Some(conn);
    } else if !p.closed {
      assert At(q, InIdle(|p.idle|)) == Some(conn);
    }
    assert x != InCall(id) ==> At(q, x) == At(p, x);
  }

  lemma KeptByDropping(p: Pool, id: nat, x: Place)
    requires Inv(p) && id in p.calls && p.calls[id].Dropping? && At(p, x).Some?
    ensures Somewhere(Locked(p, id), At(p, x).value)
  {
    if CanServe(p) {
      assert p.waiters[0] in p.waiters && Queued(p, p.waiters[0]);
      KeptByServing(p, None, x);
    }
    assert At(Locked(p, id), x) == At(p, x);
  }

  lemma KeptByWaking(p: Pool, id: nat, x: Place)
    requires Inv(p) && id in p.calls && p.calls[id].Waiting? && At(p, x).Some?
    ensures Somewhere(Locked(p, id), At(p, x).value)
  {
    var q := Locked(p, id);
    assert p.calls[id].waiter.OneFlagAtMost();
    if x == InCall(id) && p.calls[id].waiter.Served() {
      assert At(q, InHandle(id)) == At(p, x);
    } else {
      assert At(q, x) == At(p, x);
    }
  }

  lemma KeptByLocked(p: Pool, id: nat, x: Place)
    requires Inv(p) && At(p, x).Some? && !Closes(p, Proceed(id), At(p, x).value)
    ensures Somewhere(Locked(p, id), At(p, x).value)
  {
    if id !in p.calls {
      assert At(Locked(p, id), x) == At(p, x);
    } else {
      match p.calls[id]
      case Trying => KeptByTaking(p, id, x);
      case Warming => KeptByTaking(p, id, x);
      case GivingBack(_, _) => KeptByGivingBack(p, id, x);
      case Dropping(_) => KeptByDropping(p, id, x);
      case Waiting(_) => KeptByWaking(p, id, x);
      case _ => assert At(Locked(p, id), x) == At(p, x);
    }
  }

  lemma KeptByHandles(p: Pool, a: Action, x: Place)
    requires Inv(p) && (a.Release? || a.Discard? || a.MoveHandle?)
    requires At(p, x).Some? && !Closes(p, a, At(p, x).value)
    ensures Somewhere(Next(p, a), At(p, x).value)
  {
    var q := Next(p, a);
    if x == InHandle(a.handle) && q != p {
      assert At(q, if a.Release? then InCall(a.id) else InHandle(a.to)) == At(p, x);
    } else {
      assert At(q, x) == At(p, x);
    }
  }

  /** Work outside the lock moves nothing but what its own call has. */
  lemma WorkMoves(p: Pool, a: Action, x: Place)
    requires Inv(p) && (a.Checked? || a.FactoryReturns?)
    ensures x != InCall(a.id) && x != InHandle(a.id) ==> At(Next(p, a), x) == At(p, x)
    ensures At(p, InCall(a.id)).Some? ==> At(p, InHandle(a.id)).None?
  {
  }

  lemma KeptByCheck(p: Pool, id: nat, result: CheckResult)
    requires Inv(p) && At(p, InCall(id)).Some? && !Closes(p, Checked(id, result), At(p, InCall(id)).value)
    ensures Somewhere(Next(p, Checked(id, result)), At(p, InCall(id)).value)
  {
    var q := Next(p, Checked(id, result));
    assert At(q, InHandle(id)) == At(p, InCall(id)) || At(q, InCall(id)) == At(p, InCall(id));
  }

  lemma KeptByFactory(p: Pool, id: nat, ok: bool)
    requires Inv(p) && At(p, InCall(id)).Some?
    ensures Next(p, FactoryReturns(id, ok)) == p
  {
  }

  lemma KeptByWork(p: Pool, a: Action, x: Place)
    requires Inv(p) && (a.Checked? || a.FactoryReturns?)
    requires At(p, x).Some? && !Closes(p, a, At(p, x).value)
    ensures Somewhere(Next(p, a), At(p, x).value)
  {
    WorkMoves(p, a, x);
    if x == InCall(a.id) {
      if a.Checked? { KeptByCheck(p, a.id, a.result); } else { KeptByFactory(p, a.id, a.ok); }
    } else if x == InHandle(a.id) {
      HandleIsNoCall(p, a, a.id);
    } else {
      assert At(Next(p, a), x) == At(p, x);
    }
  }

  lemma HandleIsNoCall(p: Pool, a: Action, id: nat)
    requires Inv(p) && (a.Checked? || a.FactoryReturns?) && a.id == id && At(p, InHandle(id)).Some?
    ensures Next(p, a) == p
    ensures Somewhere(p, At(p, InHandle(id)).value)
  {
  }

  /** close() empties the idle list and moves nothing else. */
  lemma CloseMoves(p: Pool, x: Place)
    ensures At(Close(p), x) == if x.InIdle? && !p.closed then None else At(p, x)
  {
  }

  lemma QuietMoves(p: Pool, a: Action, x: Place)
    requires Inv(p) && (a.BeginAcquire? || a.BeginWarmUp? || a.TimesOut?)
    ensures At(Next(p, a), x) == At(p, x)
  {
  }

  lemma KeptByOthers(p: Pool, a: Action, x: Place)
    requires Inv(p) && (a.BeginAcquire? || a.BeginWarmUp? || a.TimesOut? || a.CloseAction?)
    requires At(p, x).Some? && !Closes(p, a, At(p, x).value)
    ensures Somewhere(Next(p, a), At(p, x).value)
  {
    if a.CloseAction? {
      CloseMoves(p, x);
      assert forall i | 0 <= i < |p.idle| :: p.idle[i] in p.idle;
    } else {
      QuietMoves(p, a, x);
    }
    assert At(Next(p, a), x) == At(p, x);
  }

  lemma KeptUnlessClosed(p: Pool, a: Action, c: Conn)
    requires Inv(p) && Somewhere(p, c) && !Closes(p, a, c)
    ensures Somewhere(Next(p, a), c)
  {
    var x :| At(p, x) == Some(c);
    match a
    case Proceed(id) => KeptByLocked(p, id, x);
    case Checked(_, _) => KeptByWork(p, a, x);
    case FactoryReturns(_, _) => KeptByWork(p, a, x);
    case Release(_, _) => KeptByHandles(p, a, x);
    case Discard(_, _) => KeptByHandles(p, a, x);
    case MoveHandle(_, _) => KeptByHandles(p, a, x);
    case _ => KeptByOthers(p, a, x);
  }

  // ---------------------------------------------------------------- nothing comes back

  /** Where q has a connection that p did not have there, p had it elsewhere. */
  ghost predicate FromBefore(p: Pool, q: Pool) {
    forall y | At(q, y).Some? && At(q, y).value < p.created :: Somewhere(p, At(q, y).value)
  }

  lemma TakingBringsNone(p: Pool, id: nat)
    requires Inv(p) && id in p.calls && (p.calls[id].Trying? || p.calls[id].Warming?)
    ensures FromBefore(p, Locked(p, id))
  {
    var q := Locked(p, id);
    forall y | At(q, y).Some? ensures Somewhere(p, At(q, y).value) {
      if At(q, y) != At(p, y) {
        assert At(q, y) == At(p, InIdle(|p.idle| - 1));
      }
    }
  }

  lemma GivingBackBringsNone(p: Pool, id: nat)
    requires Inv(p) && id in p.calls && p.calls[id].GivingBack?
    ensures FromBefore(p, Locked(p, id))
  {
    var q := Locked(p, id);
    assert At(p, InCall(id)) == Some(p.calls[id].conn);
    assert p.waiters != [] ==> p.waiters[0] in p.waiters && Queued(p, p.waiters[0]);
    forall y | At(q, y).Some? ensures Somewhere(p, At(q, y).value) {
      if At(q, y) != At(p, y) {
        assert At(q, y) == At(p, InCall(id));
      }
    }
  }

  lemma DroppingBringsNone(p: Pool, id: nat)
    requires Inv(p) && id in p.calls && p.calls[id].Dropping?
    ensures FromBefore(p, Locked(p, id))
  {
    var q := Locked(p, id);
    assert p.waiters != [] ==> p.waiters[0] in p.waiters && Queued(p, p.waiters[0]);
    forall y | At(q, y).Some? ensures Somewhere(p, At(q, y).value) {
      assert At(q, y) == At(p, y);
    }
  }

  lemma OtherSectionsBringNone(p: Pool, id: nat)
    requires Inv(p) && (id in p.calls ==> p.calls[id].Waiting? || p.calls[id].CheckingOut? || p.calls[id].Opening?)
    ensures FromBefore(p, Locked(p, id))
  {
    var q := Locked(p, id);
    forall y | At(q, y).Some? ensures Somewhere(p, At(q, y).value) {
      if At(q, y) != At(p, y) {
        assert At(q, y) == At(p, InCall(id));
      }
    }
  }

  lemma WorkBringsNone(p: Pool, a: Action)
    requires Inv(p) && (a.Checked? || a.FactoryReturns?)
    ensures FromBefore(p, Next(p, a))
  {
    forall y | At(Next(p, a), y).Some? && At(Next(p, a), y).value < p.created ensures Somewhere(p, At(Next(p, a), y).value) {
      WorkBrings(p, a, y);
    }
  }

  lemma WorkBrings(p: Pool, a: Action, y: Place)
    requires Inv(p) && (a.Checked? || a.FactoryReturns?)
    requires At(Next(p, a), y).Some? && At(Next(p, a), y).value < p.created
    ensures Somewhere(p, At(Next(p, a), y).value)
  {
    WorkMoves(p, a, y);
    if At(Next(p, a), y) != At(p, y) {
      assert At(Next(p, a), y) == At(p, InCall(a.id));
    }
  }

  lemma HandlesBringNone(p: Pool, a: Action)
    requires Inv(p) && (a.Release? || a.Discard? || a.MoveHandle?)
    ensures FromBefore(p, Next(p, a))
  {
    var q := Next(p, a);
    forall y | At(q, y).Some? ensures Somewhere(p, At(q, y).value) {
      if At(q, y) != At(p, y) {
        assert At(q, y) == At(p, InHandle(a.handle));
      }
    }
  }

  lemma OthersBringNone(p: Pool, a: Action)
    requires Inv(p) && (a.BeginAcquire? || a.BeginWarmUp? || a.TimesOut? || a.CloseAction?)
    ensures FromBefore(p, Next(p, a))
  {
    var q := Next(p, a);
    forall y | At(q, y).Some? ensures Somewhere(p, At(q, y).value) {
      if a.CloseAction? { CloseMoves(p, y); } else { QuietMoves(p, a, y); }
      assert At(q, y) == At(p, y);
    }
  }

  lemma NothingComesBack(p: Pool, a: Action)
    requires Inv(p)
    ensures FromBefore(p, Next(p, a))
  {
    if a.Proceed? && a.id in p.calls {
      match p.calls[a.id]
      case Trying => TakingBringsNone(p, a.id);
      case Warming => TakingBringsNone(p, a.id);
      case GivingBack(_, _) => GivingBackBringsNone(p, a.id);
      case Dropping(_) => DroppingBringsNone(p, a.id);
      case _ => OtherSectionsBringNone(p, a.id);
    } else if a.Proceed? {
      OtherSectionsBringNone(p, a.id);
    } else if a.Checked? || a.FactoryReturns? {
      WorkBringsNone(p, a);
    } else if a.Release? || a.Discard? || a.MoveHandle? {
      HandlesBringNone(p, a);
    } else {
      OthersBringNone(p, a);
    }
  }

  // ---------------------------------------------------------------- a close is the end

  lemma GoneFrom(p: Pool, q: Pool, x: Place, c: Conn)
    requires Ownership(p) && At(p, x) == Some(c) && At(q, x) != Some(c)
    requires forall y | At(q, y) == Some(c) :: At(p, y) == Some(c)
    ensures !Somewhere(q, c)
  {
  }

  lemma RefusedIsGone(p: Pool, id: nat, result: CheckResult)
    requires Inv(p) && id in p.calls && p.calls[id].CheckingOut? && Closes(p, Checked(id, result), p.calls[id].conn)
    ensures !Somewhere(Next(p, Checked(id, result)), p.calls[id].conn)
  {
    var q := Next(p, Checked(id, result));
    assert forall y | y != InCall(id) :: At(q, y) == At(p, y);
    GoneFrom(p, q, InCall(id), p.calls[id].conn);
  }

  lemma DiscardedIsGone(p: Pool, h: nat, id: nat)
    requires Inv(p) && h in p.handles && p.Fresh(id)
    ensures !Somewhere(Next(p, Discard(h, id)), p.handles[h])
  {
    var q := Next(p, Discard(h, id));
    assert forall y | y != InHandle(h) :: At(q, y) == At(p, y);
    GoneFrom(p, q, InHandle(h), p.handles[h]);
  }

  lemma LateIsGone(p: Pool, id: nat)
    requires Inv(p) && p.closed && id in p.calls && p.calls[id].GivingBack?
    ensures !Somewhere(Next(p, Proceed(id)), p.calls[id].conn)
  {
    var q := Next(p, Proceed(id));
    assert forall y | y != InCall(id) :: At(q, y) == At(p, y);
    GoneFrom(p, q, InCall(id), p.calls[id].conn);
  }

  lemma IdleIsGone(p: Pool, i: nat)
    requires Inv(p) && !p.closed && i < |p.idle|
    ensures !Somewhere(Close(p), p.idle[i])
  {
    forall y ensures At(Close(p), y) == if y.InIdle? then None else At(p, y) {
      CloseMoves(p, y);
    }
    GoneFrom(p, Close(p), InIdle(i), p.idle[i]);
  }

  /** The place a connection is closed at. */
  lemma ClosedWhere(p: Pool, a: Action, c: Conn)
    requires Inv(p) && Closes(p, a, c)
    ensures Somewhere(p, c) && c < p.created
  {
    match a
    case Checked(id, _) => assert At(p, InCall(id)) == Some(c);
    case Discard(h, _) => assert At(p, InHandle(h)) == Some(c);
    case Proceed(id) => assert At(p, InCall(id)) == Some(c);
    case CloseAction =>
      var i :| 0 <= i < |p.idle| && p.idle[i] == c;
      assert At(p, InIdle(i)) == Some(c);
  }

  lemma ClosedIsGone(p: Pool, a: Action, c: Conn)
    requires Inv(p) && Closes(p, a, c)
    ensures Somewhere(p, c) && c < p.created && !Somewhere(Next(p, a), c)
  {
    ClosedWhere(p, a, c);
    match a
    case Checked(id, result) => RefusedIsGone(p, id, result);
    case Discard(h, id) => DiscardedIsGone(p, h, id);
    case Proceed(id) => LateIsGone(p, id);
    case CloseAction =>
      var i :| 0 <= i < |p.idle| && p.idle[i] == c;
      IdleIsGone(p, i);
  }

  lemma OnlyTheFactoryCreates(p: Pool, a: Action)
    ensures Next(p, a).created
         == if a.FactoryReturns? && a.ok && a.id in p.calls && p.calls[a.id].Opening? then p.created + 1 else p.created
  {
  }

  lemma BornByTheFactory(p: Pool, id: nat)
    requires Inv(p) && id in p.calls && p.calls[id].Opening?
    ensures Somewhere(Next(p, FactoryReturns(id, true)), p.created)
  {
    var q := Next(p, FactoryReturns(id, true));
    assert At(q, if p.calls[id].forHandle then InHandle(id) else InCall(id)) == Some(p.created);
  }

  lemma Born(p: Pool, a: Action, c: Conn)
    requires Inv(p) && p.created <= c
    ensures Next(p, a).created >= p.created
    ensures Somewhere(Next(p, a), c) <==> c < Next(p, a).created
  {
    NextInv(p, a);
    OnlyTheFactoryCreates(p, a);
    if c < Next(p, a).created {
      BornByTheFactory(p, a.id);
    }
  }

  /** One step: a connection is somewhere afterwards if and only if it was, or was opened by this step,
      and the step did not close it. */
  lemma StepOfALife(p: Pool, a: Action, c: Conn)
    requires Inv(p)
    ensures Next(p, a).created >= p.created && (Closes(p, a, c) ==> c < p.created)
    ensures Somewhere(Next(p, a), c) <==>
            (Somewhere(p, c) || p.created <= c < Next(p, a).created) && !Closes(p, a, c)
  {
    var q := Next(p, a);
    Born(p, a, p.created);
    if Closes(p, a, c) {
      ClosedIsGone(p, a, c);
    } else if p.created <= c {
      Born(p, a, c);
    } else if Somewhere(p, c) {
      KeptUnlessClosed(p, a, c);
    } else {
      NothingComesBack(p, a);
    }
  }

  // ---------------------------------------------------------------- over whole runs

  ghost predicate ClosedIn(p: Pool, actions: seq<Action>, c: Conn)
    decreases |actions|
  {
    actions != [] && (Closes(p, actions[0], c) || ClosedIn(Next(p, actions[0]), actions[1..], c))
  }

  lemma {:induction false} LivesUntilClosed(p: Pool, actions: seq<Action>, c: Conn)
    requires Inv(p)
    ensures Run(p, actions).created >= p.created
    ensures Somewhere(Run(p, actions), c) <==>
            (Somewhere(p, c) || p.created <= c < Run(p, actions).created) && !ClosedIn(p, actions, c)
    decreases |actions|
  {
    if actions != [] {
      var q := Next(p, actions[0]);
      NextInv(p, actions[0]);
      StepOfALife(p, actions[0], c);
      LivesUntilClosed(q, actions[1..], c);
    }
  }

  /** In every run, every connection that the factory opened is idle, in a handle or in a call, until a
      step closes it: a failed check, an expiry, a discard, close(), or its return to a closed pool. Then
      it is nowhere, for good; and nothing else ever loses one. */
  lemma EveryConnectionLivesUntilClosed(minSize: nat, maxSize: nat, actions: seq<Action>, c: Conn)
    requires minSize <= maxSize && 0 < maxSize
    ensures var p := Run(Init(minSize, maxSize), actions);
            Somewhere(p, c) <==> c < p.created && !ClosedIn(Init(minSize, maxSize), actions, c)
  {
    InitInv(minSize, maxSize);
    LivesUntilClosed(Init(minSize, maxSize), actions, c);
    assert forall x :: At(Init(minSize, maxSize), x).None?;
  }

  // ---------------------------------------------------------------- who gets it

  /** A connection that passes the checks is the caller's; one that is broken, or too old while there
      were enough, is not given out: its slot is given up and the caller tries again. */
  lemma CheckDecides(p: Pool, id: nat, result: CheckResult)
    requires Inv(p) && id in p.calls && p.calls[id].CheckingOut? && (result == Expired ==> p.calls[id].aboveMin)
    ensures var q := Next(p, Checked(id, result));
            var c := p.calls[id].conn;
            if result == Usable then q == p.(calls := p.calls - {id}, handles := p.handles[id := c])
            else !Somewhere(q, c) && q.handles == p.handles && q.calls == p.calls[id := Dropping(true)] && q.open == p.open
  {
    if result != Usable {
      ClosedIsGone(p, Checked(id, result), p.calls[id].conn);
    }
  }

  /** A connection that was refused stays refused: no later run has it anywhere. */
  lemma RefusedForGood(p: Pool, id: nat, result: CheckResult, actions: seq<Action>)
    requires Inv(p) && id in p.calls && p.calls[id].CheckingOut? && result != Usable && (result == Expired ==> p.calls[id].aboveMin)
    ensures !Somewhere(Run(Next(p, Checked(id, result)), actions), p.calls[id].conn)
  {
    var c := p.calls[id].conn;
    ClosedIsGone(p, Checked(id, result), c);
    NextInv(p, Checked(id, result));
    StepOfALife(p, Checked(id, result), c);
    LivesUntilClosed(Next(p, Checked(id, result)), actions, c);
  }

  /** What acquire() opened is the caller's, under a number never used before. */
  lemma OpenedIsHandedOut(p: Pool, id: nat)
    requires Inv(p) && id in p.calls && p.calls[id] == Opening(true)
    ensures !Somewhere(p, p.created)
    ensures Next(p, FactoryReturns(id, true))
         == p.(calls := p.calls - {id}, handles := p.handles[id := p.created], created := p.created + 1)
  {
    assert !Somewhere(p, p.created);
  }

  /** A handle that is moved keeps its connection under the new name. */
  lemma MovedHandle(p: Pool, h: nat, to: nat)
    requires Inv(p) && h in p.handles && p.Fresh(to)
    ensures var q := Next(p, MoveHandle(h, to));
            && h !in q.handles && to in q.handles && q.handles[to] == p.handles[h]
            && q == p.(handles := q.handles) && |q.handles| == |p.handles|
  {
    HandlesChange(p.handles, h, 0);
    HandlesChange(p.handles - {h}, to, p.handles[h]);
  }

  /** Where a connection is after release(): with the longest waiting thread, at the back of the idle
      list, or closed with the pool. */
  lemma ReleasedGoes(p: Pool, h: nat, id: nat)
    requires Inv(p) && h in p.handles && p.Fresh(id)
    ensures var q := Next(Next(p, Release(h, id)), Proceed(id));
            var c := p.handles[h];
            && h !in q.handles && id !in q.calls
            && (p.closed ==> q.open == p.open - 1 && !Somewhere(q, c))
            && (p.waiters != [] ==> q.open == p.open && At(q, InCall(p.waiters[0])) == Some(c) && q.idle == p.idle)
            && (!p.closed && p.waiters == [] ==> q.open == p.open && q.idle == p.idle + [c])
  {
    var r := Next(p, Release(h, id));
    NextInv(p, Release(h, id));
    assert r.calls[id] == GivingBack(p.handles[h], false);
    if p.closed {
      ClosedIsGone(r, Proceed(id), p.handles[h]);
    } else if p.waiters != [] {
      HandedToFirstWaiter(r, id);
    }
  }

  /** discard() closes the connection at once; its slot goes to the longest waiting thread, or is freed. */
  lemma DiscardedGoes(p: Pool, h: nat, id: nat)
    requires Inv(p) && h in p.handles && p.Fresh(id)
    ensures var r := Next(p, Discard(h, id));
            var q := Next(r, Proceed(id));
            && h !in r.handles && !Somewhere(r, p.handles[h]) && id !in q.calls && q.idle == p.idle
            && (p.waiters == [] ==> q.open == p.open - 1)
            && (p.waiters != [] ==>
                  q.open == p.open && q.waiters == p.waiters[1..]
                  && p.waiters[0] in q.calls && q.calls[p.waiters[0]].Waiting? && q.calls[p.waiters[0]].waiter.mayOpen)
  {
    ClosedIsGone(p, Discard(h, id), p.handles[h]);
    assert p.waiters != [] ==> p.waiters[0] in p.waiters && Queued(p, p.waiters[0]);
  }

  // ---------------------------------------------------------------- calls that end with an exception

  /** A timeout takes the call off the queue and ends it; nothing else changes. */
  lemma TimedOutLeaves(p: Pool, id: nat)
    requires Inv(p) && Queued(p, id)
    ensures var q := Next(p, TimesOut(id));
            && id !in q.calls && id !in q.waiters && |q.waiters| == |p.waiters| - 1
            && q == p.(waiters := q.waiters, calls := p.calls - {id})
  {
    var k := TimeoutFindsIt(p, id);
    LeaveQueue(p, id);
    assert Queue(Next(p, TimesOut(id)));
  }

  /** close() ends every waiting call without a connection, and every acquire() that comes later. */
  lemma ClosedCallsEnd(p: Pool, id: nat)
    requires Inv(p) && id in p.calls && (Queued(p, id) || p.calls[id].Trying?)
    ensures var q := Next(p, CloseAction);
            var r := Next(q, Proceed(id));
            !p.closed ==> q.closed && id !in r.calls && r.handles == p.handles && r.open == p.open - |p.idle|
  {
    assert id in p.waiters <==> Queued(p, id);
  }
}
