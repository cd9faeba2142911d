/** Graceful stop: the registry of live sessions (include/cppgate/SessionRegistry.h) and the WebSocket
    sessions that go through their handshake while a Listener stops
    (run, on_accept, close and stop in include/cppgate/WebSocketSession.h).

    The steps of any number of sessions and of stopAll() interleave. A step is one lock-held section of
    the registry, one call of Session::stop() by stopAll(), or one step of one session, as
    WebSocketSessionProtocol has them. */
module GracefulStop {
  import opened Optional
  import S = WebSocketSessionProtocol

  type Code = S.Code

  /** Where a session is in its life; what its stream and its queue do is the session's own state. */
  datatype Phase =
    | Created     // run() not called yet
    | Refused     // add() said no: rejected with 503
    | Upgrading   // registered; the router decides
    | Rejected    // the router refused the upgrade
    | Live        // do_accept() was called
    | Dying       // the last reference is gone, the destructor has not removed it yet
    | Gone

  /** Histories: did stopAll() call stop(), and, once a close with 1001 ran on the open stream, the code
      that the session was closing with already, if it was. */
  datatype Member = Member(phase: Phase, session: S.Session, told: bool, met: Option<Option<Code>>)

  /** The registry and its sessions. `toStop` is what stopAll() collected and has not stopped yet. */
  datatype World = World(limit: nat, members: map<nat, Member>, items: set<nat>, stopping: bool, toStop: set<nat>)
  {
    function Set(id: nat, m: Member): World {
      this.(members := members[id := m])
    }
  }

  function Init(limit: nat): World {
    World(limit, map[], {}, false, {})
  }

  /** Somebody holds a reference, so weak_ptr::lock() succeeds. */
  predicate Alive(m: Member) {
    !m.phase.Dying? && !m.phase.Gone?
  }

  predicate Registered(m: Member) {
    m.phase.Upgrading? || m.phase.Rejected? || m.phase.Live?
  }

  // ---------------------------------------------------------------- the registry

  function Add(w: World, id: nat): World
    requires id in w.members
  {
    var m := w.members[id];
    if w.stopping then w.Set(id, m.(phase := Refused))
    else w.(items := w.items + {id}).Set(id, m.(phase := Upgrading))
  }

  function Collect(w: World): set<nat> {
    set id | id in w.items && id in w.members && Alive(w.members[id])
  }

  /** The lock-held part of stopAll(). */
  function StopAll(w: World): World {
    w.(stopping := true, toStop := w.toStop + Collect(w))
  }

  // ---------------------------------------------------------------- a session

  /** A step of the session, with the history of the first 1001 that ran on its open stream. */
  function Moved(limit: nat, m: Member, a: S.Action): Member {
    m.(session := S.Next(limit, m.session, a),
       met := if RunsGoingAway(m.session, a) && m.met.None? then Some(m.session.closeCode) else m.met)
  }

  predicate RunsGoingAway(s: S.Session, a: S.Action) {
    a.RunPostedClose? && a.index < |s.closes| && s.closes[a.index] == S.GOING_AWAY && s.isOpen
  }

  function Told(limit: nat, m: Member): Member {
    m.(session := S.Next(limit, m.session, S.Close(S.GOING_AWAY)), told := true)
  }

  /** Nothing holds a reference: no posted function, no thread in a send, no pending operation. */
  predicate Unreferenced(m: Member) {
    && m.session.closes == [] && m.session.out.posts == [] && m.session.out.calls == map[]
    && (m.phase.Live? ==> m.session.ops == multiset{})
  }

  // ---------------------------------------------------------------- runs

  datatype Action =
    | Create(id: nat)
    | RunSession(id: nat)                 // add()
    | Upgrade(id: nat, ok: bool)          // do_accept() or do_reject()
    | Step(id: nat, step: S.Action)
    | LastReference(id: nat)
    | Remove(id: nat)                     // the destructor
    | BeginStopAll
    | StopOne(id: nat)

  predicate Possible(w: World, a: Action) {
    match a
    case Create(id) => id !in w.members
    case BeginStopAll => true
    case RunSession(id) => id in w.members && w.members[id].phase.Created?
    case Upgrade(id, _) => id in w.members && w.members[id].phase.Upgrading?
    case Step(id, step) =>
      && id in w.members && Alive(w.members[id])
      && (step.AcceptDone? ==> w.members[id].phase.Live? && step.stopping == w.stopping)
    case LastReference(id) => id in w.members && Alive(w.members[id]) && Unreferenced(w.members[id]) && id !in w.toStop
    case Remove(id) => id in w.members && w.members[id].phase.Dying?
    case StopOne(id) => id in w.toStop && id in w.members
  }

  function Next(w: World, a: Action): World {
    if !Possible(w, a) then w else
    match a
    case Create(id) => w.Set(id, Member(Created, S.Init(), false, None))
    case BeginStopAll => StopAll(w)
    case RunSession(id) => Add(w, id)
    case Upgrade(id, ok) => w.Set(id, w.members[id].(phase := if ok then Live else Rejected))
    case Step(id, step) => w.Set(id, Moved(w.limit, w.members[id], step))
    case LastReference(id) => w.Set(id, w.members[id].(phase := Dying))
    case Remove(id) => w.(items := w.items - {id}).Set(id, w.members[id].(phase := Gone))
    case StopOne(id) => w.(toStop := w.toStop - {id}).Set(id, Told(w.limit, w.members[id]))
  }

  function Run(w: World, actions: seq<Action>): World
    decreases |actions|
  {
    if actions == [] then w else Run(Next(w, actions[0]), actions[1..])
  }

  // ---------------------------------------------------------------- the invariant

  /** A session that met a close with 1001 closes with the code it was closing with before, or 1001. */
  ghost predicate MetItsClose(m: Member) {
    m.met.Some? ==>
      m.session.closing && m.session.closeCode == Some(if m.met.value.Some? then m.met.value.value else S.GOING_AWAY)
  }

  ghost predicate Sound(limit: nat, m: Member) {
    && S.Inv(limit, m.session)
    && (m.session.accepted ==> m.phase.Live? || !Alive(m))
    && MetItsClose(m)
  }

  /** Once the Listener is stopping, an open session met its close, will, or is about to be told. */
  ghost predicate Covered(m: Member, registered: bool, stopping: bool, waits: bool) {
    && (Registered(m) ==> registered)
    && (stopping && Registered(m) ==> waits || m.told)
    && (stopping && Alive(m) && m.session.isOpen ==> m.met.Some? || S.GOING_AWAY in m.session.closes || waits)
  }

  ghost predicate MemberInv(w: World, id: nat)
    requires id in w.members
  {
    Sound(w.limit, w.members[id]) && Covered(w.members[id], id in w.items, w.stopping, id in w.toStop)
  }

  ghost predicate Inv(w: World) {
    && (forall id | id in w.members :: MemberInv(w, id))
    && (forall id | id in w.toStop :: id in w.members && Alive(w.members[id]))
    && (w.toStop != {} ==> w.stopping)
  }

  // ---------------------------------------------------------------- one session's step

  lemma MovedKeepsItsClose(limit: nat, m: Member, a: S.Action)
    requires Sound(limit, m)
    ensures MetItsClose(Moved(limit, m, a))
  {
    if m.session.closing {
      S.ClosingStep(limit, m.session, a);
    }
  }

  lemma AcceptedIsLive(limit: nat, m: Member, a: S.Action)
    requires Alive(m) && (m.session.accepted ==> m.phase.Live?) && (a.AcceptDone? ==> m.phase.Live?)
    ensures S.Next(limit, m.session, a).accepted ==> m.phase.Live?
  {
    if !a.RunPostedClose? && !(a.AcceptDone? && a.ok) {
      S.StreamStep(limit, m.session, a);
    }
  }

  lemma MovedSound(limit: nat, m: Member, a: S.Action)
    requires Sound(limit, m) && Alive(m) && (a.AcceptDone? ==> m.phase.Live?)
    ensures Sound(limit, Moved(limit, m, a))
  {
    S.NextInv(limit, m.session, a);
    MovedKeepsItsClose(limit, m, a);
    AcceptedIsLive(limit, m, a);
  }

  /** A posted close leaves the posts only by running: on an open stream it is met, otherwise the stream
      is not open. */
  lemma RunCloseCovered(limit: nat, m: Member, i: nat)
    requires S.GOING_AWAY in m.session.closes && i < |m.session.closes|
    ensures var d := Moved(limit, m, S.RunPostedClose(i));
            d.session.isOpen ==> d.met.Some? || S.GOING_AWAY in d.session.closes
  {
    var closes := m.session.closes;
    var d := Moved(limit, m, S.RunPostedClose(i));
    assert d.session.closes == closes[..i] + closes[i + 1..];
    var k :| 0 <= k < |closes| && closes[k] == S.GOING_AWAY;
    if k < i {
      assert d.session.closes[k] == closes[k];
    } else if k > i {
      assert d.session.closes[k - 1] == closes[k];
    }
  }

  /** The handshake that completes while the Listener is stopping posts the close itself. */
  lemma AcceptCovered(limit: nat, m: Member)
    ensures var d := Moved(limit, m, S.AcceptDone(true, true));
            d.session == m.session || S.GOING_AWAY in d.session.closes
  {
    var d := Moved(limit, m, S.AcceptDone(true, true));
    if d.session != m.session {
      assert d.session.closes[|m.session.closes|] == S.GOING_AWAY;
    }
  }

  lemma PostsStay(limit: nat, m: Member, a: S.Action)
    requires !a.RunPostedClose? && !(a.AcceptDone? && a.ok)
    ensures var d := Moved(limit, m, a);
            && (d.session.isOpen ==> m.session.isOpen) && d.met == m.met
            && (S.GOING_AWAY in m.session.closes ==> S.GOING_AWAY in d.session.closes)
  {
    S.StreamStep(limit, m.session, a);
  }

  lemma RunCloseMet(limit: nat, m: Member, i: nat)
    requires m.session.isOpen ==> m.met.Some? || S.GOING_AWAY in m.session.closes
    ensures var d := Moved(limit, m, S.RunPostedClose(i));
            d.session.isOpen ==> d.met.Some? || S.GOING_AWAY in d.session.closes
  {
    if S.GOING_AWAY in m.session.closes && i < |m.session.closes| {
      RunCloseCovered(limit, m, i);
    }
  }

  lemma MovedCovered(limit: nat, m: Member, a: S.Action, registered: bool, stopping: bool, waits: bool)
    requires Covered(m, registered, stopping, waits) && Alive(m) && (a.AcceptDone? ==> a.stopping == stopping)
    ensures Covered(Moved(limit, m, a), registered, stopping, waits)
  {
    if stopping && !waits {
      if a.RunPostedClose? {
        RunCloseMet(limit, m, a.index);
      } else if a.AcceptDone? && a.ok {
        AcceptCovered(limit, m);
      } else {
        PostsStay(limit, m, a);
      }
    }
  }

  lemma ToldKeeps(limit: nat, m: Member, registered: bool, stopping: bool, waits: bool)
    requires Sound(limit, m) && Covered(m, registered, stopping, true) && Alive(m)
    ensures Sound(limit, Told(limit, m)) && Covered(Told(limit, m), registered, stopping, waits)
  {
    S.NextInv(limit, m.session, S.Close(S.GOING_AWAY));
    assert Told(limit, m).session.closes[|m.session.closes|] == S.GOING_AWAY;
  }

  // ---------------------------------------------------------------- every step keeps it

  lemma StepInv(w: World, id: nat, step: S.Action)
    requires Inv(w) && Possible(w, Step(id, step))
    ensures Inv(Next(w, Step(id, step)))
  {
    assert MemberInv(w, id);
    MovedSound(w.limit, w.members[id], step);
    MovedCovered(w.limit, w.members[id], step, id in w.items, w.stopping, id in w.toStop);
    OneMemberInv(w, Next(w, Step(id, step)), id, Moved(w.limit, w.members[id], step));
  }

  lemma StopOneInv(w: World, id: nat)
    requires Inv(w) && Possible(w, StopOne(id))
    ensures Inv(Next(w, StopOne(id)))
  {
    var x := Next(w, StopOne(id));
    assert MemberInv(w, id);
    ToldKeeps(w.limit, w.members[id], id in w.items, w.stopping, false);
    forall other | other in x.members ensures MemberInv(x, other) {
      assert other != id ==> MemberInv(w, other);
    }
  }

  lemma StopAllInv(w: World)
    requires Inv(w)
    ensures Inv(StopAll(w))
  {
    forall id | id in w.members ensures MemberInv(StopAll(w), id) {
      assert MemberInv(w, id);
      assert Registered(w.members[id]) ==> id in Collect(w);
    }
  }

  /** A change to one member, and at most its place in the registry. */
  lemma OneMemberInv(w: World, x: World, id: nat, m: Member)
    requires Inv(w) && x == w.(items := x.items, members := w.members[id := m])
    requires forall other | other != id :: other in x.items <==> other in w.items
    requires id in w.toStop ==> Alive(m)
    requires Sound(w.limit, m) && Covered(m, id in x.items, w.stopping, id in w.toStop)
    ensures Inv(x)
  {
    forall other | other in x.members ensures MemberInv(x, other) {
      assert other != id ==> MemberInv(w, other);
    }
  }

  lemma CreateInv(w: World, id: nat)
    requires Inv(w) && Possible(w, Create(id))
    ensures Inv(Next(w, Create(id)))
  {
    S.InitInv(w.limit);
    OneMemberInv(w, Next(w, Create(id)), id, Member(Created, S.Init(), false, None));
  }

  lemma AddInv(w: World, id: nat)
    requires Inv(w) && Possible(w, RunSession(id))
    ensures Inv(Next(w, RunSession(id)))
  {
    assert MemberInv(w, id);
    OneMemberInv(w, Add(w, id), id, Add(w, id).members[id]);
  }

  /** The other steps that change the phase of one session. */
  lemma PhaseInv(w: World, a: Action)
    requires Inv(w) && Possible(w, a) && (a.Upgrade? || a.LastReference? || a.Remove?)
    ensures Inv(Next(w, a))
  {
    assert MemberInv(w, a.id);
    OneMemberInv(w, Next(w, a), a.id, Next(w, a).members[a.id]);
  }

  lemma NextInv(w: World, a: Action)
    requires Inv(w)
    ensures Inv(Next(w, a))
  {
    if Possible(w, a) {
      match a
      case Step(id, step) => StepInv(w, id, step);
      case StopOne(id) => StopOneInv(w, id);
      case BeginStopAll => StopAllInv(w);
      case Create(id) => CreateInv(w, id);
      case RunSession(id) => AddInv(w, id);
      case _ => PhaseInv(w, a);
    }
  }

  lemma {:induction false} RunInv(w: World, actions: seq<Action>)
    requires Inv(w)
    ensures Inv(Run(w, actions)) && Run(w, actions).limit == w.limit
    decreases |actions|
  {
    if actions != [] {
      NextInv(w, actions[0]);
      RunInv(Next(w, actions[0]), actions[1..]);
    }
  }

  // ---------------------------------------------------------------- what every run guarantees

  /** Among any number of sessions and while the server stops, each session keeps what
      WebSocketSessionProtocol proves of one session alone. */
  lemma EverySessionKeepsItsInvariant(limit: nat, actions: seq<Action>, id: nat)
    ensures var w := Run(Init(limit), actions);
            id in w.members ==> S.Inv(limit, w.members[id].session)
  {
    RunInv(Init(limit), actions);
    assert id in Run(Init(limit), actions).members ==> MemberInv(Run(Init(limit), actions), id);
  }

  /** For every interleaving: once stopAll() is through its list, each session was refused, is gone,
      was told to stop, or did not start yet (and will be refused). */
  lemma EverySessionIsAccountedFor(limit: nat, actions: seq<Action>)
    ensures var w := Run(Init(limit), actions);
            w.stopping && w.toStop == {} ==>
              forall id | id in w.members ::
                var m := w.members[id];
                m.phase.Created? || m.phase.Refused? || m.phase.Dying? || m.phase.Gone? || m.told
  {
    RunInv(Init(limit), actions);
    var w := Run(Init(limit), actions);
    if w.stopping && w.toStop == {} {
      forall id | id in w.members
        ensures var m := w.members[id]; m.phase.Created? || m.phase.Refused? || m.phase.Dying? || m.phase.Gone? || m.told
      {
        assert MemberInv(w, id);
      }
    }
  }

  /** For every interleaving: once stopAll() is through and a session has run its posted closes, a
      session that completed its handshake has met a close with 1001 on its open stream, or its stream
      has ended. It then closes with 1001, unless it was closing already when that close ran: then with
      the code it had. */
  lemma EveryOpenSessionCloses(limit: nat, actions: seq<Action>, id: nat)
    ensures var w := Run(Init(limit), actions);
            w.stopping && w.toStop == {} && id in w.members && w.members[id].phase.Live? ==>
              var m := w.members[id];
              && (m.session.accepted && m.session.closes == [] ==> m.met.Some? || !m.session.isOpen)
              && (m.met == Some(None) ==> m.session.closing && m.session.closeCode == Some(S.GOING_AWAY))
              && (m.met.Some? && m.met.value.Some? ==> m.session.closing && m.session.closeCode == m.met.value)
  {
    RunInv(Init(limit), actions);
    var w := Run(Init(limit), actions);
    assert id in w.members ==> MemberInv(w, id);
  }

  /** stop()'s close starts the closing handshake with 1001, unless the session was closing already. */
  lemma StopClosesWithGoingAway(limit: nat, s: S.Session, i: nat)
    requires s.isOpen && i < |s.closes| && s.closes[i] == S.GOING_AWAY
    ensures var d := S.Next(limit, s, S.RunPostedClose(i));
            if s.closing then d.closeCode == s.closeCode
            else d.closing && d.closeCode == Some(S.GOING_AWAY) && S.CloseOp(S.GOING_AWAY) in d.ops
  {
  }

  /** The handshake completes after a posted close was run too early. */
  function Handshaken(limit: nat, s: S.Session, i: nat): S.Session {
    S.Next(limit, S.Next(limit, s, S.RunPostedClose(i)), S.AcceptDone(true, true))
  }

  lemma CloseBeforeOpen(limit: nat, s: S.Session, i: nat)
    requires S.Inv(limit, s) && S.AcceptOp in s.ops && i < |s.closes|
    ensures S.Next(limit, s, S.RunPostedClose(i)) == s.(closes := s.closes[..i] + s.closes[i + 1..])
    ensures var d := Handshaken(limit, s, i);
            d.isOpen && !d.closing && d.closes == s.closes[..i] + s.closes[i + 1..] + [S.GOING_AWAY]
  {
    assert !s.accepted && !s.isOpen && !s.closing;
  }

  /** The race with the handshake: stop()'s close that ran while the stream was not open yet had no
      effect, but then the handshake's completion sees the stop and posts a close with 1001, which is
      there when the stream is open and closes it. */
  lemma StopDuringHandshake(limit: nat, s: S.Session, i: nat)
    requires S.Inv(limit, s) && S.AcceptOp in s.ops && i < |s.closes|
    ensures var d := Handshaken(limit, s, i);
            var n := |s.closes| - 1;
            && S.Next(limit, s, S.RunPostedClose(i)) == s.(closes := s.closes[..i] + s.closes[i + 1..])
            && d.isOpen && !d.closing && |d.closes| == n + 1 && d.closes[n] == S.GOING_AWAY
            && S.Next(limit, d, S.RunPostedClose(n)).closeCode == Some(S.GOING_AWAY)
  {
    CloseBeforeOpen(limit, s, i);
    StopClosesWithGoingAway(limit, Handshaken(limit, s, i), |s.closes| - 1);
  }

  lemma StaysStopping(w: World, a: Action)
    requires w.stopping
    ensures Next(w, a).stopping && Next(w, a).items <= w.items
  {
  }

  /** After stopAll() took the lock no session enters the registry any more, in any run. */
  lemma {:induction false} NobodyEntersAfterStop(w: World, actions: seq<Action>)
    requires w.stopping
    ensures Run(w, actions).stopping && Run(w, actions).items <= w.items
    decreases |actions|
  {
    if actions != [] {
      StaysStopping(w, actions[0]);
      NobodyEntersAfterStop(Next(w, actions[0]), actions[1..]);
    }
  }
}

/** The registry object: a map of weak references and a flag, under a mutex. */
module SessionRegistryObject {
  import opened Optional
  import opened WebSocketSessionObject
  import S = WebSocketSessionProtocol
  import GracefulStop

  class SessionRegistry {
    var items: set<nat>
    var stopping: bool

    constructor ()
      ensures items == {} && !stopping
    {
      items, stopping := {}, false;
    }

    method Add(session: nat) returns (ok: bool)
      modifies this
      ensures ok == !old(stopping) && stopping == old(stopping)
      ensures items == if ok then old(items) + {session} else old(items)
      ensures forall w: GracefulStop.World | w.items == old(items) && w.stopping == old(stopping) && session in w.members ::
                GracefulStop.Add(w, session).items == items
    {
      if stopping {
        return false;
      }
      items := items + {session};
      return true;
    }

    method Remove(session: nat)
      modifies this
      ensures items == old(items) - {session} && stopping == old(stopping)
    {
      items := items - {session};
    }

    /** The lock-held part of stopAll(): the list of those alive, each once. What weak_ptr::lock() gives
        is in `living`. */
    method Collect(living: map<nat, WebSocketSession>) returns (alive: seq<nat>)
      modifies this
      ensures stopping && items == old(items)
      ensures forall id :: id in alive <==> id in items && id in living
      ensures forall i, j | 0 <= i < j < |alive| :: alive[i] != alive[j]
      ensures forall w: GracefulStop.World | w.items == items && living.Keys == (set id | id in w.members && GracefulStop.Alive(w.members[id])) ::
                GracefulStop.Collect(w) == set id | id in alive
    {
      stopping := true;
      alive := [];
      var left := items;
      while left != {}
        invariant left <= items && items == old(items) && stopping
        invariant forall id :: id in alive <==> id in items - left && id in living
        invariant forall i, j | 0 <= i < j < |alive| :: alive[i] != alive[j]
        decreases |left|
      {
        var id :| id in left;
        left := left - {id};
        if id in living {
          alive := alive + [id];
        }
      }
    }

    /** stopAll(): every registered session that is alive gets exactly one close with 1001, the others
        none. Different sessions have different addresses. */
    method StopAll(living: map<nat, WebSocketSession>)
      requires forall a, b | a in living && b in living && a != b :: living[a] != living[b]
      requires forall id | id in living :: living[id] as object != this
      modifies this, set id | id in living :: living[id]
      ensures stopping && items == old(items)
      ensures forall id | id in living ::
                living[id].View() == if id in items then S.Next(living[id].limit, old(living[id].View()), S.Close(S.GOING_AWAY))
                                     else old(living[id].View())
    {
      var alive := Collect(living);
      var i := 0;
      while i < |alive|
        invariant 0 <= i <= |alive|
        invariant stopping && items == old(items)
        invariant forall id | id in living ::
                    living[id].View() == if id in alive[..i] then S.Next(living[id].limit, old(living[id].View()), S.Close(S.GOING_AWAY))
                                         else old(living[id].View())
        decreases |alive| - i
      {
        var id := alive[i];
        assert id in alive && id !in alive[..i];
        assert alive[..i + 1] == alive[..i] + [id];
        living[id].CloseSession(S.GOING_AWAY);
        i := i + 1;
      }
      assert alive[..i] == alive;
    }
  }
}
