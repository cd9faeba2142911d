/** The life of a session in the registry, from run() to its destructor, and the whole of stopAll()
    (include/cppgate/SessionRegistry.h:33-78, include/cppgate/WebSocketSession.h:323-350). */
module SessionLives {
  import opened Optional
  import opened GracefulStop
  import S = WebSocketSessionProtocol

  // ---------------------------------------------------------------- entering

  lemma CreatedIsNew(w: World, id: nat)
    ensures Next(w, Create(id)) == if id in w.members then w else w.Set(id, Member(Created, S.Init(), false, None))
  {
  }

  /** run(): while the server stops the session is refused and does not enter the registry, otherwise it
      enters; the others stay as they were. */
  lemma EntersExactlyWhen(w: World, id: nat)
    requires id in w.members && w.members[id].phase.Created?
    ensures var x := Next(w, RunSession(id));
            && x.members.Keys == w.members.Keys && x.stopping == w.stopping && x.toStop == w.toStop
            && x.members[id] == w.members[id].(phase := if w.stopping then Refused else Upgrading)
            && x.items == (if w.stopping then w.items else w.items + {id})
            && forall other | other in w.members && other != id :: x.members[other] == w.members[other]
  {
  }

  /** A server that was never stopped takes every session: created, registered and, if the router accepts
      the upgrade, in its handshake. */
  lemma NewSessionGoesLive(limit: nat, id: nat, ok: bool)
    ensures var w := Run(Init(limit), [Create(id), RunSession(id), Upgrade(id, ok)]);
            && !w.stopping && w.items == {id} && w.members.Keys == {id}
            && w.members[id] == Member(if ok then Live else Rejected, S.Init(), false, None)
  {
    var w1 := Next(Init(limit), Create(id));
    var w2 := Next(w1, RunSession(id));
    CreatedIsNew(Init(limit), id);
    EntersExactlyWhen(w1, id);
    RunThree(Init(limit), Create(id), RunSession(id), Upgrade(id, ok));
  }

  lemma RunThree(w: World, a: Action, b: Action, c: Action)
    ensures Run(w, [a, b, c]) == Next(Next(Next(w, a), b), c)
  {
    assert [a, b, c][1..] == [b, c] && [b, c][1..] == [c] && [c][1..] == [];
    var x := Next(Next(w, a), b);
    assert Run(x, [c]) == Next(x, c);
    assert Run(Next(w, a), [b, c]) == Run(x, [c]);
  }

  // ---------------------------------------------------------------- leaving

  /** A session is destroyed only when nothing refers to it any more: no posted close or send, no thread in
      a send, no operation of its stream, and not stopAll(). */
  ghost predicate LeftNothing(m: Member) {
    && m.session.closes == [] && m.session.out.posts == [] && m.session.out.calls == map[]
    && (m.session.accepted ==> m.session.ops == multiset{})
  }

  ghost predicate GoneLeftNothing(w: World) {
    forall id | id in w.members && !Alive(w.members[id]) :: LeftNothing(w.members[id])
  }

  lemma GoneStepLeavesNothing(w: World, a: Action)
    requires Inv(w) && GoneLeftNothing(w)
    ensures GoneLeftNothing(Next(w, a))
  {
    var x := Next(w, a);
    forall id | id in x.members && !Alive(x.members[id]) ensures LeftNothing(x.members[id]) {
      if a == LastReference(id) {
        assert id in w.members ==> MemberInv(w, id);
      }
    }
  }

  lemma {:induction false} GoneRunLeavesNothing(w: World, actions: seq<Action>)
    requires Inv(w) && GoneLeftNothing(w)
    ensures GoneLeftNothing(Run(w, actions))
    decreases |actions|
  {
    if actions != [] {
      NextInv(w, actions[0]);
      GoneStepLeavesNothing(w, actions[0]);
      GoneRunLeavesNothing(Next(w, actions[0]), actions[1..]);
    }
  }

  /** In every run a session that is gone or going left no posted function and no operation behind. */
  lemma NothingIsLeftBehind(limit: nat, actions: seq<Action>, id: nat)
    ensures var w := Run(Init(limit), actions);
            id in w.members && !Alive(w.members[id]) ==> LeftNothing(w.members[id])
  {
    GoneRunLeavesNothing(Init(limit), actions);
  }

  /** A session that nothing refers to goes: its destructor takes it, and it alone, out of the registry. */
  lemma UnreferencedGoes(w: World, id: nat)
    requires Inv(w) && id in w.members && Alive(w.members[id]) && id !in w.toStop
    requires LeftNothing(w.members[id]) && w.members[id].session.ops == multiset{}
    ensures var x := Next(Next(w, LastReference(id)), Remove(id));
            x == w.(items := w.items - {id}, members := w.members[id := w.members[id].(phase := Gone)])
  {
    var dying := w.members[id].(phase := Dying);
    LastReferenceGoes(w, id);
    DestructorRemoves(w.Set(id, dying), id);
    assert w.members[id := dying][id := dying.(phase := Gone)] == w.members[id := w.members[id].(phase := Gone)];
  }

  lemma LastReferenceGoes(w: World, id: nat)
    requires id in w.members && Alive(w.members[id]) && id !in w.toStop
    requires LeftNothing(w.members[id]) && w.members[id].session.ops == multiset{}
    ensures Next(w, LastReference(id)) == w.Set(id, w.members[id].(phase := Dying))
  {
  }

  lemma DestructorRemoves(w: World, id: nat)
    requires id in w.members && w.members[id].phase.Dying?
    ensures Next(w, Remove(id)) == w.(items := w.items - {id}).Set(id, w.members[id].(phase := Gone))
  {
  }

  // ---------------------------------------------------------------- stopAll()

  function StopEach(ids: seq<nat>): seq<Action> {
    if ids == [] then [] else [StopOne(ids[0])] + StopEach(ids[1..])
  }

  /** stop() of one session posts a close with 1001 behind its others. */
  lemma StopOneTells(w: World, id: nat)
    requires id in w.toStop && id in w.members
    ensures var x := Next(w, StopOne(id));
            && x == w.(toStop := w.toStop - {id}, members := x.members) && x.members.Keys == w.members.Keys
            && x.members[id].told && x.members[id].phase == w.members[id].phase
            && x.members[id].session == w.members[id].session.(closes := w.members[id].session.closes + [S.GOING_AWAY])
            && forall other | other in w.members && other != id :: x.members[other] == w.members[other]
  {
  }

  ghost predicate ToldOf(w: World, x: World, id: nat)
    requires id in w.members && id in x.members
  {
    && x.members[id].told && x.members[id].phase == w.members[id].phase
    && x.members[id].session == w.members[id].session.(closes := w.members[id].session.closes + [S.GOING_AWAY])
  }

  lemma {:induction false} EachIsTold(w: World, ids: seq<nat>)
    requires forall i | 0 <= i < |ids| :: ids[i] in w.toStop && ids[i] in w.members
    requires forall i, j | 0 <= i < j < |ids| :: ids[i] != ids[j]
    ensures var x := Run(w, StopEach(ids));
            && x.stopping == w.stopping && x.items == w.items && x.members.Keys == w.members.Keys
            && (forall id :: id in x.toStop <==> id in w.toStop && id !in ids)
            && (forall id | id in w.members :: if id in ids then ToldOf(w, x, id) else x.members[id] == w.members[id])
    decreases |ids|
  {
    if ids != [] {
      var w1 := Next(w, StopOne(ids[0]));
      StopOneTells(w, ids[0]);
      assert StopEach(ids)[1..] == StopEach(ids[1..]);
      assert forall id :: id in ids <==> id == ids[0] || id in ids[1..];
      assert ids[0] !in ids[1..];
      EachIsTold(w1, ids[1..]);
    }
  }

  /** The whole of stopAll(), with nothing in between: the flag is set, and every session that is registered
      and alive, each once, has a close with 1001 behind its other posts; nobody else is touched. */
  lemma StopAllTellsEveryone(w: World, ids: seq<nat>)
    requires w.toStop == {}
    requires forall id :: id in ids <==> id in w.items && id in w.members && Alive(w.members[id])
    requires forall i, j | 0 <= i < j < |ids| :: ids[i] != ids[j]
    ensures var x := Run(w, [BeginStopAll] + StopEach(ids));
            && x.stopping && x.toStop == {} && x.items == w.items && x.members.Keys == w.members.Keys
            && forall id | id in w.members :: if id in ids then ToldOf(w, x, id) else x.members[id] == w.members[id]
  {
    var w1 := Next(w, BeginStopAll);
    assert forall i | 0 <= i < |ids| :: ids[i] in ids;
    assert ([BeginStopAll] + StopEach(ids))[1..] == StopEach(ids);
    EachIsTold(w1, ids);
    assert Run(w, [BeginStopAll] + StopEach(ids)) == Run(w1, StopEach(ids));
  }
}
