/** One WebSocket session of the server (include/cppgate/WebSocketSession.h) with the callbacks of its
    context (include/cppgate/WebSocketContext.h).

    Handlers and posted functions run on the session's strand, one at a time: each is one step. The
    accept operation opens the stream and calls its handler in the same turn. send() and close() may
    be called from any thread; their posted parts run in any order. */
module WebSocketSessionProtocol {

  import opened Optional

  type Message = nat
  type Code = nat

  const GOING_AWAY: Code := 1001
  const ABNORMAL: Code := 1006
  const POLICY_ERROR: Code := 1008
  const INTERNAL_ERROR: Code := 1011

  datatype Event = OnOpen | OnMessage | OnError | OnClose(code: Code)

  datatype Op = AcceptOp | ReadOp | WriteOp(message: Message) | CloseOp(code: Code)

  /** Messages on their way to the socket. `calls` are threads inside send_internal() between the
      increment and the post. Histories: what entered the queue, and what left it, written or given up
      when a write failed. */
  datatype Outbox = Outbox(
    pending: int, queue: seq<Message>, calls: map<nat, Message>, posts: seq<Message>,
    accepted: seq<Message>, left: seq<Message>)

  /** The session's fields and pending operations, its posted close() calls, the context's closed flag
      and whether the user's callbacks are set, and the events the user got. */
  datatype Session = Session(
    accepted: bool, isOpen: bool, closing: bool, closeCode: Option<Code>, closed: bool, callbacks: bool,
    readEnded: bool, out: Outbox, closes: seq<Code>, ops: multiset<Op>, log: seq<Event>)

  /** A session before its handshake completes. */
  function Init(): Session {
    Session(false, false, false, None, false, false, false, Outbox(0, [], map[], [], [], []), [], multiset{AcceptOp}, [])
  }

  // ---------------------------------------------------------------- the context's events

  /** emitMessage and emitError. */
  function Emit(s: Session, e: Event): Session {
    if s.callbacks && !s.closed then s.(log := s.log + [e]) else s
  }

  function EmitClose(s: Session, code: Code): Session {
    if s.closed then s
    else if s.callbacks then s.(closed := true, log := s.log + [OnClose(code)])
    else s.(closed := true)
  }

  // ---------------------------------------------------------------- the handlers

  /** Writing, sending and starting a close produce no events. */
  predicate Silent(s: Session, r: Session) {
    r.log == s.log && r.closed == s.closed && r.callbacks == s.callbacks
  }

  /** Only the posted part of close() starts closing. */
  predicate SameClosing(s: Session, r: Session) {
    r.closing == s.closing && r.closeCode == s.closeCode
  }

  function Begin(s: Session, op: Op): Session {
    s.(ops := s.ops + multiset{op})
  }

  function PostClose(s: Session, code: Code): Session {
    s.(closes := s.closes + [code])
  }

  function OnAccept(s: Session, ok: bool, stopping: bool): (r: Session)
    ensures SameClosing(s, r)
  {
    if !ok then s
    else
      var o := s.(accepted := true, isOpen := true);
      Begin(if stopping then PostClose(o, GOING_AWAY) else o.(callbacks := true, log := o.log + [OnOpen]), ReadOp)
  }

  datatype ReadOutcome = Got(handlerThrows: bool) | Closed(code: Code) | Aborted | Failed

  function OnRead(s: Session, outcome: ReadOutcome): (r: Session)
    ensures SameClosing(s, r)
  {
    match outcome
    case Closed(code) => EmitClose(s.(readEnded := true), code)
    case Aborted => EmitClose(s.(readEnded := true), ABNORMAL)
    case Failed => EmitClose(Emit(s.(readEnded := true), OnError), ABNORMAL)
    case Got(handlerThrows) =>
      var d := Emit(s, OnMessage);
      Begin(if handlerThrows && d.log != s.log then PostClose(d, INTERNAL_ERROR) else d, ReadOp)
  }

  function DoWrite(s: Session): (r: Session)
    ensures Silent(s, r) && SameClosing(s, r)
  {
    if s.out.queue != [] then Begin(s, WriteOp(s.out.queue[0])) else s
  }

  function ClearQueue(o: Outbox): Outbox {
    o.(pending := o.pending - |o.queue|, queue := [], left := o.left + o.queue)
  }

  function PopFront(o: Outbox): Outbox
    requires o.queue != []
  {
    o.(pending := o.pending - 1, queue := o.queue[1..], left := o.left + [o.queue[0]])
  }

  function Unposted(o: Outbox, i: nat): Outbox
    requires i < |o.posts|
  {
    o.(posts := o.posts[..i] + o.posts[i + 1..])
  }

  function PushBack(o: Outbox, m: Message): Outbox {
    o.(queue := o.queue + [m], accepted := o.accepted + [m])
  }

  function OnWrite(s: Session, ok: bool): (r: Session)
    ensures Silent(s, r) && SameClosing(s, r)
  {
    if !ok then s.(out := ClearQueue(s.out))
    else if s.out.queue == [] then s  // pop_front of an empty queue: undefined behaviour
    else DoWrite(s.(out := PopFront(s.out)))
  }

  function OnClosed(s: Session, code: Code): Session {
    EmitClose(s, code)
  }

  /** The posted part of close(). */
  function RunClose(s: Session, code: Code): (r: Session)
    ensures Silent(s, r)
  {
    if s.closing || !s.isOpen then s else Begin(s.(closing := true, closeCode := Some(code)), CloseOp(code))
  }

  /** The posted part of send_internal(), for the i-th posted message. */
  function RunSend(limit: nat, s: Session, i: nat): (r: Session)
    requires i < |s.out.posts|
    ensures Silent(s, r) && SameClosing(s, r)
  {
    var o := Unposted(s.out, i);
    if s.closing then s.(out := o.(pending := o.pending - 1))
    else if |o.queue| >= limit then PostClose(s.(out := o.(pending := o.pending - 1)), POLICY_ERROR)
    else
      var d := s.(out := PushBack(o, s.out.posts[i]));
      if |d.out.queue| == 1 then DoWrite(d) else d
  }

  // ---------------------------------------------------------------- runs

  datatype Action =
    | AcceptDone(ok: bool, stopping: bool)
    | ReadDone(outcome: ReadOutcome)
    | WriteDone(message: Message, ok: bool)
    | CloseDone(code: Code)
    | StreamDies                           // the stream leaves the open state by itself
    | Send(thread: nat, message: Message)  // ++pending_
    | PostSend(thread: nat)
    | RunPostedSend(index: nat)
    | Close(code: Code)                    // close() from any thread
    | RunPostedClose(index: nat)

  predicate Possible(s: Session, a: Action) {
    match a
    case AcceptDone(_, _) => AcceptOp in s.ops
    case ReadDone(_) => ReadOp in s.ops
    case WriteDone(m, _) => WriteOp(m) in s.ops
    case CloseDone(code) => CloseOp(code) in s.ops
    case StreamDies => true
    case Send(t, _) => t !in s.out.calls
    case PostSend(t) => t in s.out.calls
    case RunPostedSend(i) => i < |s.out.posts|
    case Close(_) => true
    case RunPostedClose(i) => i < |s.closes|
  }

  function Next(limit: nat, s: Session, a: Action): Session {
    if !Possible(s, a) then s else
    match a
    case AcceptDone(ok, stopping) => OnAccept(s.(ops := s.ops - multiset{AcceptOp}), ok, stopping)
    case ReadDone(outcome) => OnRead(s.(ops := s.ops - multiset{ReadOp}), outcome)
    case WriteDone(m, ok) => OnWrite(s.(ops := s.ops - multiset{WriteOp(m)}), ok)
    case CloseDone(code) => OnClosed(s.(ops := s.ops - multiset{CloseOp(code)}), code)
    case StreamDies => s.(isOpen := false)
    case Send(t, m) => s.(out := s.out.(pending := s.out.pending + 1, calls := s.out.calls[t := m]))
    case PostSend(t) => s.(out := s.out.(calls := s.out.calls - {t}, posts := s.out.posts + [s.out.calls[t]]))
    case RunPostedSend(i) => RunSend(limit, s, i)
    case Close(code) => PostClose(s, code)
    case RunPostedClose(i) => RunClose(s.(closes := s.closes[..i] + s.closes[i + 1..]), s.closes[i])
  }

  function Run(limit: nat, s: Session, actions: seq<Action>): Session
    decreases |actions|
  {
    if actions == [] then s else Run(limit, Next(limit, s, actions[0]), actions[1..])
  }

  // ---------------------------------------------------------------- the invariant

  ghost predicate Counting(limit: nat, o: Outbox) {
    && o.pending == |o.queue| + |o.posts| + |o.calls|
    && |o.queue| <= limit
    && o.accepted == o.left + o.queue
  }

  /** A write is in flight exactly when the queue is not empty, and it carries the front. */
  ghost predicate Writing(s: Session) {
    forall m :: s.ops[WriteOp(m)] == if s.out.queue != [] && s.out.queue[0] == m then 1 else 0
  }

  ghost predicate Reading(s: Session) {
    && s.ops[ReadOp] == (if s.accepted && !s.readEnded then 1 else 0)
    && s.ops[AcceptOp] <= 1
    && (AcceptOp in s.ops ==> !s.accepted)
    && (s.readEnded ==> s.accepted && s.closed)
  }

  ghost predicate Closing(s: Session) {
    && (s.closing <==> s.closeCode.Some?)
    && (forall code :: s.ops[CloseOp(code)] <= if s.closeCode == Some(code) then 1 else 0)
    && (s.closing ==> s.accepted)
    && (s.isOpen ==> s.accepted)
    && (s.closed ==> s.accepted)
  }

  /** onOpen comes first and once, onClose last and at most once. */
  ghost predicate Ordered(log: seq<Event>) {
    && (forall i | 0 <= i < |log| :: log[i].OnOpen? <==> i == 0)
    && (forall i | 0 <= i < |log| && log[i].OnClose? :: i == |log| - 1)
  }

  ghost predicate Told(s: Session) {
    && Ordered(s.log)
    && (s.callbacks <==> s.log != [])
    && (s.callbacks ==> s.accepted && (s.closed <==> s.log[|s.log| - 1].OnClose?))
  }

  ghost predicate Inv(limit: nat, s: Session) {
    Counting(limit, s.out) && Writing(s) && Reading(s) && Closing(s) && Told(s)
  }

  lemma InitInv(limit: nat)
    ensures Inv(limit, Init())
  {
  }

  // ---------------------------------------------------------------- every step keeps it

  lemma AcceptInv(limit: nat, s: Session, ok: bool, stopping: bool)
    requires Inv(limit, s) && AcceptOp in s.ops
    ensures Inv(limit, Next(limit, s, AcceptDone(ok, stopping)))
  {
    var d := Next(limit, s, AcceptDone(ok, stopping));
    assert forall op | op != AcceptOp && op != ReadOp :: d.ops[op] == s.ops[op];
  }

  lemma EmitTold(s: Session, e: Event)
    requires Told(s) && (e.OnMessage? || e.OnError?)
    ensures Told(Emit(s, e))
  {
  }

  lemma EmitCloseTold(s: Session, code: Code)
    requires Told(s)
    ensures Told(EmitClose(s, code))
  {
  }

  lemma ReadTold(s: Session, outcome: ReadOutcome)
    requires Told(s)
    ensures Told(OnRead(s, outcome))
  {
    match outcome
    case Closed(code) => EmitCloseTold(s.(readEnded := true), code);
    case Aborted => EmitCloseTold(s.(readEnded := true), ABNORMAL);
    case Failed =>
      EmitTold(s.(readEnded := true), OnError);
      EmitCloseTold(Emit(s.(readEnded := true), OnError), ABNORMAL);
    case Got(_) => EmitTold(s, OnMessage);
  }

  lemma ReadOps(limit: nat, s: Session, outcome: ReadOutcome)
    requires Counting(limit, s.out) && Writing(s) && Closing(s) && Told(s) && s.accepted && !s.readEnded
    requires s.ops[ReadOp] == 0 && AcceptOp !in s.ops
    ensures var d := OnRead(s, outcome);
            Counting(limit, d.out) && Writing(d) && Closing(d) && Reading(d)
  {
    var d := OnRead(s, outcome);
    assert forall op | op != ReadOp :: d.ops[op] == s.ops[op];
  }

  lemma ReadInv(limit: nat, s: Session, outcome: ReadOutcome)
    requires Inv(limit, s) && ReadOp in s.ops
    ensures Inv(limit, OnRead(s.(ops := s.ops - multiset{ReadOp}), outcome))
  {
    var d := s.(ops := s.ops - multiset{ReadOp});
    assert forall op | op != ReadOp :: d.ops[op] == s.ops[op];
    ReadTold(d, outcome);
    ReadOps(limit, d, outcome);
  }

  lemma CloseDoneInv(limit: nat, s: Session, code: Code)
    requires Inv(limit, s) && CloseOp(code) in s.ops
    ensures Inv(limit, Next(limit, s, CloseDone(code)))
  {
    var d := Next(limit, s, CloseDone(code));
    assert forall op | op != CloseOp(code) :: d.ops[op] == s.ops[op];
  }

  lemma RunCloseInv(limit: nat, s: Session, i: nat)
    requires Inv(limit, s) && i < |s.closes|
    ensures Inv(limit, Next(limit, s, RunPostedClose(i)))
  {
    var d := Next(limit, s, RunPostedClose(i));
    var code := s.closes[i];
    assert forall op | op != CloseOp(code) :: d.ops[op] == s.ops[op];
  }

  /** Changes to the queue and to write operations leave the rest alone. */
  lemma WritesAside(s: Session, d: Session)
    requires Reading(s) && Closing(s) && Told(s)
    requires forall op: Op | !op.WriteOp? :: d.ops[op] == s.ops[op]
    requires d == s.(out := d.out, ops := d.ops, closes := d.closes)
    ensures Reading(d) && Closing(d) && Told(d)
  {
  }

  lemma DoWriteOps(s: Session)
    requires forall m :: s.ops[WriteOp(m)] == 0
    ensures Writing(DoWrite(s)) && forall op: Op | !op.WriteOp? :: DoWrite(s).ops[op] == s.ops[op]
  {
  }

  lemma LeavingCounts(limit: nat, o: Outbox)
    requires Counting(limit, o)
    ensures Counting(limit, ClearQueue(o))
    ensures o.queue != [] ==> Counting(limit, PopFront(o))
  {
    if o.queue != [] {
      assert o.queue == [o.queue[0]] + o.queue[1..];
    }
  }

  lemma OnWriteOps(s: Session, ok: bool)
    requires s.out.queue != [] && forall m :: s.ops[WriteOp(m)] == 0
    ensures var d := OnWrite(s, ok);
            Writing(d) && forall op: Op | !op.WriteOp? :: d.ops[op] == s.ops[op]
  {
    if ok {
      DoWriteOps(s.(out := PopFront(s.out)));
    }
  }

  lemma WriteInv(limit: nat, s: Session, m: Message, ok: bool)
    requires Inv(limit, s) && WriteOp(m) in s.ops
    ensures Inv(limit, OnWrite(s.(ops := s.ops - multiset{WriteOp(m)}), ok))
    ensures s.out.queue != [] && s.out.queue[0] == m
  {
    var d := s.(ops := s.ops - multiset{WriteOp(m)});
    assert forall n :: d.ops[WriteOp(n)] == 0;
    LeavingCounts(limit, d.out);
    OnWriteOps(d, ok);
    WritesAside(s, OnWrite(d, ok));
  }

  lemma PostCounts(limit: nat, o: Outbox, i: nat)
    requires Counting(limit, o) && i < |o.posts|
    ensures Counting(limit, Unposted(o, i).(pending := o.pending - 1))
    ensures |o.queue| < limit ==> Counting(limit, PushBack(Unposted(o, i), o.posts[i]))
  {
  }

  lemma SendOps(limit: nat, s: Session, i: nat)
    requires Writing(s) && i < |s.out.posts|
    ensures var d := RunSend(limit, s, i);
            Writing(d) && forall op: Op | !op.WriteOp? :: d.ops[op] == s.ops[op]
  {
    if !s.closing && |s.out.queue| < limit {
      var d := s.(out := PushBack(Unposted(s.out, i), s.out.posts[i]));
      if s.out.queue == [] { DoWriteOps(d); } else { assert d.out.queue[0] == s.out.queue[0]; }
    }
  }

  lemma SendInv(limit: nat, s: Session, i: nat)
    requires Inv(limit, s) && i < |s.out.posts|
    ensures Inv(limit, RunSend(limit, s, i))
  {
    PostCounts(limit, s.out, i);
    SendOps(limit, s, i);
    WritesAside(s, RunSend(limit, s, i));
  }

  lemma NextInv(limit: nat, s: Session, a: Action)
    requires Inv(limit, s)
    ensures Inv(limit, Next(limit, s, a))
  {
    if Possible(s, a) {
      match a
      case AcceptDone(ok, stopping) => AcceptInv(limit, s, ok, stopping);
      case ReadDone(outcome) => ReadInv(limit, s, outcome);
      case WriteDone(m, ok) => WriteInv(limit, s, m, ok);
      case CloseDone(code) => CloseDoneInv(limit, s, code);
      case RunPostedSend(i) => SendInv(limit, s, i);
      case RunPostedClose(i) => RunCloseInv(limit, s, i);
      case _ => CallerInv(limit, s, a);
    }
  }

  /** What other threads and the stream itself do. */
  lemma CallerInv(limit: nat, s: Session, a: Action)
    requires Inv(limit, s) && Possible(s, a) && (a.Send? || a.PostSend? || a.Close? || a.StreamDies?)
    ensures Inv(limit, Next(limit, s, a))
  {
    if a.Send? {
      assert s.out.calls[a.thread := a.message].Keys == s.out.calls.Keys + {a.thread};
    } else if a.PostSend? {
      assert s.out.calls.Keys == (s.out.calls - {a.thread}).Keys + {a.thread};
    }
  }

  lemma {:induction false} RunInv(limit: nat, s: Session, actions: seq<Action>)
    requires Inv(limit, s)
    ensures Inv(limit, Run(limit, s, actions))
    decreases |actions|
  {
    if actions != [] {
      NextInv(limit, s, actions[0]);
      RunInv(limit, Next(limit, s, actions[0]), actions[1..]);
    }
  }

  // ---------------------------------------------------------------- what every run shows

  /** In every reachable state pendingMessages() is exactly what is queued, posted or being posted;
      the queue is within the limit; a write is in flight exactly when the queue is not empty, with
      its front, so pop_front never finds it empty; messages leave in the order they entered. */
  lemma SendsOfEveryRun(limit: nat, actions: seq<Action>)
    ensures var s := Run(limit, Init(), actions);
            && 0 <= s.out.pending == |s.out.queue| + |s.out.posts| + |s.out.calls|
            && |s.out.queue| <= limit
            && (forall m :: WriteOp(m) in s.ops <==> s.out.queue != [] && s.out.queue[0] == m)
            && (forall m :: s.ops[WriteOp(m)] <= 1)
            && s.out.accepted == s.out.left + s.out.queue
  {
    InitInv(limit);
    RunInv(limit, Init(), actions);
  }

  /** In every reachable state onClose was called at most once and nothing after it; and a session
      that was opened and has not reported its close still reads, so it will. */
  lemma EventsOfEveryRun(limit: nat, actions: seq<Action>)
    ensures var s := Run(limit, Init(), actions);
            && Ordered(s.log)
            && (s.callbacks && !(s.log != [] && s.log[|s.log| - 1].OnClose?) ==> ReadOp in s.ops && !s.closed)
  {
    InitInv(limit);
    RunInv(limit, Init(), actions);
  }

  /** While a session is up every message is reported, the session goes on reading, and a callback
      that throws closes it with 1011. */
  lemma MessagesReported(limit: nat, s: Session, throws: bool)
    requires Inv(limit, s) && s.callbacks && !s.closed
    ensures var d := Next(limit, s, ReadDone(Got(throws)));
            && ReadOp in s.ops && ReadOp in d.ops
            && d.log == s.log + [OnMessage] && d.out == s.out
            && d.closes == s.closes + (if throws then [INTERNAL_ERROR] else [])
  {
    assert s.ops[ReadOp] == 1;
  }

  /** Whatever ends the read of an opened session leaves onClose as the last event, reported once. */
  lemma ReadEndReports(limit: nat, s: Session, outcome: ReadOutcome)
    requires Inv(limit, s) && s.callbacks && ReadOp in s.ops && !outcome.Got?
    ensures var d := Next(limit, s, ReadDone(outcome));
            && d.log != [] && d.log[|d.log| - 1].OnClose? && Ordered(d.log) && s.log <= d.log
  {
    ReadInv(limit, s, outcome);
  }

  lemma FinalRead(s: Session, outcome: ReadOutcome)
    requires s.closed
    ensures OnRead(s, outcome).closed && OnRead(s, outcome).log == s.log
  {
  }

  /** The steps that call no handler of the stream. */
  lemma FinalPost(limit: nat, s: Session, a: Action)
    requires s.closed && Possible(s, a) && !a.AcceptDone? && !a.ReadDone? && !a.WriteDone? && !a.CloseDone?
    ensures Next(limit, s, a).closed && Next(limit, s, a).log == s.log
  {
    match a
    case RunPostedSend(i) => assert Silent(s, RunSend(limit, s, i));
    case RunPostedClose(i) =>
      var d := s.(closes := s.closes[..i] + s.closes[i + 1..]);
      assert Silent(d, RunClose(d, s.closes[i]));
    case _ =>
  }

  lemma FinalStep(limit: nat, s: Session, a: Action)
    requires s.closed && AcceptOp !in s.ops
    ensures Next(limit, s, a).closed && Next(limit, s, a).log == s.log
  {
    if Possible(s, a) {
      match a
      case ReadDone(outcome) => FinalRead(s.(ops := s.ops - multiset{ReadOp}), outcome);
      case WriteDone(m, ok) =>
        var d := s.(ops := s.ops - multiset{WriteOp(m)});
        assert Silent(d, OnWrite(d, ok));
      case CloseDone(code) => assert EmitClose(s.(ops := s.ops - multiset{CloseOp(code)}), code).log == s.log;
      case _ => FinalPost(limit, s, a);
    }
  }

  /** Once onClose was reported, the events are final: neither the other end of the close nor a late
      message or error adds to them. */
  lemma {:induction false} CloseIsFinal(limit: nat, s: Session, actions: seq<Action>)
    requires Inv(limit, s) && s.closed
    ensures Run(limit, s, actions).log == s.log
    decreases |actions|
  {
    if actions != [] {
      NextInv(limit, s, actions[0]);
      FinalStep(limit, s, actions[0]);
      CloseIsFinal(limit, Next(limit, s, actions[0]), actions[1..]);
    }
  }

  lemma ClosingPost(limit: nat, s: Session, a: Action)
    requires Possible(s, a) && !a.AcceptDone? && !a.ReadDone? && !a.WriteDone? && !a.CloseDone? && !a.RunPostedClose?
    ensures SameClosing(s, Next(limit, s, a))
  {
    if a.RunPostedSend? {
      assert SameClosing(s, RunSend(limit, s, a.index));
    }
  }

  /** No step but the posted part of a close() changes whether and how the session is closing. */
  lemma OtherStepsCloseNothing(limit: nat, s: Session, a: Action)
    requires !a.RunPostedClose?
    ensures SameClosing(s, Next(limit, s, a))
  {
    if Possible(s, a) {
      match a
      case AcceptDone(ok, stopping) =>
        var d := s.(ops := s.ops - multiset{AcceptOp});
        assert SameClosing(d, OnAccept(d, ok, stopping));
      case ReadDone(outcome) =>
        var d := s.(ops := s.ops - multiset{ReadOp});
        assert SameClosing(d, OnRead(d, outcome));
      case WriteDone(m, ok) =>
        var d := s.(ops := s.ops - multiset{WriteOp(m)});
        assert SameClosing(d, OnWrite(d, ok));
      case CloseDone(code) => assert SameClosing(s, EmitClose(s.(ops := s.ops - multiset{CloseOp(code)}), code));
      case _ => ClosingPost(limit, s, a);
    }
  }

  lemma ClosingStep(limit: nat, s: Session, a: Action)
    requires s.closing
    ensures Next(limit, s, a).closing && Next(limit, s, a).closeCode == s.closeCode
  {
    if !a.RunPostedClose? {
      OtherStepsCloseNothing(limit, s, a);
    }
  }

  /** The open stream, as the other steps see it: only the accept opens it, and posted closes wait their
      turn. */
  ghost predicate SameStream(s: Session, d: Session) {
    (d.isOpen ==> s.isOpen) && s.accepted == d.accepted && s.closes <= d.closes
  }

  lemma StreamPost(limit: nat, s: Session, a: Action)
    requires Possible(s, a) && !a.AcceptDone? && !a.ReadDone? && !a.WriteDone? && !a.CloseDone? && !a.RunPostedClose?
    ensures SameStream(s, Next(limit, s, a))
  {
  }

  lemma StreamRead(s: Session, outcome: ReadOutcome)
    ensures SameStream(s, OnRead(s, outcome))
  {
  }

  lemma StreamWrite(s: Session, ok: bool)
    ensures SameStream(s, OnWrite(s, ok))
  {
  }

  lemma StreamStep(limit: nat, s: Session, a: Action)
    requires !a.RunPostedClose? && !(a.AcceptDone? && a.ok)
    ensures SameStream(s, Next(limit, s, a))
  {
    if Possible(s, a) {
      match a
      case ReadDone(outcome) => StreamRead(s.(ops := s.ops - multiset{ReadOp}), outcome);
      case WriteDone(m, ok) => StreamWrite(s.(ops := s.ops - multiset{WriteOp(m)}), ok);
      case CloseDone(code) => assert SameStream(s, EmitClose(s.(ops := s.ops - multiset{CloseOp(code)}), code));
      case AcceptDone(_, _) =>
      case _ => StreamPost(limit, s, a);
    }
  }

  /** The close handshake is started at most once, with the code that came first. */
  lemma {:induction false} ClosesOnce(limit: nat, s: Session, actions: seq<Action>)
    requires s.closing
    ensures Run(limit, s, actions).closing && Run(limit, s, actions).closeCode == s.closeCode
    decreases |actions|
  {
    if actions != [] {
      ClosingStep(limit, s, actions[0]);
      ClosesOnce(limit, Next(limit, s, actions[0]), actions[1..]);
    }
  }

  /** A slow consumer is disconnected: a message that finds the queue full is dropped and posts a
      close with 1008 (policy violation), which starts the close unless one is under way already. */
  lemma SlowConsumerIsClosed(limit: nat, s: Session, i: nat)
    requires Inv(limit, s) && !s.closing && i < |s.out.posts| && |s.out.queue| == limit
    ensures var d := Next(limit, s, RunPostedSend(i));
            && d.out.queue == s.out.queue && d.out.pending == s.out.pending - 1
            && d.closes == s.closes + [POLICY_ERROR]
            && (s.isOpen ==>
                  var e := Next(limit, d, RunPostedClose(|s.closes|));
                  e.closing && e.closeCode == Some(POLICY_ERROR) && CloseOp(POLICY_ERROR) in e.ops)
  {
  }
}

/** The session object: handlers and posted functions change its fields in place. */
module WebSocketSessionObject {
  import opened Optional
  import opened WebSocketSessionProtocol

  class WebSocketSession {
    const limit: nat
    var accepted: bool
    var isOpen: bool
    var closing: bool
    var closeCode: Option<Code>
    var closed: bool
    var callbacks: bool
    var readEnded: bool
    var out: Outbox
    var closes: seq<Code>
    var ops: multiset<Op>
    var log: seq<Event>

    function View(): Session
      reads this
    {
      Session(accepted, isOpen, closing, closeCode, closed, callbacks, readEnded, out, closes, ops, log)
    }

    constructor (limit: nat)
      ensures View() == Init() && this.limit == limit && Inv(limit, View())
    {
      this.limit := limit;
      accepted, isOpen, closing, closeCode, closed, callbacks, readEnded := false, false, false, None, false, false, false;
      out, closes, ops, log := Outbox(0, [], map[], [], [], []), [], multiset{AcceptOp}, [];
      InitInv(limit);
    }

    method EmitEvent(e: Event)
      modifies this`log
      ensures View() == Emit(old(View()), e)
    {
      if callbacks && !closed {
        log := log + [e];
      }
    }

    method EmitClosed(code: Code)
      modifies this`log, this`closed
      ensures View() == EmitClose(old(View()), code)
    {
      if closed {
        return;
      }
      closed := true;
      if callbacks {
        log := log + [OnClose(code)];
      }
    }

    method Accepted(ok: bool, stopping: bool)
      modifies this
      ensures View() == OnAccept(old(View()), ok, stopping)
    {
      if !ok {
        return;
      }
      accepted, isOpen := true, true;
      if stopping {
        closes := closes + [GOING_AWAY];
      } else {
        callbacks := true;
        log := log + [OnOpen];
      }
      ops := ops + multiset{ReadOp};
    }

    method Read(outcome: ReadOutcome)
      modifies this
      ensures View() == OnRead(old(View()), outcome)
    {
      match outcome {
        case Closed(code) =>
          readEnded := true;
          EmitClosed(code);
        case Aborted =>
          readEnded := true;
          EmitClosed(ABNORMAL);
        case Failed =>
          readEnded := true;
          EmitEvent(OnError);
          EmitClosed(ABNORMAL);
        case Got(handlerThrows) =>
          var before := |log|;
          EmitEvent(OnMessage);
          if handlerThrows && |log| != before {
            closes := closes + [INTERNAL_ERROR];
          }
          ops := ops + multiset{ReadOp};
      }
    }

    method StartWrite()
      modifies this`ops
      ensures View() == DoWrite(old(View()))
    {
      if out.queue != [] {
        ops := ops + multiset{WriteOp(out.queue[0])};
      }
    }

    method Written(ok: bool)
      requires out.queue != []
      modifies this`ops, this`out
      ensures View() == OnWrite(old(View()), ok)
    {
      if !ok {
        out := out.(pending := out.pending - |out.queue|, left := out.left + out.queue);
        out := out.(queue := []);
        return;
      }
      out := out.(left := out.left + [out.queue[0]]);
      out := out.(queue := out.queue[1..]);
      out := out.(pending := out.pending - 1);
      StartWrite();
    }

    method PostedSend(i: nat)
      requires i < |out.posts|
      modifies this`ops, this`out, this`closes
      ensures View() == RunSend(limit, old(View()), i)
    {
      var m := out.posts[i];
      out := out.(posts := out.posts[..i] + out.posts[i + 1..]);
      if closing {
        out := out.(pending := out.pending - 1);
        return;
      }
      if |out.queue| >= limit {
        out := out.(pending := out.pending - 1);
        closes := closes + [POLICY_ERROR];
        return;
      }
      out := out.(queue := out.queue + [m], accepted := out.accepted + [m]);
      if |out.queue| == 1 {
        StartWrite();
      }
    }

    method PostedClose(code: Code)
      modifies this`closing, this`closeCode, this`ops
      ensures View() == RunClose(old(View()), code)
    {
      if closing || !isOpen {
        return;
      }
      closing, closeCode := true, Some(code);
      ops := ops + multiset{CloseOp(code)};
    }

    /** send_internal(), from any thread: first the counter, */
    method Count(t: nat, message: Message)
      requires t !in out.calls
      modifies this`out
      ensures View() == Next(limit, old(View()), Send(t, message))
    {
      out := out.(pending := out.pending + 1, calls := out.calls[t := message]);
    }

    /** then the post. */
    method Post(t: nat)
      requires t in out.calls
      modifies this`out
      ensures View() == Next(limit, old(View()), PostSend(t))
    {
      out := out.(calls := out.calls - {t}, posts := out.posts + [out.calls[t]]);
    }

    /** close(), from any thread; stop() is close(going_away). */
    method CloseSession(code: Code)
      modifies this`closes
      ensures View() == Next(limit, old(View()), Close(code))
    {
      closes := closes + [code];
    }

    /** A completion takes its token and runs its handler. */
    method Complete(a: Action)
      requires Inv(limit, View()) && Possible(View(), a)
      requires a.AcceptDone? || a.ReadDone? || a.WriteDone? || a.CloseDone?
      modifies this
      ensures View() == Next(limit, old(View()), a)
    {
      match a {
        case AcceptDone(ok, stopping) =>
          ops := ops - multiset{AcceptOp};
          Accepted(ok, stopping);
        case ReadDone(outcome) =>
          ops := ops - multiset{ReadOp};
          Read(outcome);
        case WriteDone(m, ok) =>
          WriteInv(limit, View(), m, ok);
          ops := ops - multiset{WriteOp(m)};
          Written(ok);
        case CloseDone(code) =>
          ops := ops - multiset{CloseOp(code)};
          EmitClosed(code);
      }
    }

    /** A call from another thread, or the stream failing by itself. */
    method FromOutside(a: Action)
      requires Possible(View(), a) && (a.Send? || a.PostSend? || a.Close? || a.StreamDies?)
      modifies this
      ensures View() == Next(limit, old(View()), a)
    {
      match a {
        case StreamDies => isOpen := false;
        case Send(t, m) => Count(t, m);
        case PostSend(t) => Post(t);
        case Close(code) => CloseSession(code);
      }
    }

    /** Any step of the session; a step that is not possible does nothing. */
    method Step(a: Action)
      requires Inv(limit, View())
      modifies this
      ensures View() == Next(limit, old(View()), a) && Inv(limit, View())
    {
      NextInv(limit, View(), a);
      if !Possible(View(), a) {
        return;
      }
      match a {
        case RunPostedSend(i) => PostedSend(i);
        case RunPostedClose(i) =>
          var code := closes[i];
          closes := closes[..i] + closes[i + 1..];
          PostedClose(code);
        case Send(_, _) => FromOutside(a);
        case PostSend(_) => FromOutside(a);
        case Close(_) => FromOutside(a);
        case StreamDies => FromOutside(a);
        case _ => Complete(a);
      }
    }
  }
}
