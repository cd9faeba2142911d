/** What the user of a server session is told, what becomes of every message that is sent, and how a session
    opens, writes and closes (include/cppgate/WebSocketSession.h:155-369,
    include/cppgate/WebSocketContext.h:153-181). */
module SessionMessages {
  import opened Optional
  import opened WebSocketSessionProtocol

  // ---------------------------------------------------------------- every event, of every step

  /** Somebody listens: the handler set its callbacks, and onClose was not called yet. */
  predicate Listening(s: Session) {
    s.callbacks && !s.closed
  }

  function Says(s: Session, a: Action): seq<Event> {
    if !Possible(s, a) then []
    else
      match a
      case AcceptDone(ok, stopping) => if ok && !stopping then [OnOpen] else []
      case ReadDone(outcome) => if Listening(s) then ReadSays(outcome) else []
      case CloseDone(code) => if Listening(s) then [OnClose(code)] else []
      case _ => []
  }

  function ReadSays(outcome: ReadOutcome): seq<Event> {
    match outcome
    case Got(_) => [OnMessage]
    case Closed(code) => [OnClose(code)]
    case Aborted => [OnClose(ABNORMAL)]
    case Failed => [OnError, OnClose(ABNORMAL)]
  }

  lemma ReadTells(s: Session, outcome: ReadOutcome)
    ensures OnRead(s, outcome).log == s.log + (if Listening(s) then ReadSays(outcome) else [])
  {
  }

  /** The other steps of the strand and of other threads are silent. */
  lemma SilentSteps(limit: nat, s: Session, a: Action)
    requires Possible(s, a) && !a.AcceptDone? && !a.ReadDone? && !a.CloseDone?
    ensures Next(limit, s, a).log == s.log
  {
    match a
    case WriteDone(m, ok) => assert Silent(s, OnWrite(s.(ops := s.ops - multiset{WriteOp(m)}), ok));
    case RunPostedSend(i) => assert Silent(s, RunSend(limit, s, i));
    case RunPostedClose(i) => assert Silent(s, RunClose(s.(closes := s.closes[..i] + s.closes[i + 1..]), s.closes[i]));
    case _ =>
  }

  /** Every step tells the user exactly what is declared above, after what it told before. */
  lemma EveryStepSays(limit: nat, s: Session, a: Action)
    ensures Next(limit, s, a).log == s.log + Says(s, a)
  {
    if Possible(s, a) {
      match a
      case AcceptDone(_, _) =>
      case ReadDone(outcome) => ReadTells(s.(ops := s.ops - multiset{ReadOp}), outcome);
      case CloseDone(_) =>
      case _ => SilentSteps(limit, s, a);
    }
  }

  function AllSaid(limit: nat, s: Session, actions: seq<Action>): seq<Event>
    decreases |actions|
  {
    if actions == [] then [] else Says(s, actions[0]) + AllSaid(limit, Next(limit, s, actions[0]), actions[1..])
  }

  lemma Regroup(a: seq<Event>, b: seq<Event>, c: seq<Event>)
    ensures a + (b + c) == (a + b) + c
  {
  }

  lemma {:induction false} RunSays(limit: nat, s: Session, actions: seq<Action>)
    ensures Run(limit, s, actions).log == s.log + AllSaid(limit, s, actions)
    decreases |actions|
  {
    if actions != [] {
      var d := Next(limit, s, actions[0]);
      EveryStepSays(limit, s, actions[0]);
      RunSays(limit, d, actions[1..]);
      Regroup(s.log, Says(s, actions[0]), AllSaid(limit, d, actions[1..]));
    }
  }

  /** Over every run, the user is told exactly what its steps say, in order. */
  lemma EveryRunSays(limit: nat, actions: seq<Action>)
    ensures Run(limit, Init(), actions).log == AllSaid(limit, Init(), actions)
  {
    RunSays(limit, Init(), actions);
  }

  // ---------------------------------------------------------------- what becomes of every message

  /** The message that a send hands to the strand with this step. */
  function Posted(s: Session, a: Action): multiset<Message> {
    if a.PostSend? && Possible(s, a) then multiset{s.out.calls[a.thread]} else multiset{}
  }

  /** The message that this step refuses, because the session is closing or its queue is full. */
  function Refused(limit: nat, s: Session, a: Action): multiset<Message> {
    if a.RunPostedSend? && Possible(s, a) && (s.closing || |s.out.queue| >= limit) then multiset{s.out.posts[a.index]} else multiset{}
  }

  /** The messages that entered the queue, and those that wait for their turn on the strand. */
  function Held(s: Session): multiset<Message> {
    multiset(s.out.accepted) + multiset(s.out.posts)
  }

  lemma TakenOut(posts: seq<Message>, i: nat)
    requires i < |posts|
    ensures multiset(posts) == multiset(posts[..i] + posts[i + 1..]) + multiset{posts[i]}
  {
    assert posts == posts[..i] + [posts[i]] + posts[i + 1..];
  }

  lemma SendKeeps(limit: nat, s: Session, i: nat)
    requires i < |s.out.posts|
    ensures Held(RunSend(limit, s, i)) + Refused(limit, s, RunPostedSend(i)) == Held(s)
  {
    TakenOut(s.out.posts, i);
  }

  lemma WriteKeeps(s: Session, ok: bool)
    ensures SameMessages(s, OnWrite(s, ok))
  {
  }

  lemma PostKeeps(limit: nat, s: Session, t: nat)
    requires t in s.out.calls
    ensures Held(Next(limit, s, PostSend(t))) == Held(s) + Posted(s, PostSend(t))
  {
  }

  predicate SameMessages(s: Session, d: Session) {
    d.out.accepted == s.out.accepted && d.out.posts == s.out.posts
  }

  lemma SameMessagesAreHeld(s: Session, d: Session)
    requires SameMessages(s, d)
    ensures Held(d) + multiset{} == Held(s) + multiset{}
  {
  }

  /** The other steps change neither what was accepted nor what waits for its turn. */
  lemma OtherStepsKeep(limit: nat, s: Session, a: Action)
    requires Possible(s, a) && !a.RunPostedSend? && !a.WriteDone? && !a.ReadDone? && !a.PostSend?
    ensures SameMessages(s, Next(limit, s, a))
  {
  }

  lemma ReadKeeps(s: Session, outcome: ReadOutcome)
    ensures OnRead(s, outcome).out == s.out
  {
  }

  /** No message is lost by a step, and none comes from nowhere. */
  lemma StepKeeps(limit: nat, s: Session, a: Action)
    ensures Held(Next(limit, s, a)) + Refused(limit, s, a) == Held(s) + Posted(s, a)
  {
    var d := Next(limit, s, a);
    if !Possible(s, a) {
      SameMessagesAreHeld(s, d);
    } else {
      match a
      case RunPostedSend(i) => SendKeeps(limit, s, i);
      case PostSend(t) => PostKeeps(limit, s, t);
      case WriteDone(m, ok) =>
        WriteKeeps(s.(ops := s.ops - multiset{WriteOp(m)}), ok);
        SameMessagesAreHeld(s, d);
      case ReadDone(outcome) =>
        ReadKeeps(s.(ops := s.ops - multiset{ReadOp}), outcome);
        SameMessagesAreHeld(s, d);
      case _ =>
        OtherStepsKeep(limit, s, a);
        SameMessagesAreHeld(s, d);
    }
  }

  function AllPosted(limit: nat, s: Session, actions: seq<Action>): multiset<Message>
    decreases |actions|
  {
    if actions == [] then multiset{} else Posted(s, actions[0]) + AllPosted(limit, Next(limit, s, actions[0]), actions[1..])
  }

  function AllRefused(limit: nat, s: Session, actions: seq<Action>): multiset<Message>
    decreases |actions|
  {
    if actions == [] then multiset{} else Refused(limit, s, actions[0]) + AllRefused(limit, Next(limit, s, actions[0]), actions[1..])
  }

  /** Two balanced steps balance together. */
  lemma Balance(held: multiset<Message>, came: multiset<Message>, next: multiset<Message>, went: multiset<Message>,
                last: multiset<Message>, wentLater: multiset<Message>, cameLater: multiset<Message>)
    requires next + went == held + came
    requires last + wentLater == next + cameLater
    ensures last + (went + wentLater) == held + (came + cameLater)
  {
    forall m ensures (last + (went + wentLater))[m] == (held + (came + cameLater))[m] {
      assert (next + went)[m] == (held + came)[m];
      assert (last + wentLater)[m] == (next + cameLater)[m];
    }
  }

  lemma {:induction false} RunKeeps(limit: nat, s: Session, actions: seq<Action>)
    ensures Held(Run(limit, s, actions)) + AllRefused(limit, s, actions) == Held(s) + AllPosted(limit, s, actions)
    decreases |actions|
  {
    if actions != [] {
      var d := Next(limit, s, actions[0]);
      StepKeeps(limit, s, actions[0]);
      RunKeeps(limit, d, actions[1..]);
      Balance(Held(s), Posted(s, actions[0]), Held(d), Refused(limit, s, actions[0]),
              Held(Run(limit, d, actions[1..])), AllRefused(limit, d, actions[1..]), AllPosted(limit, d, actions[1..]));
    }
  }

  /** Over every run, every message that was handed to the strand was written or given up with a failed
      write, waits in the queue or for its turn, or was refused when its turn came, while the session was
      closing or its queue full. */
  lemma EveryMessageIsAccountedFor(limit: nat, actions: seq<Action>)
    ensures var s := Run(limit, Init(), actions);
            var there := multiset(s.out.left) + multiset(s.out.queue) + multiset(s.out.posts);
            AllPosted(limit, Init(), actions) == there + AllRefused(limit, Init(), actions)
  {
    RunKeeps(limit, Init(), actions);
    SendsOfEveryRun(limit, actions);
  }

  // ---------------------------------------------------------------- sends, step by step

  /** sendText() counts its message and posts exactly that one, after those posted before. */
  lemma SentIsPosted(limit: nat, s: Session, t: nat, m: Message)
    requires t !in s.out.calls
    ensures var d := Next(limit, Next(limit, s, Send(t, m)), PostSend(t));
            d == s.(out := s.out.(pending := s.out.pending + 1, posts := s.out.posts + [m]))
  {
    assert s.out.calls[t := m] - {t} == s.out.calls;
  }

  /** A posted message whose turn comes on an open session with room enters the queue at its end, and is
      being written if the queue was empty; a closing session drops it. */
  lemma PostedMessage(limit: nat, s: Session, i: nat)
    requires Inv(limit, s) && i < |s.out.posts| && (s.closing || |s.out.queue| < limit)
    ensures var d := Next(limit, s, RunPostedSend(i));
            && d.out.posts == s.out.posts[..i] + s.out.posts[i + 1..] && d.closes == s.closes && SameClosing(s, d)
            && (if s.closing then d.out.queue == s.out.queue && d.out.pending == s.out.pending - 1 && d.ops == s.ops
                else d.out.queue == s.out.queue + [s.out.posts[i]] && d.out.pending == s.out.pending && WriteOp(d.out.queue[0]) in d.ops)
  {
    SendInv(limit, s, i);
    var d := RunSend(limit, s, i);
    assert !s.closing ==> d.ops[WriteOp(d.out.queue[0])] == 1;
  }

  /** A write that succeeds takes the message off the front and starts the next; one that fails gives the
      whole queue up. */
  lemma WriteGoesOn(limit: nat, s: Session, m: Message, ok: bool)
    requires Inv(limit, s) && WriteOp(m) in s.ops
    ensures var d := Next(limit, s, WriteDone(m, ok));
            if ok then
              s.out.queue == [m] + d.out.queue && d.out.pending == s.out.pending - 1 && d.out.left == s.out.left + [m]
              && (d.out.queue != [] ==> WriteOp(d.out.queue[0]) in d.ops)
            else
              d.out.queue == [] && d.out.pending == s.out.pending - |s.out.queue| && d.out.left == s.out.left + s.out.queue
  {
    WriteInv(limit, s, m, ok);
    var d := Next(limit, s, WriteDone(m, ok));
    assert s.out.queue == [m] + s.out.queue[1..];
    assert d.out.queue != [] ==> d.ops[WriteOp(d.out.queue[0])] == 1;
  }

  // ---------------------------------------------------------------- opening and closing

  /** The handshake's end: failed, nothing happens; open, it reads, and either the handler gets its onOpen or,
      while the server stops, a close with 1001 is posted and nobody is told. */
  lemma AcceptOpens(limit: nat, s: Session, ok: bool, stopping: bool)
    requires Inv(limit, s) && AcceptOp in s.ops
    ensures var d := Next(limit, s, AcceptDone(ok, stopping));
            && d.log == s.log + (if ok && !stopping then [OnOpen] else [])
            && d.isOpen == (s.isOpen || ok) && d.accepted == ok && d.callbacks == (ok && !stopping)
            && d.closes == s.closes + (if ok && stopping then [GOING_AWAY] else [])
            && (ReadOp in d.ops <==> ok) && AcceptOp !in d.ops && d.out == s.out
  {
    assert s.ops[ReadOp] == 0 && s.ops[AcceptOp] == 1;
  }

  /** A posted close() on an open session starts the close handshake with its code; on one that is closing
      or not open it does nothing. */
  lemma PostedCloseBegins(limit: nat, s: Session, i: nat)
    requires i < |s.closes|
    ensures var d := Next(limit, s, RunPostedClose(i));
            && d.closes == s.closes[..i] + s.closes[i + 1..] && d.out == s.out && d.log == s.log
            && (if s.closing || !s.isOpen then d.ops == s.ops && SameClosing(s, d)
                else d.closing && d.closeCode == Some(s.closes[i]) && d.ops == s.ops + multiset{CloseOp(s.closes[i])})
  {
  }

  /** A stream that fails by itself is not open any more; what is pending completes later. */
  lemma StreamEnds(limit: nat, s: Session)
    ensures Next(limit, s, StreamDies) == s.(isOpen := false)
  {
  }

  /** The end of the read is reported with the peer's code, or 1006 after an error or an abort; the end of
      our close with our code; whichever comes second finds the session closed. */
  lemma EndReportsOnce(limit: nat, s: Session, outcome: ReadOutcome, code: Code)
    requires Inv(limit, s) && Listening(s) && ReadOp in s.ops && CloseOp(code) in s.ops && !outcome.Got?
    ensures var read := Next(limit, s, ReadDone(outcome));
            var close := Next(limit, s, CloseDone(code));
            && read.log == s.log + ReadSays(outcome) && read.closed && ReadOp !in read.ops
            && close.log == s.log + [OnClose(code)] && close.closed && CloseOp(code) !in close.ops
            && Next(limit, read, CloseDone(code)).log == read.log
            && Next(limit, close, ReadDone(outcome)).log == close.log
  {
    var read, close := Next(limit, s, ReadDone(outcome)), Next(limit, s, CloseDone(code));
    assert s.ops[ReadOp] == 1 && s.ops[CloseOp(code)] == 1;
    EveryStepSays(limit, s, ReadDone(outcome));
    EveryStepSays(limit, s, CloseDone(code));
    EveryStepSays(limit, read, CloseDone(code));
    EveryStepSays(limit, close, ReadDone(outcome));
  }
}
