/** One reconnecting connection of the WebSocket client (sources/Client/WebSocketClient.cpp).

    The handlers of a connection run on its strand, one at a time: each is one step. Asynchronous
    operations are tokens in `ops`; a token is consumed when the operation completes, with any
    outcome, at any later time. Threads that call send() take their own atomic steps in between. */
module WebSocketClientProtocol {

  type Message = nat
  type Code = nat

  const NO_CODE: Code := 0
  const NORMAL: Code := 1000
  const NO_STATUS: Code := 1005
  const ABNORMAL: Code := 1006

  datatype Phase = Idle | Connecting | Open | Closing | Waiting | Stopped

  datatype Stage = Resolve | Connect | Handshake | Upgrade

  datatype Event = OnOpen | OnMessage | OnClose(code: Code) | OnError | OnReconnecting(attempt: nat)

  datatype Op =
    | StartOp
    | AttemptOp(stage: Stage, gen: nat)
    | ReadOp(gen: nat)
    | WriteOp(gen: nat, message: Message)
    | CloseOp(gen: nat)
    | TimerOp

  /** A thread inside send(). */
  datatype Sender =
    | Checked(message: Message)                 // saw connected, loads pending next
    | Claiming(message: Message, current: int)  // compare-exchange of pending next
    | Reserved(message: Message)                // counted in pending, posts next

  datatype Post = Post(message: Message, gen: nat)

  datatype Config = Config(reconnect: bool, maxAttempts: nat, sendLimit: nat, tls: bool)

  /** What send() and the write loop share. Histories: for the connection that is open now, the
      messages that entered the queue, those whose write completed, and whether a write failed. */
  datatype Outbox = Outbox(
    pending: int, queue: seq<Message>, senders: map<nat, Sender>, posted: seq<Post>,
    accepted: seq<Message>, completed: seq<Message>, writeFailed: bool)

  /** The state of our own close(): which code, and which of its two ends were seen. */
  datatype OwnClose = OwnClose(code: Code, done: bool, ok: bool, readDone: bool)

  /** The fields of WsConnection, its pending operations, and the events delivered so far. */
  datatype Conn = Conn(
    phase: Phase, stopRequested: bool, generation: nat, failures: nat, own: OwnClose,
    connected: bool, released: bool, clientClosed: bool, out: Outbox,
    ops: multiset<Op>, log: seq<Event>)
  {
    predicate Stale(gen: nat) {
      gen != generation || phase == Stopped
    }

    /** An event reaches the user unless stop() released the callbacks. */
    function Emit(e: Event): Conn {
      if released then this else this.(log := log + [e])
    }

    function Begin(op: Op): Conn {
      this.(ops := ops + multiset{op})
    }

    function Finish(op: Op): Conn {
      this.(ops := ops - multiset{op})
    }
  }

  function Init(): Conn {
    Conn(Idle, false, 0, 0, OwnClose(NORMAL, false, false, false), false, false, false,
         Outbox(0, [], map[], [], [], [], false), multiset{StartOp}, [])
  }

  // ---------------------------------------------------------------- the handlers

  /** Handlers leave the threads inside send() alone. */
  predicate SameSenders(c: Conn, d: Conn) {
    d.out.senders == c.out.senders
  }

  function Stop(c: Conn): Conn {
    c.(phase := Stopped, connected := false, released := true)
  }

  function Attempt(c: Conn): (r: Conn)
    ensures SameSenders(c, r)
  {
    if c.stopRequested || c.clientClosed then Stop(c)
    else c.(phase := Connecting, generation := c.generation + 1).Begin(AttemptOp(Resolve, c.generation + 1))
  }

  function Wait(c: Conn): Conn {
    c.(failures := c.failures + 1, phase := Waiting).Emit(OnReconnecting(c.failures + 1)).Begin(TimerOp)
  }

  function ScheduleRetry(cfg: Config, c: Conn): (r: Conn)
    ensures SameSenders(c, r)
  {
    if !cfg.reconnect || c.stopRequested || c.clientClosed then Stop(c)
    else
      var n := c.failures + 1;
      if cfg.maxAttempts > 0 && n > cfg.maxAttempts then Stop(c.(failures := n).Emit(OnError))
      else Wait(c)
  }

  function AttemptFailed(cfg: Config, c: Conn): (r: Conn)
    ensures SameSenders(c, r)
  {
    if c.stopRequested then Stop(c) else ScheduleRetry(cfg, c.Emit(OnError))
  }

  function CloseOpen(c: Conn, code: Code): Conn {
    c.(phase := Closing, own := c.own.(code := code)).Begin(CloseOp(c.generation))
  }

  datatype AttemptOutcome = Succeeds | Fails | Declined

  /** The handshake is through: open, reported, reading. */
  function Opened(c: Conn): Conn {
    c.(failures := 0, phase := Open, connected := true, out := c.out.(accepted := [], completed := [], writeFailed := false))
    .Emit(OnOpen).Begin(ReadOp(c.generation))
  }

  function OnUpgrade(cfg: Config, c: Conn, outcome: AttemptOutcome): (r: Conn)
    ensures SameSenders(c, r)
  {
    match outcome
    case Declined => Stop(if c.stopRequested then c else c.Emit(OnError))
    case Fails => AttemptFailed(cfg, c)
    case Succeeds => if c.stopRequested then CloseOpen(Opened(c), NORMAL) else Opened(c)
  }

  /** The completion of one stage of an attempt; the last one is the WebSocket upgrade. */
  function OnStage(cfg: Config, c: Conn, stage: Stage, gen: nat, outcome: AttemptOutcome): (r: Conn)
    ensures SameSenders(c, r)
  {
    if c.Stale(gen) then c
    else if stage == Upgrade then OnUpgrade(cfg, c, outcome)
    else if outcome != Succeeds then AttemptFailed(cfg, c)
    else
      var next := match stage case Resolve => Connect case Connect => (if cfg.tls then Handshake else Upgrade) case _ => Upgrade;
      c.Begin(AttemptOp(next, gen))
  }

  function DropQueue(o: Outbox): Outbox {
    o.(pending := o.pending - |o.queue|, queue := [])
  }

  function PopFront(o: Outbox): Outbox
    requires o.queue != []
  {
    o.(pending := o.pending - 1, queue := o.queue[1..], completed := o.completed + [o.queue[0]])
  }

  function PushBack(o: Outbox, m: Message): Outbox {
    o.(queue := o.queue + [m], accepted := o.accepted + [m])
  }

  function Closed(cfg: Config, c: Conn, code: Code): (r: Conn)
    ensures SameSenders(c, r)
  {
    var d := c.(connected := false, out := DropQueue(c.out)).Emit(OnClose(code));
    if d.stopRequested || d.clientClosed then Stop(d) else ScheduleRetry(cfg, d)
  }

  function FinishOwnClose(cfg: Config, c: Conn, echoed: Code): (r: Conn)
    ensures SameSenders(c, r)
  {
    Closed(cfg, c, if !c.own.ok then ABNORMAL else if echoed == NO_CODE then c.own.code else echoed)
  }

  /** How a read ends; `code` is the stream's close reason at that moment. */
  datatype ReadOutcome = GotMessage | PeerClosed(code: Code) | Aborted(code: Code) | Broken

  function Ended(cfg: Config, c: Conn, outcome: ReadOutcome): (r: Conn)
    ensures SameSenders(c, r)
  {
    if c.phase == Closing && outcome.Aborted? then
      var d := c.(own := c.own.(readDone := true));
      if d.own.done then FinishOwnClose(cfg, d, outcome.code) else d
    else
      match outcome
      case PeerClosed(code) => Closed(cfg, c, if code == NO_CODE then NO_STATUS else code)
      case Broken => Closed(cfg, if c.stopRequested then c else c.Emit(OnError), ABNORMAL)
      case _ => Closed(cfg, c, ABNORMAL)
  }

  function OnRead(cfg: Config, c: Conn, gen: nat, outcome: ReadOutcome): (r: Conn)
    ensures SameSenders(c, r)
  {
    if c.Stale(gen) then c
    else if outcome.GotMessage? then c.Emit(OnMessage).Begin(ReadOp(gen))
    else Ended(cfg, c, outcome)
  }

  function OnCloseDone(cfg: Config, c: Conn, gen: nat, ok: bool, echoed: Code): (r: Conn)
    ensures SameSenders(c, r)
  {
    if c.Stale(gen) then c
    else
      var d := c.(own := c.own.(done := true, ok := ok));
      if d.own.readDone then FinishOwnClose(cfg, d, echoed) else d
  }

  function OnWrite(c: Conn, gen: nat, ok: bool): (r: Conn)
    ensures SameSenders(c, r)
  {
    if c.Stale(gen) || c.out.queue == [] then c
    else if !ok then c.(out := c.out.(writeFailed := true))
    else
      var d := c.(out := PopFront(c.out));
      if d.out.queue != [] then d.Begin(WriteOp(gen, d.out.queue[0])) else d
  }

  function OnTimer(c: Conn, ok: bool): (r: Conn)
    ensures SameSenders(c, r)
  {
    if !ok || c.phase != Waiting then c else Attempt(c)
  }

  function DoClose(c: Conn, code: Code): (r: Conn)
    ensures SameSenders(c, r)
  {
    if c.stopRequested || c.phase == Stopped then c
    else
      var d := c.(stopRequested := true);
      match c.phase
      case Open => CloseOpen(d, code)
      case Connecting => d
      case _ => Stop(d)
  }

  /** The message posted i-th by send(), on the strand. */
  function OnPost(c: Conn, i: nat): (r: Conn)
    requires i < |c.out.posted|
    ensures SameSenders(c, r)
  {
    var p := c.out.posted[i];
    var o := c.out.(posted := c.out.posted[..i] + c.out.posted[i + 1..]);
    if c.phase != Open || p.gen != c.generation then c.(out := o.(pending := o.pending - 1))
    else
      var d := c.(out := PushBack(o, p.message));
      if |d.out.queue| == 1 then d.Begin(WriteOp(d.generation, p.message)) else d
  }

  // ---------------------------------------------------------------- send(), any thread

  function Leave(o: Outbox, t: nat): Outbox {
    o.(senders := o.senders - {t})
  }

  function Load(limit: nat, o: Outbox, t: nat, m: Message): Outbox {
    if o.pending >= limit then Leave(o, t) else o.(senders := o.senders[t := Claiming(m, o.pending)])
  }

  function SenderStep(limit: nat, o: Outbox, t: nat, spurious: bool, generation: nat): Outbox
    requires t in o.senders
  {
    match o.senders[t]
    case Checked(m) => Load(limit, o, t, m)
    case Claiming(m, current) =>
      if current == o.pending && !spurious then o.(pending := o.pending + 1, senders := o.senders[t := Reserved(m)])
      else Load(limit, o, t, m)  // compare_exchange_weak reloaded `current`
    case Reserved(m) => Leave(o.(posted := o.posted + [Post(m, generation)]), t)
  }

  // ---------------------------------------------------------------- runs

  datatype Action =
    | Start(urlOk: bool)
    | StageDone(stage: Stage, gen: nat, attempt: AttemptOutcome)
    | ReadDone(gen: nat, read: ReadOutcome)
    | WriteDone(gen: nat, message: Message, ok: bool)
    | CloseDone(gen: nat, ok: bool, echoed: Code)
    | TimerFires(ok: bool)
    | CloseCall(code: Code)       // a posted close() runs
    | ClientCloses                // the WebSocketClient is being destroyed
    | Send(thread: nat, message: Message)
    | SendStep(thread: nat, spurious: bool)
    | RunPost(index: nat)

  /** The token an action consumes. */
  function Token(a: Action): seq<Op> {
    match a
    case Start(_) => [StartOp]
    case StageDone(stage, gen, _) => [AttemptOp(stage, gen)]
    case ReadDone(gen, _) => [ReadOp(gen)]
    case WriteDone(gen, m, _) => [WriteOp(gen, m)]
    case CloseDone(gen, _, _) => [CloseOp(gen)]
    case TimerFires(_) => [TimerOp]
    case _ => []
  }

  predicate Possible(c: Conn, a: Action) {
    && (forall op | op in Token(a) :: op in c.ops)
    && (a.TimerFires? && !a.ok ==> c.stopRequested)  // only doClose() cancels the timer
    && (a.Send? ==> a.thread !in c.out.senders && c.connected)
    && (a.SendStep? ==> a.thread in c.out.senders)
    && (a.RunPost? ==> a.index < |c.out.posted|)
  }

  function Next(cfg: Config, c: Conn, a: Action): Conn {
    if !Possible(c, a) then c else
    match a
    case Start(urlOk) =>
      var d := c.Finish(StartOp);
      if urlOk then Attempt(d) else Stop(d.Emit(OnError))
    case StageDone(stage, gen, outcome) => OnStage(cfg, c.Finish(AttemptOp(stage, gen)), stage, gen, outcome)
    case ReadDone(gen, outcome) => OnRead(cfg, c.Finish(ReadOp(gen)), gen, outcome)
    case WriteDone(gen, m, ok) => OnWrite(c.Finish(WriteOp(gen, m)), gen, ok)
    case CloseDone(gen, ok, echoed) => OnCloseDone(cfg, c.Finish(CloseOp(gen)), gen, ok, echoed)
    case TimerFires(ok) => OnTimer(c.Finish(TimerOp), ok)
    case CloseCall(code) => DoClose(c, code)
    case ClientCloses => c.(clientClosed := true)
    case Send(t, m) => c.(out := c.out.(senders := c.out.senders[t := Checked(m)]))
    case SendStep(t, spurious) => c.(out := SenderStep(cfg.sendLimit, c.out, t, spurious, c.generation))
    case RunPost(i) => OnPost(c, i)
  }

  function Run(cfg: Config, c: Conn, actions: seq<Action>): Conn
    decreases |actions|
  {
    if actions == [] then c else Run(cfg, Next(cfg, c, actions[0]), actions[1..])
  }

  // ---------------------------------------------------------------- the events of a run

  datatype Shown = Down | Up | Wrong

  /** What the user has been shown: up between onOpen and onClose, messages only while up and
      reconnects only while down. Wrong if the events do not alternate. */
  function Track(log: seq<Event>): Shown {
    if log == [] then Down else
    var before := Track(log[..|log| - 1]);
    match log[|log| - 1]
    case OnOpen => if before == Down then Up else Wrong
    case OnClose(_) => if before == Up then Down else Wrong
    case OnMessage => if before == Up then Up else Wrong
    case OnReconnecting(_) => if before == Down then Down else Wrong
    case OnError => before
  }

  /** How many retries were announced since the last onOpen. */
  function Retries(log: seq<Event>): nat {
    if log == [] then 0 else
    match log[|log| - 1]
    case OnOpen => 0
    case OnReconnecting(_) => Retries(log[..|log| - 1]) + 1
    case _ => Retries(log[..|log| - 1])
  }

  /** Every retry is announced with its number since the last onOpen, within the limit. */
  ghost predicate Numbered(cfg: Config, log: seq<Event>) {
    forall i | 0 <= i < |log| && log[i].OnReconnecting? ::
      && log[i].attempt == Retries(log[..i]) + 1
      && (cfg.maxAttempts > 0 ==> log[i].attempt <= cfg.maxAttempts)
  }

  // ---------------------------------------------------------------- the invariant

  ghost predicate Lifecycle(c: Conn) {
    && (c.connected <==> c.phase == Open || c.phase == Closing)
    && (c.released <==> c.phase == Stopped)
    && (c.stopRequested ==> c.phase == Connecting || c.phase == Closing || c.phase == Stopped)
    && (c.phase == Closing ==> c.stopRequested && !(c.own.done && c.own.readDone))
    && (c.phase != Closing && c.phase != Stopped ==> !c.own.done && !c.own.readDone)
  }

  predicate Attempting(c: Conn, s: Stage) {
    AttemptOp(s, c.generation) in c.ops
  }

  /** Until it is stopped, the connection always waits for exactly the operation that moves it on. */
  ghost predicate Driven(c: Conn) {
    && (StartOp in c.ops <==> c.phase == Idle)
    && (TimerOp in c.ops <==> c.phase == Waiting)
    && (c.phase == Connecting <==>
          Attempting(c, Resolve) || Attempting(c, Connect) || Attempting(c, Handshake) || Attempting(c, Upgrade))
    && (forall s, r | Attempting(c, s) && Attempting(c, r) :: s == r)
    && (forall s, g | AttemptOp(s, g) in c.ops :: g == c.generation)
    && (forall g: nat :: ReadOp(g) in c.ops <==> g == c.generation && c.connected && !c.own.readDone)
    && (forall g: nat :: CloseOp(g) in c.ops <==> g == c.generation && c.phase == Closing && !c.own.done)
  }

  ghost predicate OpsSane(c: Conn) {
    && (forall op :: c.ops[op] <= 1)
    && (forall g: nat, m: Message | WriteOp(g, m) in c.ops :: g <= c.generation)
    && (forall g: nat, m: Message, n: Message | WriteOp(g, m) in c.ops && WriteOp(g, n) in c.ops :: m == n)
    && (StartOp in c.ops ==> c.phase == Idle || c.stopRequested)
  }

  ghost predicate Tokens(c: Conn) {
    OpsSane(c) && (c.phase != Stopped ==> Driven(c))
  }

  /** The write of the open connection carries the front of the queue, one is in flight while there is
      something to write unless one failed, and what entered the queue is what was written, in order,
      followed by what still waits. */
  ghost predicate Writes(c: Conn) {
    && (forall m | WriteOp(c.generation, m) in c.ops ::
          && c.phase != Idle && c.phase != Connecting
          && (c.connected ==> c.out.queue != [] && c.out.queue[0] == m))
    && (c.connected && c.out.queue != [] && !c.out.writeFailed ==> WriteOp(c.generation, c.out.queue[0]) in c.ops)
    && (!c.connected ==> c.out.queue == [])
    && (c.connected ==> c.out.accepted == c.out.completed + c.out.queue)
  }

  function Reservations(senders: map<nat, Sender>): set<nat> {
    set t | t in senders && senders[t].Reserved?
  }

  ghost predicate Counting(limit: nat, o: Outbox) {
    && o.pending == |o.queue| + |o.posted| + |Reservations(o.senders)| <= limit
    && (forall t | t in o.senders && o.senders[t].Claiming? :: o.senders[t].current < limit)
  }

  ghost predicate Told(cfg: Config, c: Conn) {
    && Track(c.log) == (if c.connected then Up else Down)
    && Numbered(cfg, c.log)
    && (c.phase != Stopped ==> Retries(c.log) == c.failures)
  }

  ghost predicate Steady(cfg: Config, c: Conn) {
    Lifecycle(c) && Tokens(c) && Writes(c) && Counting(cfg.sendLimit, c.out)
  }

  ghost predicate Inv(cfg: Config, c: Conn) {
    Steady(cfg, c) && Told(cfg, c)
  }

  lemma InitInv(cfg: Config)
    ensures Inv(cfg, Init())
  {
    assert Reservations(map[]) == {};
  }

  lemma EmitTold(cfg: Config, log: seq<Event>, e: Event)
    requires Numbered(cfg, log)
    requires e.OnReconnecting? ==> e.attempt == Retries(log) + 1 && (cfg.maxAttempts > 0 ==> e.attempt <= cfg.maxAttempts)
    ensures Numbered(cfg, log + [e])
    ensures Retries(log + [e]) == if e.OnOpen? then 0 else if e.OnReconnecting? then Retries(log) + 1 else Retries(log)
    ensures Track(log + [e]) == match e
              case OnOpen => (if Track(log) == Down then Up else Wrong)
              case OnClose(_) => (if Track(log) == Up then Down else Wrong)
              case OnMessage => (if Track(log) == Up then Up else Wrong)
              case OnReconnecting(_) => (if Track(log) == Down then Down else Wrong)
              case OnError => Track(log)
  {
    var l := log + [e];
    assert l[..|l| - 1] == log;
    forall i | 0 <= i < |l| && l[i].OnReconnecting?
      ensures l[i].attempt == Retries(l[..i]) + 1 && (cfg.maxAttempts > 0 ==> l[i].attempt <= cfg.maxAttempts)
    {
      assert i < |log| ==> l[..i] == log[..i];
    }
  }

  // ---------------------------------------------------------------- every step keeps it

  ghost predicate Halted(cfg: Config, c: Conn) {
    && !c.connected && c.out.queue == []
    && OpsSane(c) && (StartOp in c.ops ==> c.stopRequested)
    && Counting(cfg.sendLimit, c.out)
    && Track(c.log) == Down && Numbered(cfg, c.log)
  }

  /** Nothing is open and no operation of the current attempt is pending: an attempt or a retry may
      follow, or the end. */
  ghost predicate Between(cfg: Config, c: Conn) {
    && Halted(cfg, c)
    && !c.released && !c.own.done && !c.own.readDone && Retries(c.log) == c.failures
    && StartOp !in c.ops && TimerOp !in c.ops
    && (forall s, g: nat :: AttemptOp(s, g) !in c.ops)
    && (forall g: nat :: ReadOp(g) !in c.ops)
    && (forall g: nat :: CloseOp(g) !in c.ops)
  }

  lemma StopInv(cfg: Config, c: Conn)
    requires Halted(cfg, c)
    ensures Inv(cfg, Stop(c))
    ensures Inv(cfg, Stop(c.Emit(OnError)))
  {
    EmitTold(cfg, c.log, OnError);
  }

  lemma AttemptInv(cfg: Config, c: Conn)
    requires Between(cfg, c)
    ensures Inv(cfg, Attempt(c))
  {
    if c.stopRequested || c.clientClosed {
      StopInv(cfg, c);
    } else {
      AttemptTokens(cfg, c);
    }
  }

  lemma AttemptTokens(cfg: Config, c: Conn)
    requires Between(cfg, c) && !c.stopRequested && !c.clientClosed
    ensures var d := Attempt(c); Tokens(d) && forall m :: WriteOp(d.generation, m) !in d.ops
  {
    var d := Attempt(c);
    assert forall op | op != AttemptOp(Resolve, d.generation) :: d.ops[op] == c.ops[op];
    assert forall s :: Attempting(d, s) <==> s == Resolve;
  }

  lemma WaitSteady(cfg: Config, c: Conn)
    requires Between(cfg, c) && !c.stopRequested
    ensures Steady(cfg, Wait(c))
  {
    var d := Wait(c);
    assert forall op | op != TimerOp :: d.ops[op] == c.ops[op];
    assert forall s :: !Attempting(d, s);
  }

  lemma WaitInv(cfg: Config, c: Conn)
    requires Between(cfg, c) && !c.stopRequested
    requires cfg.maxAttempts > 0 ==> c.failures + 1 <= cfg.maxAttempts
    ensures Inv(cfg, Wait(c))
  {
    WaitSteady(cfg, c);
    WaitTold(cfg, c);
  }

  lemma WaitTold(cfg: Config, c: Conn)
    requires Track(c.log) == Down && Numbered(cfg, c.log) && Retries(c.log) == c.failures && !c.connected && !c.released
    requires cfg.maxAttempts > 0 ==> c.failures + 1 <= cfg.maxAttempts
    ensures Told(cfg, Wait(c))
  {
    var e, d := OnReconnecting(c.failures + 1), Wait(c);
    EmitTold(cfg, c.log, e);
    assert d.log == c.log + [e];
    assert Track(d.log) == Down;
    assert Retries(d.log) == d.failures;
  }

  lemma ScheduleRetryInv(cfg: Config, c: Conn)
    requires Between(cfg, c)
    ensures Inv(cfg, ScheduleRetry(cfg, c))
  {
    if !cfg.reconnect || c.stopRequested || c.clientClosed {
      StopInv(cfg, c);
    } else if cfg.maxAttempts > 0 && c.failures + 1 > cfg.maxAttempts {
      StopInv(cfg, c.(failures := c.failures + 1));
    } else {
      WaitInv(cfg, c);
    }
  }

  lemma AttemptFailedInv(cfg: Config, c: Conn)
    requires Between(cfg, c)
    ensures Inv(cfg, AttemptFailed(cfg, c))
  {
    EmitTold(cfg, c.log, OnError);
    StopInv(cfg, c);
    ScheduleRetryInv(cfg, c.Emit(OnError));
  }

  /** The token of the stage that completes is the attempt's only one. */
  lemma StageEnds(cfg: Config, c: Conn, stage: Stage, gen: nat)
    requires Inv(cfg, c) && AttemptOp(stage, gen) in c.ops && !c.Stale(gen)
    ensures Between(cfg, c.Finish(AttemptOp(stage, gen))) && c.phase == Connecting
  {
    var d := c.Finish(AttemptOp(stage, gen));
    assert Attempting(c, stage);
    assert forall op | op != AttemptOp(stage, gen) :: d.ops[op] == c.ops[op];
    forall s, g: nat ensures AttemptOp(s, g) !in d.ops {
      if AttemptOp(s, g) in c.ops { assert Attempting(c, s); }
    }
  }

  lemma StageInv(cfg: Config, c: Conn, stage: Stage, gen: nat)
    requires Between(cfg, c) && c.phase == Connecting && gen == c.generation
    requires forall m :: WriteOp(gen, m) !in c.ops
    ensures Inv(cfg, c.Begin(AttemptOp(stage, gen)))
  {
    var d := c.Begin(AttemptOp(stage, gen));
    assert forall op | op != AttemptOp(stage, gen) :: d.ops[op] == c.ops[op];
    assert Attempting(d, stage);
    assert forall s :: AttemptOp(s, gen) !in c.ops;
  }

  lemma OpenSteady(cfg: Config, c: Conn)
    requires Between(cfg, c) && c.phase == Connecting
    requires forall m :: WriteOp(c.generation, m) !in c.ops
    ensures Steady(cfg, OnUpgrade(cfg, c, Succeeds))
  {
    var d := OnUpgrade(cfg, c, Succeeds);
    OpenTokens(cfg, c);
    assert forall m :: WriteOp(c.generation, m) !in d.ops;
  }

  lemma OpenedTokens(cfg: Config, c: Conn)
    requires Between(cfg, c) && c.phase == Connecting
    ensures var o := Opened(c).(stopRequested := false);
            && Tokens(o) && Lifecycle(o)
            && forall m | WriteOp(c.generation, m) in o.ops :: WriteOp(c.generation, m) in c.ops
  {
    var o := Opened(c).(stopRequested := false);
    assert forall op | op != ReadOp(c.generation) :: o.ops[op] == c.ops[op];
    assert forall s :: !Attempting(o, s);
  }

  lemma OpenTokens(cfg: Config, c: Conn)
    requires Between(cfg, c) && c.phase == Connecting
    ensures var d := OnUpgrade(cfg, c, Succeeds);
            && Tokens(d)
            && forall m | WriteOp(c.generation, m) in d.ops :: WriteOp(c.generation, m) in c.ops
  {
    var o := Opened(c).(stopRequested := false);
    OpenedTokens(cfg, c);
    CloseOpenTokens(o, NORMAL);
    assert OnUpgrade(cfg, c, Succeeds) == if c.stopRequested then CloseOpen(o.(stopRequested := true), NORMAL) else o;
  }

  lemma OpenInv(cfg: Config, c: Conn)
    requires Between(cfg, c) && c.phase == Connecting
    requires forall m :: WriteOp(c.generation, m) !in c.ops
    ensures Inv(cfg, OnUpgrade(cfg, c, Succeeds))
  {
    OpenSteady(cfg, c);
    EmitTold(cfg, c.log, OnOpen);
  }

  lemma OnStageInv(cfg: Config, c: Conn, stage: Stage, gen: nat, outcome: AttemptOutcome)
    requires Inv(cfg, c) && AttemptOp(stage, gen) in c.ops && !c.Stale(gen)
    ensures Inv(cfg, OnStage(cfg, c.Finish(AttemptOp(stage, gen)), stage, gen, outcome))
  {
    var d := c.Finish(AttemptOp(stage, gen));
    StageEnds(cfg, c, stage, gen);
    forall m ensures WriteOp(gen, m) !in d.ops {}
    StageOutcomeInv(cfg, d, stage, gen, outcome);
  }

  lemma StageOutcomeInv(cfg: Config, d: Conn, stage: Stage, gen: nat, outcome: AttemptOutcome)
    requires Between(cfg, d) && d.phase == Connecting && gen == d.generation
    requires forall m :: WriteOp(gen, m) !in d.ops
    ensures Inv(cfg, OnStage(cfg, d, stage, gen, outcome))
  {
    if outcome != Succeeds {
      StopInv(cfg, d);
      AttemptFailedInv(cfg, d);
    } else if stage == Upgrade {
      OpenInv(cfg, d);
    } else {
      StageInv(cfg, d, match stage case Resolve => Connect case Connect => (if cfg.tls then Handshake else Upgrade) case _ => Upgrade, gen);
    }
  }

  /** A completion nobody waits for any more only takes its token away. */
  lemma StaleInv(cfg: Config, c: Conn, op: Op)
    requires Inv(cfg, c) && op in c.ops
    requires c.phase == Stopped || (op.WriteOp? && (op.gen != c.generation || !c.connected))
    ensures Inv(cfg, c.Finish(op))
  {
    var d := c.Finish(op);
    assert forall o | o != op :: d.ops[o] == c.ops[o];
    assert forall o :: d.ops[o] <= c.ops[o];
    if c.phase != Stopped {
      assert forall s :: Attempting(d, s) == Attempting(c, s);
    }
  }

  /** An open connection whose read has ended: it is about to be reported closed. */
  ghost predicate Ending(cfg: Config, c: Conn) {
    && c.connected && !c.released && OpsSane(c) && Counting(cfg.sendLimit, c.out)
    && Track(c.log) == Up && Numbered(cfg, c.log) && Retries(c.log) == c.failures
    && StartOp !in c.ops && TimerOp !in c.ops
    && (forall s, g: nat :: AttemptOp(s, g) !in c.ops)
    && (forall g: nat :: ReadOp(g) !in c.ops)
    && (c.stopRequested || (!c.own.done && !c.own.readDone && forall g: nat :: CloseOp(g) !in c.ops))
  }

  lemma ClosedBetween(cfg: Config, c: Conn, code: Code)
    requires Ending(cfg, c)
    ensures var d := c.(connected := false, out := DropQueue(c.out)).Emit(OnClose(code));
            Halted(cfg, d) && (!d.stopRequested ==> Between(cfg, d))
  {
    EmitTold(cfg, c.log, OnClose(code));
  }

  lemma ClosedInv(cfg: Config, c: Conn, code: Code)
    requires Ending(cfg, c)
    ensures Inv(cfg, Closed(cfg, c, code))
  {
    ClosedBetween(cfg, c, code);
    var d := c.(connected := false, out := DropQueue(c.out)).Emit(OnClose(code));
    if d.stopRequested || d.clientClosed {
      StopInv(cfg, d);
    } else {
      ScheduleRetryInv(cfg, d);
    }
  }

  lemma ReadEnds(cfg: Config, c: Conn, gen: nat)
    requires Inv(cfg, c) && ReadOp(gen) in c.ops && !c.Stale(gen)
    ensures Ending(cfg, c.Finish(ReadOp(gen))) && !c.own.readDone
  {
    var d := c.Finish(ReadOp(gen));
    assert forall op | op != ReadOp(gen) :: d.ops[op] == c.ops[op];
    forall s, g: nat ensures AttemptOp(s, g) !in d.ops {
      assert AttemptOp(s, g) in c.ops ==> Attempting(c, s);
    }
  }

  lemma HalfClosedInv(cfg: Config, c: Conn, gen: nat)
    requires Inv(cfg, c) && ReadOp(gen) in c.ops && !c.Stale(gen) && c.phase == Closing && !c.own.done
    ensures Inv(cfg, c.Finish(ReadOp(gen)).(own := c.own.(readDone := true)))
  {
    var d := c.Finish(ReadOp(gen)).(own := c.own.(readDone := true));
    assert forall op | op != ReadOp(gen) :: d.ops[op] == c.ops[op];
    assert forall s :: Attempting(d, s) == Attempting(c, s);
  }

  lemma MessageInv(cfg: Config, c: Conn, gen: nat)
    requires Inv(cfg, c) && ReadOp(gen) in c.ops && !c.Stale(gen)
    ensures Inv(cfg, c.Finish(ReadOp(gen)).Emit(OnMessage).Begin(ReadOp(gen)))
  {
    EmitTold(cfg, c.log, OnMessage);
    assert c.Finish(ReadOp(gen)).Emit(OnMessage).Begin(ReadOp(gen)) == c.(log := c.log + [OnMessage]);
  }

  lemma OnReadInv(cfg: Config, c: Conn, gen: nat, outcome: ReadOutcome)
    requires Inv(cfg, c) && ReadOp(gen) in c.ops && !c.Stale(gen)
    ensures Inv(cfg, OnRead(cfg, c.Finish(ReadOp(gen)), gen, outcome))
  {
    var d := c.Finish(ReadOp(gen));
    if outcome.GotMessage? {
      MessageInv(cfg, c, gen);
    } else {
      ReadEnds(cfg, c, gen);
      EmitTold(cfg, c.log, OnError);
      if c.phase == Closing && outcome.Aborted? {
        if c.own.done {
          var e := d.(own := d.own.(readDone := true));
          ClosedInv(cfg, e, if !e.own.ok then ABNORMAL else if outcome.code == NO_CODE then e.own.code else outcome.code);
        } else {
          HalfClosedInv(cfg, c, gen);
        }
      } else {
        match outcome
        case PeerClosed(code) => ClosedInv(cfg, d, if code == NO_CODE then NO_STATUS else code);
        case Broken => ClosedInv(cfg, if c.stopRequested then d else d.Emit(OnError), ABNORMAL);
        case _ => ClosedInv(cfg, d, ABNORMAL);
      }
    }
  }

  lemma CloseEnds(cfg: Config, c: Conn, gen: nat, ok: bool)
    requires Inv(cfg, c) && CloseOp(gen) in c.ops && !c.Stale(gen) && c.own.readDone
    ensures Ending(cfg, c.Finish(CloseOp(gen)).(own := c.own.(done := true, ok := ok)))
  {
    var d := c.Finish(CloseOp(gen)).(own := c.own.(done := true, ok := ok));
    assert forall op | op != CloseOp(gen) :: d.ops[op] == c.ops[op];
    forall s, g: nat ensures AttemptOp(s, g) !in d.ops {
      assert AttemptOp(s, g) in c.ops ==> Attempting(c, s);
    }
  }

  lemma CloseHalfDone(cfg: Config, c: Conn, gen: nat, ok: bool)
    requires Inv(cfg, c) && CloseOp(gen) in c.ops && !c.Stale(gen) && !c.own.readDone
    ensures Inv(cfg, c.Finish(CloseOp(gen)).(own := c.own.(done := true, ok := ok)))
  {
    var d := c.Finish(CloseOp(gen)).(own := c.own.(done := true, ok := ok));
    assert forall op | op != CloseOp(gen) :: d.ops[op] == c.ops[op];
    assert forall s :: Attempting(d, s) == Attempting(c, s);
  }

  lemma OnCloseDoneInv(cfg: Config, c: Conn, gen: nat, ok: bool, echoed: Code)
    requires Inv(cfg, c) && CloseOp(gen) in c.ops && !c.Stale(gen)
    ensures Inv(cfg, OnCloseDone(cfg, c.Finish(CloseOp(gen)), gen, ok, echoed))
  {
    if c.own.readDone {
      var d := c.Finish(CloseOp(gen)).(own := c.own.(done := true, ok := ok));
      CloseEnds(cfg, c, gen, ok);
      ClosedInv(cfg, d, if !d.own.ok then ABNORMAL else if echoed == NO_CODE then d.own.code else echoed);
    } else {
      CloseHalfDone(cfg, c, gen, ok);
    }
  }

  /** Changes that only touch write operations keep the rest of the tokens in place. */
  lemma WritesAside(c: Conn, d: Conn)
    requires Lifecycle(c) && Tokens(c) && OpsSane(d)
    requires forall op: Op | !op.WriteOp? :: d.ops[op] == c.ops[op]
    requires d.phase == c.phase && d.generation == c.generation && d.stopRequested == c.stopRequested
    requires d.connected == c.connected && d.released == c.released
    requires d.own.done == c.own.done && d.own.readDone == c.own.readDone
    ensures Lifecycle(d) && Tokens(d)
  {
    assert forall s :: Attempting(d, s) == Attempting(c, s);
  }

  lemma FinishWriteOps(c: Conn, m: Message)
    requires OpsSane(c) && WriteOp(c.generation, m) in c.ops
    ensures OpsSane(c.Finish(WriteOp(c.generation, m)))
    ensures forall n :: WriteOp(c.generation, n) !in c.Finish(WriteOp(c.generation, m)).ops
  {
    var d := c.Finish(WriteOp(c.generation, m));
    assert forall op | op != WriteOp(c.generation, m) :: d.ops[op] == c.ops[op];
  }

  lemma BeginWriteOps(c: Conn, m: Message)
    requires OpsSane(c) && forall n :: WriteOp(c.generation, n) !in c.ops
    ensures OpsSane(c.Begin(WriteOp(c.generation, m)))
    ensures forall n | WriteOp(c.generation, n) in c.Begin(WriteOp(c.generation, m)).ops :: n == m
  {
    var d := c.Begin(WriteOp(c.generation, m));
    assert forall op | op != WriteOp(c.generation, m) :: d.ops[op] == c.ops[op];
  }

  lemma PopFrontHistory(o: Outbox)
    requires o.queue != [] && o.accepted == o.completed + o.queue
    ensures PopFront(o).accepted == PopFront(o).completed + PopFront(o).queue
  {
    assert o.queue == [o.queue[0]] + o.queue[1..];
  }

  lemma OnWriteOps(c: Conn, m: Message, ok: bool)
    requires OpsSane(c) && Writes(c) && WriteOp(c.generation, m) in c.ops && c.phase != Stopped
    ensures var e := OnWrite(c.Finish(WriteOp(c.generation, m)), c.generation, ok); OpsSane(e) && Writes(e)
  {
    FinishWriteOps(c, m);
    var d := c.Finish(WriteOp(c.generation, m));
    if d.out.queue == [] {
      assert Writes(d);
    } else if !ok {
      assert Writes(d.(out := d.out.(writeFailed := true)));
    } else {
      PopFrontHistory(d.out);
      var e := d.(out := PopFront(d.out));
      if e.out.queue == [] {
        assert Writes(e);
      } else {
        BeginWriteOps(e, e.out.queue[0]);
        assert Writes(e.Begin(WriteOp(c.generation, e.out.queue[0])));
      }
    }
  }

  lemma OnWriteInv(cfg: Config, c: Conn, gen: nat, m: Message, ok: bool)
    requires Inv(cfg, c) && WriteOp(gen, m) in c.ops && !c.Stale(gen)
    ensures Inv(cfg, OnWrite(c.Finish(WriteOp(gen, m)), gen, ok))
  {
    OnWriteOps(c, m, ok);
    WritesAside(c, OnWrite(c.Finish(WriteOp(gen, m)), gen, ok));
  }

  lemma TimerInv(cfg: Config, c: Conn, ok: bool)
    requires Inv(cfg, c) && TimerOp in c.ops && (!ok ==> c.stopRequested)
    ensures Inv(cfg, OnTimer(c.Finish(TimerOp), ok))
  {
    if c.phase == Stopped {
      StaleInv(cfg, c, TimerOp);
    } else {
      TimerEnds(cfg, c);
      AttemptInv(cfg, c.Finish(TimerOp));
    }
  }

  lemma TimerEnds(cfg: Config, c: Conn)
    requires Inv(cfg, c) && TimerOp in c.ops && c.phase != Stopped
    ensures c.phase == Waiting && !c.stopRequested && Between(cfg, c.Finish(TimerOp))
  {
    var d := c.Finish(TimerOp);
    assert forall op | op != TimerOp :: d.ops[op] == c.ops[op];
    forall s, g: nat ensures AttemptOp(s, g) !in d.ops {
      assert AttemptOp(s, g) in c.ops ==> Attempting(c, s);
    }
  }

  lemma StartsBetween(cfg: Config, c: Conn)
    requires Inv(cfg, c) && StartOp in c.ops && c.phase == Idle
    ensures Between(cfg, c.Finish(StartOp))
  {
    var d := c.Finish(StartOp);
    assert forall op | op != StartOp :: d.ops[op] == c.ops[op];
    forall s, g: nat ensures AttemptOp(s, g) !in d.ops {
      assert AttemptOp(s, g) in c.ops ==> Attempting(c, s);
    }
  }

  lemma StartInv(cfg: Config, c: Conn, urlOk: bool)
    requires Inv(cfg, c) && StartOp in c.ops
    ensures Inv(cfg, if urlOk then Attempt(c.Finish(StartOp)) else Stop(c.Finish(StartOp).Emit(OnError)))
  {
    var d := c.Finish(StartOp);
    if c.phase == Stopped {
      StaleInv(cfg, c, StartOp);
      assert Stop(d) == d;
    } else {
      StartsBetween(cfg, c);
      AttemptInv(cfg, d);
      StopInv(cfg, d);
    }
  }

  lemma CloseOpenInv(cfg: Config, c: Conn, code: Code)
    requires Inv(cfg, c) && c.phase == Open
    ensures Inv(cfg, CloseOpen(c.(stopRequested := true), code))
  {
    CloseOpenTokens(c, code);
  }

  lemma CloseOpenTokens(c: Conn, code: Code)
    requires Lifecycle(c) && Tokens(c) && c.phase == Open
    ensures var e := CloseOpen(c.(stopRequested := true), code);
            && Tokens(e)
            && forall m | WriteOp(c.generation, m) in e.ops :: WriteOp(c.generation, m) in c.ops
  {
    var e := CloseOpen(c.(stopRequested := true), code);
    assert forall op | op != CloseOp(c.generation) :: e.ops[op] == c.ops[op];
    assert forall s :: Attempting(e, s) == Attempting(c, s);
  }

  lemma DoCloseInv(cfg: Config, c: Conn, code: Code)
    requires Inv(cfg, c)
    ensures Inv(cfg, DoClose(c, code))
  {
    if !c.stopRequested && c.phase != Stopped {
      var d := c.(stopRequested := true);
      if c.phase == Open {
        CloseOpenInv(cfg, c, code);
      } else if c.phase == Connecting {
        assert forall s :: Attempting(d, s) == Attempting(c, s);
      } else {
        StopInv(cfg, d);
      }
    }
  }

  lemma PostDropped(c: Conn, i: nat)
    requires OpsSane(c) && Writes(c) && i < |c.out.posted| && (c.phase != Open || c.out.posted[i].gen != c.generation)
    ensures OpsSane(OnPost(c, i)) && Writes(OnPost(c, i))
  {
    assert OnPost(c, i).ops == c.ops;
  }

  lemma PostQueued(c: Conn, i: nat)
    requires OpsSane(c) && Writes(c) && c.connected && i < |c.out.posted| && c.out.posted[i].gen == c.generation
    requires c.phase == Open && c.out.queue != []
    ensures OpsSane(OnPost(c, i)) && Writes(OnPost(c, i))
  {
    var d := OnPost(c, i);
    assert d.ops == c.ops && d.out.queue[0] == c.out.queue[0];
  }

  lemma PostWritten(c: Conn, i: nat)
    requires OpsSane(c) && Writes(c) && c.connected && i < |c.out.posted| && c.out.posted[i].gen == c.generation
    requires c.phase == Open && c.out.queue == []
    ensures OpsSane(OnPost(c, i)) && Writes(OnPost(c, i))
  {
    assert forall m :: WriteOp(c.generation, m) !in c.ops;
    BeginWriteOps(c, c.out.posted[i].message);
  }

  lemma OnPostOps(c: Conn, i: nat)
    requires OpsSane(c) && Writes(c) && Lifecycle(c) && i < |c.out.posted|
    ensures OpsSane(OnPost(c, i)) && Writes(OnPost(c, i))
  {
    if c.phase != Open || c.out.posted[i].gen != c.generation {
      PostDropped(c, i);
    } else if c.out.queue != [] {
      PostQueued(c, i);
    } else {
      PostWritten(c, i);
    }
  }

  lemma OnPostInv(cfg: Config, c: Conn, i: nat)
    requires Inv(cfg, c) && i < |c.out.posted|
    ensures Inv(cfg, OnPost(c, i))
  {
    OnPostOps(c, i);
    PostCounts(cfg.sendLimit, c, i);
    PostTokens(c, i);
    WritesAside(c, OnPost(c, i));
  }

  lemma PostCounts(limit: nat, c: Conn, i: nat)
    requires Counting(limit, c.out) && i < |c.out.posted|
    ensures Counting(limit, OnPost(c, i).out)
  {
  }

  lemma PostTokens(c: Conn, i: nat)
    requires i < |c.out.posted|
    ensures forall op: Op | !op.WriteOp? :: OnPost(c, i).ops[op] == c.ops[op]
  {
  }

  /** Steps off the strand touch nothing but the senders, their posts and the counter. */
  lemma OffStrandInv(cfg: Config, c: Conn, d: Conn)
    requires Inv(cfg, c) && Counting(cfg.sendLimit, d.out)
    requires d == c.(out := d.out, clientClosed := d.clientClosed)
    requires d.out == c.out.(pending := d.out.pending, senders := d.out.senders, posted := d.out.posted)
    ensures Inv(cfg, d)
  {
    WritesAside(c, d);
  }

  lemma ReservationsSet(senders: map<nat, Sender>, t: nat, s: Sender)
    requires t in senders && !senders[t].Reserved?
    ensures Reservations(senders[t := s]) == Reservations(senders) + (if s.Reserved? then {t} else {})
    ensures t !in Reservations(senders)
    ensures Reservations(senders - {t}) == Reservations(senders)
  {
  }

  lemma LoadCounting(limit: nat, o: Outbox, t: nat, m: Message)
    requires Counting(limit, o) && t in o.senders && !o.senders[t].Reserved?
    ensures Counting(limit, Load(limit, o, t, m))
  {
    ReservationsSet(o.senders, t, Claiming(m, o.pending));
  }

  lemma PostCounting(limit: nat, o: Outbox, t: nat, p: Post)
    requires Counting(limit, o) && t in o.senders && o.senders[t].Reserved?
    ensures Counting(limit, Leave(o.(posted := o.posted + [p]), t))
  {
    ReservationLeaves(o.senders, t);
  }

  lemma SenderCounting(limit: nat, o: Outbox, t: nat, spurious: bool, generation: nat)
    requires Counting(limit, o) && t in o.senders
    ensures Counting(limit, SenderStep(limit, o, t, spurious, generation))
  {
    match o.senders[t]
    case Checked(m) => LoadCounting(limit, o, t, m);
    case Claiming(m, current) =>
      LoadCounting(limit, o, t, m);
      ReservationsSet(o.senders, t, Reserved(m));
    case Reserved(m) => PostCounting(limit, o, t, Post(m, generation));
  }

  lemma ReservationLeaves(senders: map<nat, Sender>, t: nat)
    requires t in senders && senders[t].Reserved?
    ensures |Reservations(senders - {t})| + 1 == |Reservations(senders)|
  {
    assert Reservations(senders) == Reservations(senders - {t}) + {t};
  }

  lemma CompletionInv(cfg: Config, c: Conn, a: Action)
    requires Inv(cfg, c) && Possible(c, a)
    requires a.StageDone? || a.ReadDone? || a.WriteDone? || a.CloseDone?
    ensures Inv(cfg, Next(cfg, c, a))
  {
    var op := Token(a)[0];
    assert op in Token(a);
    if c.Stale(a.gen) {
      StaleInv(cfg, c, op);
    } else {
      match a
      case StageDone(stage, gen, outcome) => OnStageInv(cfg, c, stage, gen, outcome);
      case ReadDone(gen, outcome) => OnReadInv(cfg, c, gen, outcome);
      case WriteDone(gen, m, ok) => OnWriteInv(cfg, c, gen, m, ok);
      case CloseDone(gen, ok, echoed) => OnCloseDoneInv(cfg, c, gen, ok, echoed);
    }
  }

  lemma SenderInv(cfg: Config, c: Conn, a: Action)
    requires Inv(cfg, c) && Possible(c, a) && (a.Send? || a.SendStep?)
    ensures Inv(cfg, Next(cfg, c, a))
  {
    if a.Send? {
      var senders := c.out.senders[a.thread := Checked(a.message)];
      assert Reservations(senders) == Reservations(c.out.senders);
    } else {
      SenderCounting(cfg.sendLimit, c.out, a.thread, a.spurious, c.generation);
    }
    OffStrandInv(cfg, c, Next(cfg, c, a));
  }

  lemma NextInv(cfg: Config, c: Conn, a: Action)
    requires Inv(cfg, c)
    ensures Inv(cfg, Next(cfg, c, a))
  {
    if Possible(c, a) {
      match a
      case Start(urlOk) => assert StartOp in Token(a); StartInv(cfg, c, urlOk);
      case TimerFires(ok) => assert TimerOp in Token(a); TimerInv(cfg, c, ok);
      case CloseCall(code) => DoCloseInv(cfg, c, code);
      case ClientCloses => OffStrandInv(cfg, c, c.(clientClosed := true));
      case Send(_, _) => SenderInv(cfg, c, a);
      case SendStep(_, _) => SenderInv(cfg, c, a);
      case RunPost(i) => OnPostInv(cfg, c, i);
      case _ => CompletionInv(cfg, c, a);
    }
  }

  lemma {:induction false} RunInv(cfg: Config, c: Conn, actions: seq<Action>)
    requires Inv(cfg, c)
    ensures Inv(cfg, Run(cfg, c, actions))
    decreases |actions|
  {
    if actions != [] {
      NextInv(cfg, c, actions[0]);
      RunInv(cfg, Next(cfg, c, actions[0]), actions[1..]);
    }
  }

  // ---------------------------------------------------------------- what every run shows

  datatype Kind = Opens | Closes | Messages | Troubles

  function KindOf(e: Event): Kind {
    match e
    case OnOpen => Opens
    case OnClose(_) => Closes
    case OnMessage => Messages
    case _ => Troubles  // onError, onReconnecting
  }

  function Count(log: seq<Event>, k: Kind): nat {
    if log == [] then 0
    else Count(log[..|log| - 1], k) + (if KindOf(log[|log| - 1]) == k then 1 else 0)
  }

  lemma {:induction false} TrackCounts(log: seq<Event>)
    requires Track(log) != Wrong
    ensures Count(log, Opens) == Count(log, Closes) + (if Track(log) == Up then 1 else 0)
    decreases |log|
  {
    if log != [] {
      TrackCounts(log[..|log| - 1]);
    }
  }

  /** In every reachable state onOpen and onClose alternate, starting with onOpen; isConnected()
      holds exactly between them, so a stopped connection has reported every close; retries are
      numbered 1, 2, ... since the last onOpen and stay within max_attempts. */
  lemma EventsOfEveryRun(cfg: Config, actions: seq<Action>)
    ensures var c := Run(cfg, Init(), actions);
            && Track(c.log) == (if c.connected then Up else Down)
            && Count(c.log, Opens) == Count(c.log, Closes) + (if c.connected then 1 else 0)
            && (c.phase == Stopped ==> !c.connected)
            && Numbered(cfg, c.log)
  {
    InitInv(cfg);
    RunInv(cfg, Init(), actions);
    TrackCounts(Run(cfg, Init(), actions).log);
  }

  /** In every reachable state the counter is exactly what is queued, posted or reserved, within the
      limit; at most one write per generation is in flight, carrying the front of the queue, and one is
      while there is something to write and no write failed; and what was written followed by the
      queue is what was accepted, in order. */
  lemma SendsOfEveryRun(cfg: Config, actions: seq<Action>)
    ensures var c := Run(cfg, Init(), actions);
            && 0 <= c.out.pending == |c.out.queue| + |c.out.posted| + |Reservations(c.out.senders)| <= cfg.sendLimit
            && (forall g: nat, m: Message, n: Message | WriteOp(g, m) in c.ops && WriteOp(g, n) in c.ops :: m == n)
            && (forall op :: c.ops[op] <= 1)
            && (c.connected ==> c.out.accepted == c.out.completed + c.out.queue)
            && (!c.connected ==> c.out.queue == [])
            && (c.connected ==> forall m | WriteOp(c.generation, m) in c.ops :: [m] <= c.out.queue)
            && (c.connected && c.out.queue != [] && !c.out.writeFailed ==> WriteOp(c.generation, c.out.queue[0]) in c.ops)
  {
    InitInv(cfg);
    RunInv(cfg, Init(), actions);
  }

  /** Until it is stopped a connection is never stuck: exactly one kind of operation that moves it
      on is pending, and it belongs to the current attempt. */
  lemma NeverStuck(cfg: Config, actions: seq<Action>)
    ensures var c := Run(cfg, Init(), actions);
            match c.phase
            case Idle => StartOp in c.ops
            case Connecting => exists s :: AttemptOp(s, c.generation) in c.ops
            case Open => ReadOp(c.generation) in c.ops
            case Closing => !(c.own.done && c.own.readDone)
            case Waiting => TimerOp in c.ops
            case Stopped => c.released
    ensures var c := Run(cfg, Init(), actions);
            c.phase == Closing ==>
              && (ReadOp(c.generation) in c.ops <==> !c.own.readDone)
              && (CloseOp(c.generation) in c.ops <==> !c.own.done)
  {
    InitInv(cfg);
    RunInv(cfg, Init(), actions);
    var c := Run(cfg, Init(), actions);
    if c.phase == Connecting {
      assert Attempting(c, Resolve) || Attempting(c, Connect) || Attempting(c, Handshake) || Attempting(c, Upgrade);
    }
  }

  // ---------------------------------------------------------------- our own close

  function OwnCloseCode(own: OwnClose, ok: bool, echoed: Code): Code {
    if !ok then ABNORMAL else if echoed == NO_CODE then own.code else echoed
  }

  ghost predicate HalfDone(c: Conn, d: Conn) {
    && d.log == c.log && d.phase == Closing && d.generation == c.generation
    && d.own.code == c.own.code && !d.released && d.stopRequested
  }

  lemma ReadFirst(cfg: Config, c: Conn, echoed: Code)
    requires Inv(cfg, c) && c.phase == Closing && !c.own.done && !c.own.readDone
    ensures var d := Next(cfg, c, ReadDone(c.generation, Aborted(echoed)));
            HalfDone(c, d) && d.own.readDone && CloseOp(c.generation) in d.ops
  {
    assert ReadOp(c.generation) in c.ops && CloseOp(c.generation) in c.ops;
  }

  lemma CloseFirst(cfg: Config, c: Conn, ok: bool, echoed: Code)
    requires Inv(cfg, c) && c.phase == Closing && !c.own.done && !c.own.readDone
    ensures var d := Next(cfg, c, CloseDone(c.generation, ok, echoed));
            HalfDone(c, d) && d.own.done && d.own.ok == ok && ReadOp(c.generation) in d.ops
  {
    assert ReadOp(c.generation) in c.ops && CloseOp(c.generation) in c.ops;
  }

  lemma CloseSecond(cfg: Config, d: Conn, ok: bool, echoed: Code)
    requires d.phase == Closing && d.own.readDone && d.stopRequested && !d.released && CloseOp(d.generation) in d.ops
    ensures var r := Next(cfg, d, CloseDone(d.generation, ok, echoed));
            r.log == d.log + [OnClose(OwnCloseCode(d.own, ok, echoed))] && r.phase == Stopped
  {
  }

  lemma ReadSecond(cfg: Config, d: Conn, echoed: Code)
    requires d.phase == Closing && d.own.done && d.stopRequested && !d.released && ReadOp(d.generation) in d.ops
    ensures var r := Next(cfg, d, ReadDone(d.generation, Aborted(echoed)));
            r.log == d.log + [OnClose(OwnCloseCode(d.own, d.own.ok, echoed))] && r.phase == Stopped
  {
  }

  /** Beast cancels the read when the close handshake completes. Whichever of the two completions
      comes first, the close is reported once, by the second, with the same code. */
  lemma EitherEndReportsOnce(cfg: Config, c: Conn, ok: bool, echoed: Code)
    requires Inv(cfg, c) && c.phase == Closing && !c.own.done && !c.own.readDone
    ensures var g := c.generation;
            var readFirst := Next(cfg, c, ReadDone(g, Aborted(echoed)));
            var closeFirst := Next(cfg, c, CloseDone(g, ok, echoed));
            var report := c.log + [OnClose(OwnCloseCode(c.own, ok, echoed))];
            && readFirst.log == closeFirst.log == c.log
            && Next(cfg, readFirst, CloseDone(g, ok, echoed)).log == report
            && Next(cfg, closeFirst, ReadDone(g, Aborted(echoed))).log == report
            && Next(cfg, readFirst, CloseDone(g, ok, echoed)).phase == Stopped
            && Next(cfg, closeFirst, ReadDone(g, Aborted(echoed))).phase == Stopped
  {
    ReadFirst(cfg, c, echoed);
    CloseFirst(cfg, c, ok, echoed);
    CloseSecond(cfg, Next(cfg, c, ReadDone(c.generation, Aborted(echoed))), ok, echoed);
    ReadSecond(cfg, Next(cfg, c, CloseDone(c.generation, ok, echoed)), echoed);
  }

  /** If the read ends for another reason, that is the report; the close completion adds nothing. */
  lemma ReadMayEndItAlone(cfg: Config, c: Conn, outcome: ReadOutcome, ok: bool, echoed: Code)
    requires Inv(cfg, c) && c.phase == Closing && !c.own.readDone && (outcome.PeerClosed? || outcome.Broken?)
    ensures var g := c.generation;
            var r := Next(cfg, c, ReadDone(g, outcome));
            && r.phase == Stopped && |r.log| == |c.log| + 1 && r.log[|c.log|].OnClose?
            && Next(cfg, r, CloseDone(g, ok, echoed)).log == r.log
            && Next(cfg, r, CloseDone(g, ok, echoed)).phase == Stopped
  {
    assert ReadOp(c.generation) in c.ops;
  }

  // ---------------------------------------------------------------- reconnecting

  /** May the connection try again, after as many retries in a row as the user was told of? */
  predicate MayRetry(cfg: Config, c: Conn) {
    cfg.reconnect && !c.stopRequested && !c.clientClosed && (cfg.maxAttempts == 0 || Retries(c.log) < cfg.maxAttempts)
  }

  /** It waits, with the timer set and the next number reported, or it is over. */
  ghost predicate WaitsOrStops(d: Conn, waits: bool, n: nat) {
    && d.phase == (if waits then Waiting else Stopped)
    && (waits ==> TimerOp in d.ops && d.log != [] && d.log[|d.log| - 1] == OnReconnecting(n))
    && (!waits ==> d.released)
  }

  /** After c it said what it had to, and waits for the next retry or is over. */
  ghost predicate LostReport(cfg: Config, c: Conn, said: seq<Event>, d: Conn) {
    && WaitsOrStops(d, MayRetry(cfg, c), Retries(c.log) + 1)
    && !d.connected && d.out.queue == [] && c.log + said <= d.log
  }

  lemma ClosedRetries(cfg: Config, c: Conn, code: Code)
    requires !c.released && c.failures == Retries(c.log) && !c.stopRequested
    ensures LostReport(cfg, c, [OnClose(code)], Closed(cfg, c, code))
  {
  }

  lemma ErrorIsNoRetry(log: seq<Event>)
    ensures Retries(log + [OnError]) == Retries(log)
  {
    assert (log + [OnError])[..|log|] == log;
  }

  lemma BrokenRetries(cfg: Config, e: Conn)
    requires !e.released && e.failures == Retries(e.log) && !e.stopRequested
    ensures LostReport(cfg, e, [OnError, OnClose(ABNORMAL)], Closed(cfg, e.Emit(OnError), ABNORMAL))
  {
    ErrorIsNoRetry(e.log);
    ClosedRetries(cfg, e.Emit(OnError), ABNORMAL);
    assert e.log + [OnError] + [OnClose(ABNORMAL)] == e.log + [OnError, OnClose(ABNORMAL)];
  }

  /** What the user is told when an open connection ends: the peer's code, or "abnormal". */
  function LostEvents(outcome: ReadOutcome): seq<Event> {
    if outcome.Broken? then [OnError, OnClose(ABNORMAL)]
    else if outcome.PeerClosed? then [OnClose(if outcome.code == NO_CODE then NO_STATUS else outcome.code)]
    else [OnClose(ABNORMAL)]
  }

  lemma EndedRetries(cfg: Config, e: Conn, outcome: ReadOutcome)
    requires !e.released && e.failures == Retries(e.log) && !e.stopRequested && e.phase == Open && !outcome.GotMessage?
    ensures LostReport(cfg, e, LostEvents(outcome), Ended(cfg, e, outcome))
  {
    match outcome
    case Broken => BrokenRetries(cfg, e);
    case PeerClosed(code) => ClosedRetries(cfg, e, if code == NO_CODE then NO_STATUS else code);
    case Aborted(_) => ClosedRetries(cfg, e, ABNORMAL);
  }

  /** An open connection that ends is reported closed, after an error if it broke, and is retried if and
      only if it may be. */
  lemma LostConnection(cfg: Config, c: Conn, outcome: ReadOutcome)
    requires Inv(cfg, c) && c.phase == Open && !outcome.GotMessage?
    ensures LostReport(cfg, c, LostEvents(outcome), Next(cfg, c, ReadDone(c.generation, outcome)))
  {
    assert ReadOp(c.generation) in c.ops;
    ReadEndIs(cfg, c, outcome);
    EndedRetries(cfg, c.Finish(ReadOp(c.generation)), outcome);
  }

  lemma ReadEndIs(cfg: Config, c: Conn, outcome: ReadOutcome)
    requires ReadOp(c.generation) in c.ops && c.phase != Stopped && !outcome.GotMessage?
    ensures Next(cfg, c, ReadDone(c.generation, outcome)) == Ended(cfg, c.Finish(ReadOp(c.generation)), outcome)
  {
  }

  /** A failed attempt is retried if and only if it may be; one the server declined never is. */
  lemma FailedAttempt(cfg: Config, c: Conn, stage: Stage, outcome: AttemptOutcome)
    requires Inv(cfg, c) && c.phase == Connecting && Attempting(c, stage) && outcome != Succeeds
    ensures var d := Next(cfg, c, StageDone(stage, c.generation, outcome));
            WaitsOrStops(d, MayRetry(cfg, c) && !(stage == Upgrade && outcome.Declined?), Retries(c.log) + 1)
  {
  }

  /** The timer starts a new attempt, with a new generation, unless the client is being destroyed. */
  lemma TimerRetries(cfg: Config, c: Conn)
    requires Inv(cfg, c) && c.phase == Waiting
    ensures var d := Next(cfg, c, TimerFires(true));
            if c.clientClosed then d.phase == Stopped
            else d.phase == Connecting && d.generation == c.generation + 1 && Attempting(d, Resolve)
  {
    assert TimerOp in c.ops;
  }

  // ---------------------------------------------------------------- after close()

  function OpensLeft(c: Conn): nat {
    if c.phase == Connecting then 1 else 0
  }

  function ClosesLeft(c: Conn): nat {
    if c.phase == Connecting || c.phase == Closing then 1 else 0
  }

  lemma CountEmit(log: seq<Event>, e: Event, k: Kind)
    ensures Count(log + [e], k) == Count(log, k) + (if KindOf(e) == k then 1 else 0)
  {
    assert (log + [e])[..|log|] == log;
  }

  /** The events a step may add once close() ran: none, or one of onOpen, onMessage, onClose. */
  ghost predicate QuietStep(c: Conn, d: Conn) {
    && d.stopRequested && d.generation == c.generation
    && (d.log == c.log || (|d.log| == |c.log| + 1 && d.log == c.log + [d.log[|c.log|]]))
    && (d.log != c.log ==>
          var e := d.log[|c.log|];
          && (e.OnOpen? || e.OnMessage? || e.OnClose?)
          && (e.OnOpen? ==> OpensLeft(c) == 1))
    && OpensLeft(d) + (if d.log != c.log && d.log[|c.log|].OnOpen? then 1 else 0) <= OpensLeft(c)
    && ClosesLeft(d) + (if d.log != c.log && d.log[|c.log|].OnClose? then 1 else 0) <= ClosesLeft(c)
  }

  lemma QuietStage(cfg: Config, c: Conn, stage: Stage, gen: nat, outcome: AttemptOutcome)
    requires c.stopRequested && c.phase == Connecting && gen == c.generation
    ensures QuietStep(c, OnStage(cfg, c.Finish(AttemptOp(stage, gen)), stage, gen, outcome))
  {
  }

  lemma QuietRead(cfg: Config, c: Conn, gen: nat, outcome: ReadOutcome)
    requires c.stopRequested && c.phase == Closing && gen == c.generation
    ensures QuietStep(c, OnRead(cfg, c.Finish(ReadOp(gen)), gen, outcome))
  {
  }

  lemma QuietClose(cfg: Config, c: Conn, gen: nat, ok: bool, echoed: Code)
    requires c.stopRequested && c.phase == Closing && gen == c.generation
    ensures QuietStep(c, OnCloseDone(cfg, c.Finish(CloseOp(gen)), gen, ok, echoed))
  {
  }

  lemma QuietStrand(cfg: Config, c: Conn, a: Action)
    requires Inv(cfg, c) && c.stopRequested && Possible(c, a)
    requires a.Start? || a.TimerFires? || a.CloseCall? || a.RunPost?
    ensures QuietStep(c, Next(cfg, c, a))
  {
    assert |Token(a)| > 0 ==> Token(a)[0] in Token(a);
    if a.RunPost? {
      assert Next(cfg, c, a) == OnPost(c, a.index);
    }
  }

  lemma QuietSender(cfg: Config, c: Conn, a: Action)
    requires c.stopRequested && Possible(c, a)
    requires a.Send? || a.SendStep? || a.ClientCloses?
    ensures QuietStep(c, Next(cfg, c, a))
  {
  }

  lemma QuietCompletion(cfg: Config, c: Conn, a: Action)
    requires Inv(cfg, c) && c.stopRequested && c.phase != Stopped && Possible(c, a)
    requires a.StageDone? || a.ReadDone? || a.WriteDone? || a.CloseDone?
    ensures QuietStep(c, Next(cfg, c, a))
  {
    assert Token(a)[0] in Token(a);
    match a
    case StageDone(stage, gen, outcome) =>
      assert Attempting(c, stage);
      QuietStage(cfg, c, stage, gen, outcome);
    case ReadDone(gen, outcome) => QuietRead(cfg, c, gen, outcome);
    case CloseDone(gen, ok, echoed) => QuietClose(cfg, c, gen, ok, echoed);
    case WriteDone(_, _, _) =>
  }

  lemma QuietNext(cfg: Config, c: Conn, a: Action)
    requires Inv(cfg, c) && c.stopRequested
    ensures QuietStep(c, Next(cfg, c, a))
  {
    if Possible(c, a) {
      if a.Send? || a.SendStep? || a.ClientCloses? {
        QuietSender(cfg, c, a);
      } else if a.Start? || a.TimerFires? || a.CloseCall? || a.RunPost? {
        QuietStrand(cfg, c, a);
      } else if c.phase != Stopped {
        QuietCompletion(cfg, c, a);
      }
    }
  }

  lemma QuietCounts(c: Conn, d: Conn)
    requires QuietStep(c, d)
    ensures Count(d.log, Troubles) == Count(c.log, Troubles)
    ensures Count(d.log, Opens) + OpensLeft(d) <= Count(c.log, Opens) + OpensLeft(c)
    ensures Count(d.log, Closes) + ClosesLeft(d) <= Count(c.log, Closes) + ClosesLeft(c)
    ensures c.log <= d.log
  {
    if d.log != c.log {
      var e := d.log[|c.log|];
      CountEmit(c.log, e, Troubles);
      CountEmit(c.log, e, Opens);
      CountEmit(c.log, e, Closes);
    }
  }

  /** Once close() ran: the generation never changes again, so no timer and no old completion starts
      another attempt; no onError or onReconnecting comes any more; at most one onOpen, and only if
      an attempt was under way, and at most one onClose. */
  lemma {:induction false} AfterClose(cfg: Config, c: Conn, actions: seq<Action>)
    requires Inv(cfg, c) && c.stopRequested
    ensures var r := Run(cfg, c, actions);
            && r.stopRequested && r.generation == c.generation && c.log <= r.log
            && Count(r.log, Troubles) == Count(c.log, Troubles)
            && Count(r.log, Opens) + OpensLeft(r) <= Count(c.log, Opens) + OpensLeft(c)
            && Count(r.log, Closes) + ClosesLeft(r) <= Count(c.log, Closes) + ClosesLeft(c)
    decreases |actions|
  {
    if actions != [] {
      var d := Next(cfg, c, actions[0]);
      NextInv(cfg, c, actions[0]);
      QuietNext(cfg, c, actions[0]);
      AfterClose(cfg, d, actions[1..]);
      QuietCounts(c, d);
    }
  }
}
