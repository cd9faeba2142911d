/** What the user of a client connection is told, step by step, and how an attempt, a send and a close go
    on (sources/Client/WebSocketClient.cpp:238-619). */
module ClientReports {
  import opened WebSocketClientProtocol

  // ---------------------------------------------------------------- every event, of every step

  /** After a failure: the next retry, the error that there will be none, or nothing. */
  function RetrySays(cfg: Config, c: Conn): seq<Event> {
    if MayRetry(cfg, c) then [OnReconnecting(Retries(c.log) + 1)]
    else if cfg.reconnect && !c.stopRequested && !c.clientClosed then [OnError]
    else []
  }

  function AttemptSays(cfg: Config, c: Conn, stage: Stage, outcome: AttemptOutcome): seq<Event> {
    if outcome == Succeeds then (if stage == Upgrade then [OnOpen] else [])
    else if c.stopRequested then []
    else if stage == Upgrade && outcome == Declined then [OnError]
    else [OnError] + RetrySays(cfg, c)
  }

  function PeerCode(code: Code): Code {
    if code == NO_CODE then NO_STATUS else code
  }

  function ReadSays(cfg: Config, c: Conn, outcome: ReadOutcome): seq<Event> {
    match outcome
    case GotMessage => [OnMessage]
    case PeerClosed(code) => [OnClose(PeerCode(code))] + RetrySays(cfg, c)
    case Aborted(echoed) =>
      if c.phase != Closing then [OnClose(ABNORMAL)] + RetrySays(cfg, c)
      else if c.own.done then [OnClose(OwnCloseCode(c.own, c.own.ok, echoed))]
      else []
    case Broken => (if c.stopRequested then [] else [OnError]) + [OnClose(ABNORMAL)] + RetrySays(cfg, c)
  }

  /** What a step tells the user. Nothing comes from a step that is not possible, from a stopped
      connection, or from a completion of an older attempt. */
  function Says(cfg: Config, c: Conn, a: Action): seq<Event> {
    if !Possible(c, a) || c.phase == Stopped then []
    else
      match a
      case Start(urlOk) => if urlOk then [] else [OnError]
      case StageDone(stage, gen, outcome) => if gen == c.generation then AttemptSays(cfg, c, stage, outcome) else []
      case ReadDone(gen, outcome) => if gen == c.generation then ReadSays(cfg, c, outcome) else []
      case CloseDone(gen, ok, echoed) =>
        if gen == c.generation && c.own.readDone then [OnClose(OwnCloseCode(c.own, ok, echoed))] else []
      case _ => []
  }

  lemma RetryScheduled(cfg: Config, c: Conn)
    requires !c.released && c.failures == Retries(c.log)
    ensures ScheduleRetry(cfg, c).log == c.log + RetrySays(cfg, c)
  {
  }

  /** The same when something was said on the way that is no retry and no onOpen. */
  lemma RetryScheduledAfter(cfg: Config, c: Conn, e: Event)
    requires !c.released && c.failures == Retries(c.log) && (e.OnError? || e.OnClose?)
    ensures ScheduleRetry(cfg, c.Emit(e)).log == c.log + [e] + RetrySays(cfg, c)
  {
    assert (c.log + [e])[..|c.log|] == c.log;
    assert Retries(c.log + [e]) == Retries(c.log);
    RetryScheduled(cfg, c.Emit(e));
  }

  lemma ClosedSays(cfg: Config, c: Conn, code: Code)
    requires !c.released && c.failures == Retries(c.log)
    ensures Closed(cfg, c, code).log == c.log + [OnClose(code)] + RetrySays(cfg, c)
  {
    RetryScheduledAfter(cfg, c.(connected := false, out := DropQueue(c.out)), OnClose(code));
  }

  lemma BrokenSays(cfg: Config, c: Conn)
    requires !c.released && c.failures == Retries(c.log) && !c.stopRequested
    ensures Closed(cfg, c.Emit(OnError), ABNORMAL).log == c.log + ([OnError] + [OnClose(ABNORMAL)] + RetrySays(cfg, c))
  {
    ErrorIsNoRetry(c.log);
    ClosedSays(cfg, c.Emit(OnError), ABNORMAL);
  }

  lemma StageSays(cfg: Config, c: Conn, stage: Stage, outcome: AttemptOutcome)
    requires Inv(cfg, c) && c.phase == Connecting
    ensures OnStage(cfg, c.Finish(AttemptOp(stage, c.generation)), stage, c.generation, outcome).log
         == c.log + AttemptSays(cfg, c, stage, outcome)
  {
    var d := c.Finish(AttemptOp(stage, c.generation));
    if outcome != Succeeds && !c.stopRequested {
      RetryScheduledAfter(cfg, d, OnError);
    }
  }

  lemma AbortedReadSays(cfg: Config, c: Conn, echoed: Code)
    requires Inv(cfg, c) && c.connected
    ensures Ended(cfg, c.Finish(ReadOp(c.generation)), Aborted(echoed)).log == c.log + ReadSays(cfg, c, Aborted(echoed))
  {
    var d := c.Finish(ReadOp(c.generation));
    if c.phase != Closing {
      ClosedSays(cfg, d, ABNORMAL);
    } else if c.own.done {
      ClosedSays(cfg, d.(own := d.own.(readDone := true)), OwnCloseCode(c.own, c.own.ok, echoed));
    }
  }

  lemma ReadEndSays(cfg: Config, c: Conn, outcome: ReadOutcome)
    requires Inv(cfg, c) && c.connected && !outcome.GotMessage?
    ensures Ended(cfg, c.Finish(ReadOp(c.generation)), outcome).log == c.log + ReadSays(cfg, c, outcome)
  {
    var d := c.Finish(ReadOp(c.generation));
    match outcome
    case PeerClosed(code) => ClosedSays(cfg, d, PeerCode(code));
    case Aborted(echoed) => AbortedReadSays(cfg, c, echoed);
    case Broken =>
      if c.stopRequested { ClosedSays(cfg, d, ABNORMAL); } else { BrokenSays(cfg, d); }
  }

  lemma CloseEndSays(cfg: Config, c: Conn, ok: bool, echoed: Code)
    requires Inv(cfg, c) && c.phase == Closing
    ensures OnCloseDone(cfg, c.Finish(CloseOp(c.generation)), c.generation, ok, echoed).log
         == c.log + (if c.own.readDone then [OnClose(OwnCloseCode(c.own, ok, echoed))] else [])
  {
    if c.own.readDone {
      var d := c.Finish(CloseOp(c.generation)).(own := c.own.(done := true, ok := ok));
      ClosedSays(cfg, d, OwnCloseCode(c.own, ok, echoed));
    }
  }

  /** Steps that complete nothing, or a write, tell nothing. */
  lemma QuietSteps(cfg: Config, c: Conn, a: Action)
    requires Inv(cfg, c) && Possible(c, a) && !a.StageDone? && !a.ReadDone? && !a.CloseDone? && !a.Start?
    ensures Next(cfg, c, a).log == c.log
  {
    if a.RunPost? {
      assert OnPost(c, a.index).log == c.log;
    }
  }

  lemma TokenIsPending(c: Conn, a: Action)
    requires Possible(c, a) && Token(a) != []
    ensures Token(a)[0] in c.ops
  {
    assert Token(a)[0] in Token(a);
  }

  /** Every step tells the user exactly what is declared above, after what it told before. */
  lemma EveryStepSays(cfg: Config, c: Conn, a: Action)
    requires Inv(cfg, c)
    ensures Next(cfg, c, a).log == c.log + Says(cfg, c, a)
  {
    if Possible(c, a) {
      if Token(a) != [] { TokenIsPending(c, a); }
      if c.phase == Stopped {
        StoppedSaysNothing(cfg, c, a);
      } else {
        match a
        case Start(urlOk) =>
        case StageDone(stage, gen, outcome) =>
          assert Attempting(c, stage);
          StageSays(cfg, c, stage, outcome);
        case ReadDone(gen, outcome) => if !outcome.GotMessage? { ReadEndSays(cfg, c, outcome); }
        case CloseDone(gen, ok, echoed) => CloseEndSays(cfg, c, ok, echoed);
        case _ => QuietSteps(cfg, c, a);
      }
    }
  }

  lemma StoppedSaysNothing(cfg: Config, c: Conn, a: Action)
    requires Inv(cfg, c) && Possible(c, a) && c.phase == Stopped
    ensures Next(cfg, c, a).log == c.log
  {
    if !a.Start? && !a.StageDone? && !a.ReadDone? && !a.CloseDone? {
      QuietSteps(cfg, c, a);
    }
  }

  function AllSaid(cfg: Config, c: Conn, actions: seq<Action>): seq<Event>
    decreases |actions|
  {
    if actions == [] then [] else Says(cfg, c, actions[0]) + AllSaid(cfg, Next(cfg, c, actions[0]), actions[1..])
  }

  lemma {:induction false} RunSays(cfg: Config, c: Conn, actions: seq<Action>)
    requires Inv(cfg, c)
    ensures Run(cfg, c, actions).log == c.log + AllSaid(cfg, c, actions)
    decreases |actions|
  {
    if actions != [] {
      var d := Next(cfg, c, actions[0]);
      EveryStepSays(cfg, c, actions[0]);
      NextInv(cfg, c, actions[0]);
      RunSays(cfg, d, actions[1..]);
      Regroup(c.log, Says(cfg, c, actions[0]), AllSaid(cfg, d, actions[1..]));
    }
  }

  lemma Regroup(a: seq<Event>, b: seq<Event>, c: seq<Event>)
    ensures a + (b + c) == (a + b) + c
  {
  }

  /** Over every run, the user is told exactly what its steps say, in order: nothing more, nothing less. */
  lemma EveryRunSays(cfg: Config, actions: seq<Action>)
    ensures Run(cfg, Init(), actions).log == AllSaid(cfg, Init(), actions)
  {
    InitInv(cfg);
    RunSays(cfg, Init(), actions);
  }

  // ---------------------------------------------------------------- messages

  /** The read of the current connection completes with a message. */
  predicate Receives(c: Conn, a: Action) {
    a.ReadDone? && a.read.GotMessage? && Possible(c, a) && !c.Stale(a.gen)
  }

  function Received(cfg: Config, c: Conn, actions: seq<Action>): nat
    decreases |actions|
  {
    if actions == [] then 0
    else (if Receives(c, actions[0]) then 1 else 0) + Received(cfg, Next(cfg, c, actions[0]), actions[1..])
  }

  lemma {:induction false} CountOfBoth(a: seq<Event>, b: seq<Event>, k: Kind)
    ensures Count(a + b, k) == Count(a, k) + Count(b, k)
    decreases |b|
  {
    if b == [] {
      assert a + b == a;
    } else {
      var l := a + b;
      assert l[..|l| - 1] == a + b[..|b| - 1];
      CountOfBoth(a, b[..|b| - 1], k);
    }
  }

  lemma StepReceives(cfg: Config, c: Conn, a: Action)
    requires Inv(cfg, c)
    ensures Count(Says(cfg, c, a), Messages) == if Receives(c, a) then 1 else 0
  {
    var said := Says(cfg, c, a);
    CountSmall(said);
  }

  /** Counting the messages in a list of at most three events. */
  lemma CountSmall(said: seq<Event>)
    requires |said| <= 3
    ensures Count(said, Messages) == (if |said| > 0 && said[0].OnMessage? then 1 else 0)
                                   + (if |said| > 1 && said[1].OnMessage? then 1 else 0)
                                   + (if |said| > 2 && said[2].OnMessage? then 1 else 0)
  {
    if |said| > 0 {
      CountSmall(said[..|said| - 1]);
    }
  }

  lemma {:induction false} RunReceives(cfg: Config, c: Conn, actions: seq<Action>)
    requires Inv(cfg, c)
    ensures Count(Run(cfg, c, actions).log, Messages) == Count(c.log, Messages) + Received(cfg, c, actions)
    decreases |actions|
  {
    if actions != [] {
      EveryStepSays(cfg, c, actions[0]);
      StepReceives(cfg, c, actions[0]);
      CountOfBoth(c.log, Says(cfg, c, actions[0]), Messages);
      NextInv(cfg, c, actions[0]);
      RunReceives(cfg, Next(cfg, c, actions[0]), actions[1..]);
    }
  }

  /** Over every run, onMessage is called exactly once for each message read from the connection of its
      time. */
  lemma EveryMessageIsReported(cfg: Config, actions: seq<Action>)
    ensures Count(Run(cfg, Init(), actions).log, Messages) == Received(cfg, Init(), actions)
  {
    InitInv(cfg);
    RunReceives(cfg, Init(), actions);
  }

  /** A message is reported at once, and the next read is started, also while our own close is under way. */
  lemma MessageReported(cfg: Config, c: Conn)
    requires Inv(cfg, c) && ReadOp(c.generation) in c.ops && c.connected
    ensures var d := Next(cfg, c, ReadDone(c.generation, GotMessage));
            && d == c.(log := c.log + [OnMessage], ops := d.ops)
            && ReadOp(c.generation) in d.ops
  {
    EveryStepSays(cfg, c, ReadDone(c.generation, GotMessage));
  }

  // ---------------------------------------------------------------- an attempt that succeeds

  /** The stages of an attempt, in order; only a TLS connection has a TLS handshake. */
  function Stages(cfg: Config): seq<Stage> {
    [Resolve, Connect] + (if cfg.tls then [Handshake] else []) + [Upgrade]
  }

  function Succeeding(stages: seq<Stage>, gen: nat): seq<Action> {
    if stages == [] then [] else [StageDone(stages[0], gen, Succeeds)] + Succeeding(stages[1..], gen)
  }

  lemma Started(cfg: Config, urlOk: bool)
    ensures var d := Next(cfg, Init(), Start(urlOk));
            if urlOk then d.phase == Connecting && d.generation == 1 && d.ops == multiset{AttemptOp(Resolve, 1)} && d.log == []
            else d.phase == Stopped && d.log == [OnError] && d.released
  {
    assert Init().ops - multiset{StartOp} == multiset{};
    assert StartOp in Init().ops;
  }

  lemma StageGoesOn(cfg: Config, c: Conn, stage: Stage, next: Stage)
    requires Inv(cfg, c) && c.phase == Connecting && Attempting(c, stage)
    requires stage != Upgrade && next == match stage case Resolve => Connect case Connect => (if cfg.tls then Handshake else Upgrade) case _ => Upgrade
    ensures var d := Next(cfg, c, StageDone(stage, c.generation, Succeeds));
            d == c.(ops := d.ops) && Attempting(d, next) && Inv(cfg, d)
  {
    NextInv(cfg, c, StageDone(stage, c.generation, Succeeds));
  }

  /** The upgrade opens the connection: reported, reading, with an empty queue and no failures; or, if
      close() came during the attempt, it starts the close with 1000 at once. */
  lemma UpgradeOpens(cfg: Config, c: Conn)
    requires Inv(cfg, c) && c.phase == Connecting && Attempting(c, Upgrade)
    ensures var d := Next(cfg, c, StageDone(Upgrade, c.generation, Succeeds));
            && d.log == c.log + [OnOpen] && d.connected && d.failures == 0 && d.generation == c.generation
            && ReadOp(c.generation) in d.ops && d.out == c.out.(accepted := [], completed := [], writeFailed := false) && d.out.queue == []
            && (if c.stopRequested then d.phase == Closing && d.own.code == NORMAL && CloseOp(c.generation) in d.ops
                else d.phase == Open)
  {
    StageSays(cfg, c, Upgrade, Succeeds);
  }

  lemma RunOne(cfg: Config, c: Conn, a: Action, rest: seq<Action>)
    ensures Run(cfg, c, [a] + rest) == Run(cfg, Next(cfg, c, a), rest)
  {
    assert ([a] + rest)[1..] == rest;
  }

  /** An attempt whose stages all succeed, in the order of the protocol, ends open. */
  lemma UnhinderedAttempt(cfg: Config, c: Conn)
    requires Inv(cfg, c) && c.phase == Connecting && Attempting(c, Resolve) && !c.stopRequested
    ensures var d := Run(cfg, c, Succeeding(Stages(cfg), c.generation));
            && d.phase == Open && d.connected && d.log == c.log + [OnOpen] && d.generation == c.generation
            && ReadOp(c.generation) in d.ops
  {
    var g := c.generation;
    var c1 := Next(cfg, c, StageDone(Resolve, g, Succeeds));
    StageGoesOn(cfg, c, Resolve, Connect);
    var last := Succeeding([Upgrade], g);
    assert last == [StageDone(Upgrade, g, Succeeds)] by {
      assert [Upgrade][1..] == [];
      assert Succeeding([], g) == [];
    }
    if cfg.tls {
      var stages := Stages(cfg);
      assert stages == [Resolve, Connect, Handshake, Upgrade];
      assert stages[1..] == [Connect, Handshake, Upgrade] && stages[1..][1..] == [Handshake, Upgrade] && stages[1..][1..][1..] == [Upgrade];
      RunOne(cfg, c, StageDone(Resolve, g, Succeeds), Succeeding(stages[1..], g));
      StageGoesOn(cfg, c1, Connect, Handshake);
      var c2 := Next(cfg, c1, StageDone(Connect, g, Succeeds));
      RunOne(cfg, c1, StageDone(Connect, g, Succeeds), Succeeding(stages[1..][1..], g));
      StageGoesOn(cfg, c2, Handshake, Upgrade);
      RunOne(cfg, c2, StageDone(Handshake, g, Succeeds), last);
      LastStage(cfg, Next(cfg, c2, StageDone(Handshake, g, Succeeds)));
    } else {
      var stages := Stages(cfg);
      assert stages == [Resolve, Connect, Upgrade];
      assert stages[1..] == [Connect, Upgrade] && stages[1..][1..] == [Upgrade];
      RunOne(cfg, c, StageDone(Resolve, g, Succeeds), Succeeding(stages[1..], g));
      StageGoesOn(cfg, c1, Connect, Upgrade);
      RunOne(cfg, c1, StageDone(Connect, g, Succeeds), last);
      LastStage(cfg, Next(cfg, c1, StageDone(Connect, g, Succeeds)));
    }
  }

  lemma LastStage(cfg: Config, c: Conn)
    requires Inv(cfg, c) && c.phase == Connecting && Attempting(c, Upgrade) && !c.stopRequested
    ensures var d := Run(cfg, c, [StageDone(Upgrade, c.generation, Succeeds)]);
            && d.phase == Open && d.connected && d.log == c.log + [OnOpen] && d.generation == c.generation
            && ReadOp(c.generation) in d.ops
  {
    UpgradeOpens(cfg, c);
    RunOne(cfg, c, StageDone(Upgrade, c.generation, Succeeds), []);
    assert [StageDone(Upgrade, c.generation, Succeeds)] + [] == [StageDone(Upgrade, c.generation, Succeeds)];
  }

  // ---------------------------------------------------------------- sends

  lemma RunPair(cfg: Config, c: Conn, a: Action, b: Action)
    ensures Run(cfg, c, [a, b]) == Next(cfg, Next(cfg, c, a), b)
  {
    assert [a, b] == [a] + [b] && [b] == [b] + [];
    RunOne(cfg, c, a, [b]);
    RunOne(cfg, Next(cfg, c, a), b, []);
  }

  lemma SendLoads(cfg: Config, c: Conn, t: nat, m: Message)
    requires c.connected && t !in c.out.senders
    ensures Run(cfg, c, [Send(t, m), SendStep(t, false)])
         == if c.out.pending < cfg.sendLimit then c.(out := c.out.(senders := c.out.senders[t := Claiming(m, c.out.pending)])) else c
  {
    var c1 := Next(cfg, c, Send(t, m));
    RunPair(cfg, c, Send(t, m), SendStep(t, false));
    assert c1.out.senders == c.out.senders[t := Checked(m)];
    assert c1.out.senders - {t} == c.out.senders;
    assert c1.out.senders[t := Claiming(m, c.out.pending)] == c.out.senders[t := Claiming(m, c.out.pending)];
  }

  lemma SendPosts(cfg: Config, c: Conn, t: nat, m: Message)
    requires t in c.out.senders && c.out.senders[t] == Claiming(m, c.out.pending)
    ensures Run(cfg, c, [SendStep(t, false), SendStep(t, false)])
         == c.(out := c.out.(pending := c.out.pending + 1, posted := c.out.posted + [Post(m, c.generation)], senders := c.out.senders - {t}))
  {
    var c1 := Next(cfg, c, SendStep(t, false));
    RunPair(cfg, c, SendStep(t, false), SendStep(t, false));
    assert c1.out.senders == c.out.senders[t := Reserved(m)];
    assert c1.out.senders - {t} == c.out.senders - {t};
  }

  /** send() with nothing in between: with room it reserves one place and posts its message for the current
      connection, in four accesses; without, it gives up after the first and leaves nothing behind. */
  lemma UnhinderedSend(cfg: Config, c: Conn, t: nat, m: Message)
    requires c.connected && t !in c.out.senders
    ensures var loaded := Run(cfg, c, [Send(t, m), SendStep(t, false)]);
            if c.out.pending < cfg.sendLimit then
              Run(cfg, loaded, [SendStep(t, false), SendStep(t, false)])
              == c.(out := c.out.(pending := c.out.pending + 1, posted := c.out.posted + [Post(m, c.generation)]))
            else loaded == c
  {
    SendLoads(cfg, c, t, m);
    if c.out.pending < cfg.sendLimit {
      SendPosts(cfg, Run(cfg, c, [Send(t, m), SendStep(t, false)]), t, m);
      assert c.out.senders[t := Claiming(m, c.out.pending)] - {t} == c.out.senders;
    }
  }

  /** A posted message of the open connection enters the queue at its end, and is being written at once if
      the queue was empty; one for another connection, or after close(), gives its place back. */
  lemma PostedMessage(cfg: Config, c: Conn, i: nat)
    requires Inv(cfg, c) && i < |c.out.posted|
    ensures var d := Next(cfg, c, RunPost(i));
            var p := c.out.posted[i];
            && d.out.posted == c.out.posted[..i] + c.out.posted[i + 1..] && d.log == c.log && d.phase == c.phase
            && (if c.phase == Open && p.gen == c.generation then
                  && d.out.queue == c.out.queue + [p.message] && d.out.accepted == c.out.accepted + [p.message]
                  && d.out.pending == c.out.pending
                  && (c.out.queue == [] ==> WriteOp(c.generation, p.message) in d.ops)
                  && (c.out.queue != [] ==> d.ops == c.ops)
                else
                  d.out.queue == c.out.queue && d.out.accepted == c.out.accepted && d.out.pending == c.out.pending - 1 && d.ops == c.ops)
  {
  }

  lemma WriteSucceeds(c: Conn, m: Message)
    requires Writes(c) && c.connected && WriteOp(c.generation, m) in c.ops && c.phase != Stopped
    ensures var d := OnWrite(c.Finish(WriteOp(c.generation, m)), c.generation, true);
            && d.log == c.log && d.phase == c.phase
            && c.out.queue == [m] + d.out.queue && d.out.completed == c.out.completed + [m]
            && d.out.pending == c.out.pending - 1
            && (d.out.queue != [] ==> WriteOp(c.generation, d.out.queue[0]) in d.ops)
            && (d.out.queue == [] ==> d.ops == c.ops - multiset{WriteOp(c.generation, m)})
  {
    assert c.out.queue == [m] + c.out.queue[1..];
  }

  /** A write that completes takes the message off the front and starts the next one; one that fails
      leaves the queue to the read side, which ends the connection. */
  lemma WriteGoesOn(cfg: Config, c: Conn, m: Message, ok: bool)
    requires Inv(cfg, c) && c.connected && WriteOp(c.generation, m) in c.ops
    ensures var d := Next(cfg, c, WriteDone(c.generation, m, ok));
            && d.log == c.log && d.phase == c.phase
            && (if ok then
                  && c.out.queue == [m] + d.out.queue && d.out.completed == c.out.completed + [m]
                  && d.out.pending == c.out.pending - 1
                  && (d.out.queue != [] ==> WriteOp(c.generation, d.out.queue[0]) in d.ops)
                  && (d.out.queue == [] ==> WriteOp(c.generation, m) !in d.ops)
                else d.out == c.out.(writeFailed := true) && WriteOp(c.generation, m) !in d.ops)
  {
    assert c.ops[WriteOp(c.generation, m)] == 1;
    if ok {
      WriteSucceeds(c, m);
    }
  }

  // ---------------------------------------------------------------- the client's destruction

  /** Only the start and the retry timer begin attempts, and not once the client is being destroyed. */
  lemma DestroyedSteps(cfg: Config, c: Conn, a: Action)
    requires c.clientClosed && (a.Start? || a.TimerFires?)
    ensures Next(cfg, c, a).generation == c.generation && Next(cfg, c, a).clientClosed
  {
  }

  predicate SameAttempt(c: Conn, d: Conn) {
    d.generation == c.generation && d.clientClosed == c.clientClosed
  }

  lemma EndsBeginNothing(cfg: Config, c: Conn, a: Action)
    requires Possible(c, a) && (a.StageDone? || a.ReadDone? || a.CloseDone?)
    ensures SameAttempt(c, Next(cfg, c, a))
  {
    match a
    case StageDone(stage, gen, outcome) => StageBeginsNothing(cfg, c.Finish(AttemptOp(stage, gen)), stage, gen, outcome);
    case ReadDone(gen, outcome) => ReadBeginsNothing(cfg, c.Finish(ReadOp(gen)), gen, outcome);
    case CloseDone(gen, ok, echoed) => CloseBeginsNothing(cfg, c.Finish(CloseOp(gen)), gen, ok, echoed);
  }

  lemma StageBeginsNothing(cfg: Config, c: Conn, stage: Stage, gen: nat, outcome: AttemptOutcome)
    ensures SameAttempt(c, OnStage(cfg, c, stage, gen, outcome))
  {
  }

  lemma ReadBeginsNothing(cfg: Config, c: Conn, gen: nat, outcome: ReadOutcome)
    ensures SameAttempt(c, OnRead(cfg, c, gen, outcome))
  {
  }

  lemma CloseBeginsNothing(cfg: Config, c: Conn, gen: nat, ok: bool, echoed: Code)
    ensures SameAttempt(c, OnCloseDone(cfg, c, gen, ok, echoed))
  {
  }

  lemma OthersBeginNothing(cfg: Config, c: Conn, a: Action)
    requires !a.Start? && !a.TimerFires? && !a.StageDone? && !a.ReadDone? && !a.CloseDone?
    ensures Next(cfg, c, a).generation == c.generation && (c.clientClosed ==> Next(cfg, c, a).clientClosed)
  {
    if Possible(c, a) {
      match a
      case WriteDone(gen, m, ok) => WriteBeginsNothing(c.Finish(WriteOp(gen, m)), gen, ok);
      case RunPost(i) => PostBeginsNothing(c, i);
      case CloseCall(code) => CloseCallBeginsNothing(c, code);
      case _ =>
    }
  }

  lemma WriteBeginsNothing(c: Conn, gen: nat, ok: bool)
    ensures SameAttempt(c, OnWrite(c, gen, ok))
  {
  }

  lemma PostBeginsNothing(c: Conn, i: nat)
    requires i < |c.out.posted|
    ensures SameAttempt(c, OnPost(c, i))
  {
  }

  lemma CloseCallBeginsNothing(c: Conn, code: Code)
    ensures SameAttempt(c, DoClose(c, code))
  {
  }

  /** Once the client is being destroyed no attempt begins any more, in any run. */
  lemma {:induction false} NoAttemptAfterDestruction(cfg: Config, c: Conn, actions: seq<Action>)
    requires c.clientClosed
    ensures Run(cfg, c, actions).generation == c.generation && Run(cfg, c, actions).clientClosed
    decreases |actions|
  {
    if actions != [] {
      var a := actions[0];
      if a.Start? || a.TimerFires? {
        DestroyedSteps(cfg, c, a);
      } else if (a.StageDone? || a.ReadDone? || a.CloseDone?) && Possible(c, a) {
        EndsBeginNothing(cfg, c, a);
      } else if !a.StageDone? && !a.ReadDone? && !a.CloseDone? {
        OthersBeginNothing(cfg, c, a);
      }
      NoAttemptAfterDestruction(cfg, Next(cfg, c, a), actions[1..]);
    }
  }

  /** The destructor's flag reaches the connection, and changes nothing else in it. */
  lemma ClientIsDestroyed(cfg: Config, c: Conn)
    ensures Next(cfg, c, ClientCloses) == c.(clientClosed := true)
  {
  }

  // ---------------------------------------------------------------- close()

  /** close() by phase: an open connection starts the close handshake with the given code, an attempt goes
      on until its stage completes, everything else is over at once; a second close() does nothing. */
  lemma CloseBegins(cfg: Config, c: Conn, code: Code)
    requires Inv(cfg, c)
    ensures var d := Next(cfg, c, CloseCall(code));
            && d.log == c.log && d.generation == c.generation
            && (c.stopRequested || c.phase == Stopped ==> d == c)
            && (!c.stopRequested && c.phase == Open ==>
                  d.phase == Closing && d.own.code == code && !d.own.done && !d.own.readDone && CloseOp(c.generation) in d.ops
                  && ReadOp(c.generation) in d.ops && d.connected && d.stopRequested)
            && (!c.stopRequested && c.phase == Connecting ==> d == c.(stopRequested := true))
            && (!c.stopRequested && (c.phase == Idle || c.phase == Waiting) ==> d.phase == Stopped && d.released && !d.connected)
  {
  }

  /** Both ends of our own close were seen: the connection is over, whatever may be retried otherwise. */
  lemma OwnCloseEnds(cfg: Config, c: Conn, ok: bool, echoed: Code)
    requires Inv(cfg, c) && c.phase == Closing && c.own.readDone
    ensures var d := Next(cfg, c, CloseDone(c.generation, ok, echoed));
            d.phase == Stopped && !d.connected && d.out.queue == [] && d.log == c.log + [OnClose(OwnCloseCode(c.own, ok, echoed))]
  {
    assert CloseOp(c.generation) in c.ops;
    CloseEndSays(cfg, c, ok, echoed);
  }
}
