/** One send() among other threads: what it may rely on between its own accesses. */
module WebSocketSends {
  import opened WebSocketClientProtocol

  /** What happens between two accesses of a send(), and whether its exchange then fails without cause. */
  datatype Round = Round(others: seq<Action>, spurious: bool)

  ghost predicate NotBy(actions: seq<Action>, t: nat) {
    forall i | 0 <= i < |actions| :: (actions[i].Send? || actions[i].SendStep? ==> actions[i].thread != t)
  }

  lemma AccessInv(cfg: Config, c: Conn, t: nat, spurious: bool)
    requires Inv(cfg, c) && t in c.out.senders
    ensures var d := c.(out := SenderStep(cfg.sendLimit, c.out, t, spurious, c.generation));
            Next(cfg, c, SendStep(t, spurious)) == d && Inv(cfg, d)
  {
    NextInv(cfg, c, SendStep(t, spurious));
  }

  /** Where send() is: on its way, done with its message posted, or refused because it was full. */
  ghost predicate Sent(c: Conn, t: nat, message: Message, done: bool, queued: bool, limit: nat) {
    if !done then t in c.out.senders && c.out.senders[t].message == message
    else if queued then
      t !in c.out.senders && c.out.posted != [] && c.out.posted[|c.out.posted| - 1] == Post(message, c.generation)
    else t !in c.out.senders && c.out.pending >= limit
  }

  lemma SenderKeptByStrand(cfg: Config, c: Conn, a: Action)
    requires !a.Send? && !a.SendStep?
    ensures SameSenders(c, Next(cfg, c, a))
  {
    if Possible(c, a) {
      match a
      case StageDone(stage, gen, outcome) => assert SameSenders(c, OnStage(cfg, c.Finish(AttemptOp(stage, gen)), stage, gen, outcome));
      case ReadDone(gen, outcome) => assert SameSenders(c, OnRead(cfg, c.Finish(ReadOp(gen)), gen, outcome));
      case CloseDone(gen, ok, echoed) => assert SameSenders(c, OnCloseDone(cfg, c.Finish(CloseOp(gen)), gen, ok, echoed));
      case _ => SenderKeptByOthers(cfg, c, a);
    }
  }

  lemma SenderKeptByOthers(cfg: Config, c: Conn, a: Action)
    requires Possible(c, a) && !a.Send? && !a.SendStep? && !a.StageDone? && !a.ReadDone? && !a.CloseDone?
    ensures SameSenders(c, Next(cfg, c, a))
  {
    match a
    case Start(urlOk) => assert SameSenders(c, Attempt(c.Finish(StartOp)));
    case TimerFires(ok) => assert SameSenders(c, OnTimer(c.Finish(TimerOp), ok));
    case _ => SenderKeptByQueue(cfg, c, a);
  }

  lemma SenderKeptByQueue(cfg: Config, c: Conn, a: Action)
    requires Possible(c, a) && (a.WriteDone? || a.RunPost? || a.CloseCall? || a.ClientCloses?)
    ensures SameSenders(c, Next(cfg, c, a))
  {
  }

  lemma SenderKept(cfg: Config, c: Conn, a: Action, t: nat)
    requires t in c.out.senders && (a.Send? || a.SendStep? ==> a.thread != t)
    ensures var d := Next(cfg, c, a); t in d.out.senders && d.out.senders[t] == c.out.senders[t]
  {
    if !a.Send? && !a.SendStep? {
      SenderKeptByStrand(cfg, c, a);
    }
  }

  lemma {:induction false} SenderMeanwhile(cfg: Config, c: Conn, actions: seq<Action>, t: nat)
    requires t in c.out.senders && NotBy(actions, t)
    ensures var d := Run(cfg, c, actions); t in d.out.senders && d.out.senders[t] == c.out.senders[t]
    decreases |actions|
  {
    if actions != [] {
      SenderKept(cfg, c, actions[0], t);
      SenderMeanwhile(cfg, Next(cfg, c, actions[0]), actions[1..], t);
    }
  }

  lemma {:induction false} RunBoth(cfg: Config, c: Conn, first: seq<Action>, second: seq<Action>)
    ensures Run(cfg, c, first + second) == Run(cfg, Run(cfg, c, first), second)
    decreases |first|
  {
    if first == [] {
      assert first + second == second;
    } else {
      assert (first + second)[1..] == first[1..] + second;
      RunBoth(cfg, Next(cfg, c, first[0]), first[1..], second);
    }
  }

  lemma RunOneMore(cfg: Config, c: Conn, actions: seq<Action>, a: Action)
    ensures Run(cfg, c, actions + [a]) == Next(cfg, Run(cfg, c, actions), a)
  {
    RunBoth(cfg, c, actions, [a]);
    assert [a][1..] == [];
  }

  lemma RunRound(cfg: Config, c: Conn, trace: seq<Action>, actions: seq<Action>, a: Action)
    ensures Run(cfg, c, trace + actions + [a]) == Next(cfg, Run(cfg, Run(cfg, c, trace), actions), a)
  {
    RunBoth(cfg, c, trace, actions);
    RunOneMore(cfg, c, trace + actions, a);
  }
}

/** The connection object: one method per handler, changing the fields in place. Each is proved
    against the handler's function above, so everything proved about runs holds of it. */
module WebSocketClientObject {
  import opened WebSocketClientProtocol
  import opened WebSocketSends

  class WsConnection {
    const cfg: Config
    var state: Phase
    var stopRequested: bool
    var generation: nat
    var failures: nat
    var own: OwnClose
    var connected: bool
    var out: Outbox
    var released: bool
    var clientClosed: bool
    var ops: multiset<Op>
    var log: seq<Event>

    function View(): Conn
      reads this
    {
      Conn(state, stopRequested, generation, failures, own, connected, released, clientClosed, out, ops, log)
    }

    constructor (cfg: Config)
      ensures View() == Init() && this.cfg == cfg && Inv(cfg, View())
    {
      this.cfg := cfg;
      state, stopRequested, generation, failures := Idle, false, 0, 0;
      own, out := OwnClose(NORMAL, false, false, false), Outbox(0, [], map[], [], [], [], false);
      connected, released, clientClosed, ops, log := false, false, false, multiset{StartOp}, [];
      InitInv(cfg);
    }

    method Emit(e: Event)
      modifies this`log
      ensures View() == old(View()).Emit(e)
    {
      if !released {
        log := log + [e];
      }
    }

    method Stop()
      modifies this`state, this`connected, this`released
      ensures View() == WebSocketClientProtocol.Stop(old(View()))
    {
      state, connected, released := Stopped, false, true;
    }

    method Attempt()
      modifies this`state, this`connected, this`released, this`generation, this`ops
      ensures View() == WebSocketClientProtocol.Attempt(old(View()))
    {
      if stopRequested || clientClosed {
        Stop();
        return;
      }
      state := Connecting;
      generation := generation + 1;
      ops := ops + multiset{AttemptOp(Resolve, generation)};
    }

    method ScheduleRetry()
      modifies this`state, this`connected, this`released, this`failures, this`log, this`ops
      ensures View() == WebSocketClientProtocol.ScheduleRetry(cfg, old(View()))
    {
      if !cfg.reconnect || stopRequested || clientClosed {
        Stop();
        return;
      }
      if cfg.maxAttempts > 0 && failures + 1 > cfg.maxAttempts {
        GiveUp();
      } else {
        WaitForRetry();
      }
    }

    /** The part of scheduleRetry() that counts the failure and gives up, */
    method GiveUp()
      modifies this`state, this`connected, this`released, this`failures, this`log
      ensures View() == WebSocketClientProtocol.Stop(old(View()).(failures := old(failures) + 1).Emit(OnError))
    {
      failures := failures + 1;
      Emit(OnError);
      Stop();
    }

    /** and the part that counts it and sets the timer. */
    method WaitForRetry()
      modifies this`state, this`failures, this`log, this`ops
      ensures View() == Wait(old(View()))
    {
      failures := failures + 1;
      state := Waiting;
      Emit(OnReconnecting(failures));
      ops := ops + multiset{TimerOp};
    }

    method AttemptFailed()
      modifies this`state, this`connected, this`released, this`failures, this`log, this`ops
      ensures View() == WebSocketClientProtocol.AttemptFailed(cfg, old(View()))
    {
      if stopRequested {
        Stop();
      } else {
        Emit(OnError);
        ScheduleRetry();
      }
    }

    method CloseOpen(code: Code)
      modifies this`state, this`own, this`ops
      ensures View() == WebSocketClientProtocol.CloseOpen(old(View()), code)
    {
      state, own := Closing, own.(code := code);
      ops := ops + multiset{CloseOp(generation)};
    }

    method OnUpgrade(outcome: AttemptOutcome)
      modifies this`state, this`connected, this`released, this`failures, this`log, this`ops, this`own, this`out
      ensures View() == WebSocketClientProtocol.OnUpgrade(cfg, old(View()), outcome)
    {
      match outcome {
        case Declined =>
          if !stopRequested {
            Emit(OnError);
          }
          Stop();
        case Fails =>
          AttemptFailed();
        case Succeeds =>
          OpenUp();
          if stopRequested {
            CloseOpen(NORMAL);
          }
      }
    }

    /** The part of onUpgrade() that opens. */
    method OpenUp()
      modifies this`state, this`connected, this`failures, this`log, this`ops, this`out
      ensures View() == Opened(old(View()))
    {
      failures := 0;
      state, connected, out := Open, true, out.(accepted := [], completed := [], writeFailed := false);
      Emit(OnOpen);
      ops := ops + multiset{ReadOp(generation)};
    }

    method Closed(code: Code)
      modifies this`state, this`connected, this`released, this`failures, this`log, this`ops, this`out
      ensures View() == WebSocketClientProtocol.Closed(cfg, old(View()), code)
    {
      connected := false;
      out := out.(pending := out.pending - |out.queue|, queue := []);
      Emit(OnClose(code));
      ghost var dropped := View();
      assert dropped == old(View()).(connected := false, out := DropQueue(old(out))).Emit(OnClose(code));
      if stopRequested || clientClosed {
        Stop();
        assert View() == WebSocketClientProtocol.Stop(dropped);
      } else {
        ScheduleRetry();
        assert View() == WebSocketClientProtocol.ScheduleRetry(cfg, dropped);
      }
    }

    method FinishOwnClose(echoed: Code)
      modifies this`state, this`connected, this`released, this`failures, this`log, this`ops, this`out
      ensures View() == WebSocketClientProtocol.FinishOwnClose(cfg, old(View()), echoed)
    {
      var code := ABNORMAL;
      if own.ok {
        code := if echoed == NO_CODE then own.code else echoed;
      }
      Closed(code);
    }

    method Ended(outcome: ReadOutcome)
      modifies this`state, this`connected, this`released, this`failures, this`log, this`ops, this`out, this`own
      ensures View() == WebSocketClientProtocol.Ended(cfg, old(View()), outcome)
    {
      if state == Closing && outcome.Aborted? {
        own := own.(readDone := true);
        if own.done {
          FinishOwnClose(outcome.code);
        }
        return;
      }
      var code := ABNORMAL;
      if outcome.PeerClosed? {
        code := if outcome.code == NO_CODE then NO_STATUS else outcome.code;
      } else if outcome.Broken? && !stopRequested {
        Emit(OnError);
      }
      Closed(code);
    }

    /** The handler of async_write. */
    method Written(gen: nat, ok: bool)
      modifies this`out, this`ops
      ensures View() == OnWrite(old(View()), gen, ok)
    {
      if gen != generation || state == Stopped || out.queue == [] {
        return;
      }
      if !ok {
        out := out.(writeFailed := true);
        return;
      }
      out := out.(completed := out.completed + [out.queue[0]], queue := out.queue[1..], pending := out.pending - 1);
      if out.queue != [] {
        ops := ops + multiset{WriteOp(gen, out.queue[0])};
      }
    }

    /** What send() posted, on the strand. */
    method Enqueue(i: nat)
      requires i < |out.posted|
      modifies this`out, this`ops
      ensures View() == OnPost(old(View()), i)
    {
      var p := out.posted[i];
      out := out.(posted := out.posted[..i] + out.posted[i + 1..]);
      if state != Open || p.gen != generation {
        out := out.(pending := out.pending - 1);
        return;
      }
      out := out.(queue := out.queue + [p.message], accepted := out.accepted + [p.message]);
      if |out.queue| == 1 {
        ops := ops + multiset{WriteOp(generation, out.queue[0])};
      }
    }

    /** The compare-exchange loop of send() while no other thread gets in between: refused when not
        connected or full, otherwise reserved and posted. */
    method SendAlone(t: nat, message: Message, spurious: nat) returns (queued: bool)
      requires t !in out.senders
      modifies this`out
      ensures queued <==> old(connected) && old(out).pending < cfg.sendLimit
      ensures queued ==> View() == old(View()).(out := old(out).(pending := old(out).pending + 1, posted := old(out).posted + [Post(message, generation)]))
      ensures !queued ==> View() == old(View())
    {
      if !connected {
        return false;
      }
      var current := out.pending;
      var failuresLeft := spurious;
      while true
        invariant current == out.pending && View() == old(View())
        decreases failuresLeft
      {
        if current >= cfg.sendLimit {
          return false;
        }
        if failuresLeft == 0 {
          break;
        }
        failuresLeft := failuresLeft - 1;
        current := out.pending;
      }
      out := out.(pending := current + 1);
      out := out.(posted := out.posted + [Post(message, generation)]);
      return true;
    }

    method DoClose(code: Code)
      modifies this`state, this`connected, this`released, this`stopRequested, this`own, this`ops
      ensures View() == WebSocketClientProtocol.DoClose(old(View()), code)
    {
      if stopRequested || state == Stopped {
        return;
      }
      stopRequested := true;
      if state == Open {
        CloseOpen(code);
      } else if state != Connecting {
        Stop();
      }
    }

    // ---------------------------------------------------------------- any step

    /** The handlers of async_resolve, async_connect and the two handshakes. */
    method StageEnds(stage: Stage, gen: nat, outcome: AttemptOutcome)
      modifies this
      ensures View() == OnStage(cfg, old(View()), stage, gen, outcome)
    {
      if gen != generation || state == Stopped {
        return;
      }
      if stage == Upgrade {
        OnUpgrade(outcome);
      } else if outcome != Succeeds {
        AttemptFailed();
      } else {
        var next := match stage case Resolve => Connect case Connect => (if cfg.tls then Handshake else Upgrade) case _ => Upgrade;
        ops := ops + multiset{AttemptOp(next, gen)};
      }
    }

    /** The handler of async_read. */
    method ReadEnds(gen: nat, outcome: ReadOutcome)
      modifies this
      ensures View() == OnRead(cfg, old(View()), gen, outcome)
    {
      if gen != generation || state == Stopped {
        return;
      }
      if outcome.GotMessage? {
        Emit(OnMessage);
        ops := ops + multiset{ReadOp(gen)};
      } else {
        Ended(outcome);
      }
    }

    /** The handler of async_close. */
    method CloseEnds(gen: nat, ok: bool, echoed: Code)
      modifies this
      ensures View() == OnCloseDone(cfg, old(View()), gen, ok, echoed)
    {
      if gen != generation || state == Stopped {
        return;
      }
      own := own.(done := true, ok := ok);
      if own.readDone {
        FinishOwnClose(echoed);
      }
    }

    /** The next access of a send() of thread t: true in `queued` with its last one, the post. */
    method SenderAccess(t: nat, spurious: bool) returns (done: bool, queued: bool)
      requires t in out.senders
      modifies this`out
      ensures View() == old(View()).(out := SenderStep(cfg.sendLimit, old(out), t, spurious, generation))
      ensures done == (t !in out.senders) && queued == old(out).senders[t].Reserved?
      ensures queued ==> done && out.posted == old(out).posted + [Post(old(out).senders[t].message, generation)]
      ensures done && !queued ==> out.pending >= cfg.sendLimit
      ensures !done ==> out.senders[t].message == old(out).senders[t].message
    {
      done, queued := false, false;
      var s := out.senders[t];
      if s.Reserved? {
        out := out.(posted := out.posted + [Post(s.message, generation)], senders := out.senders - {t});
        return true, true;
      }
      if s.Claiming? && s.current == out.pending && !spurious {
        out := out.(pending := out.pending + 1, senders := out.senders[t := Reserved(s.message)]);
        return;
      }
      if out.pending >= cfg.sendLimit {
        out := out.(senders := out.senders - {t});
        return true, false;
      }
      out := out.(senders := out.senders[t := Claiming(s.message, out.pending)]);
    }

    method TakeToken(op: Op)
      modifies this`ops
      ensures View() == old(View()).Finish(op)
    {
      ops := ops - multiset{op};
    }

    /** A completion takes its token and runs its handler: while nothing is open, */
    method CompleteAttempt(a: Action)
      requires Possible(View(), a) && (a.Start? || a.StageDone? || a.TimerFires?)
      modifies this
      ensures View() == Next(cfg, old(View()), a)
    {
      match a {
        case Start(urlOk) =>
          TakeToken(StartOp);
          Begun(urlOk);
        case StageDone(stage, gen, outcome) =>
          TakeToken(AttemptOp(stage, gen));
          StageEnds(stage, gen, outcome);
        case TimerFires(ok) =>
          TakeToken(TimerOp);
          TimerFired(ok);
      }
    }

    method CompleteRead(gen: nat, outcome: ReadOutcome)
      requires ReadOp(gen) in ops
      modifies this
      ensures View() == OnRead(cfg, old(View()).Finish(ReadOp(gen)), gen, outcome)
    {
      TakeToken(ReadOp(gen));
      ReadEnds(gen, outcome);
    }

    method CompleteWrite(gen: nat, m: Message, ok: bool)
      requires WriteOp(gen, m) in ops
      modifies this
      ensures View() == OnWrite(old(View()).Finish(WriteOp(gen, m)), gen, ok)
    {
      TakeToken(WriteOp(gen, m));
      Written(gen, ok);
    }

    method CompleteClose(gen: nat, ok: bool, echoed: Code)
      requires CloseOp(gen) in ops
      modifies this
      ensures View() == OnCloseDone(cfg, old(View()).Finish(CloseOp(gen)), gen, ok, echoed)
    {
      TakeToken(CloseOp(gen));
      CloseEnds(gen, ok, echoed);
    }

    /** and on an open connection. */
    method CompleteOpen(a: Action)
      requires Possible(View(), a) && (a.ReadDone? || a.WriteDone? || a.CloseDone?)
      modifies this
      ensures View() == Next(cfg, old(View()), a)
    {
      match a {
        case ReadDone(gen, outcome) => CompleteRead(gen, outcome);
        case WriteDone(gen, m, ok) => CompleteWrite(gen, m, ok);
        case CloseDone(gen, ok, echoed) => CompleteClose(gen, ok, echoed);
      }
    }

    /** What start() dispatched. */
    method Begun(urlOk: bool)
      modifies this
      ensures View() == if urlOk then WebSocketClientProtocol.Attempt(old(View())) else WebSocketClientProtocol.Stop(old(View()).Emit(OnError))
    {
      if urlOk {
        Attempt();
      } else {
        Emit(OnError);
        Stop();
      }
    }

    /** The handler of the retry timer. */
    method TimerFired(ok: bool)
      modifies this
      ensures View() == OnTimer(old(View()), ok)
    {
      if ok && state == Waiting {
        Attempt();
      }
    }

    /** Any step of the connection or of a thread in send(); a step that is not possible does nothing. */
    method Step(a: Action)
      requires Inv(cfg, View())
      modifies this
      ensures View() == Next(cfg, old(View()), a) && Inv(cfg, View())
    {
      NextInv(cfg, View(), a);
      if !Possible(View(), a) {
        return;
      }
      match a {
        case CloseCall(_) => Posted(a);
        case RunPost(_) => Posted(a);
        case ClientCloses => FromOutside(a);
        case Send(_, _) => FromOutside(a);
        case SendStep(_, _) => FromOutside(a);
        case Start(_) => CompleteAttempt(a);
        case StageDone(_, _, _) => CompleteAttempt(a);
        case TimerFires(_) => CompleteAttempt(a);
        case _ => CompleteOpen(a);
      }
    }

    /** What other threads do themselves. */
    method FromOutside(a: Action)
      requires Possible(View(), a) && (a.ClientCloses? || a.Send? || a.SendStep?)
      modifies this
      ensures View() == Next(cfg, old(View()), a)
    {
      match a {
        case ClientCloses => clientClosed := true;
        case Send(t, m) => out := out.(senders := out.senders[t := Checked(m)]);
        case SendStep(t, spurious) => var _, _ := SenderAccess(t, spurious);
      }
    }

    /** What they posted to the strand. */
    method Posted(a: Action)
      requires Possible(View(), a) && (a.CloseCall? || a.RunPost?)
      modifies this
      ensures View() == Next(cfg, old(View()), a)
    {
      match a {
        case CloseCall(code) => DoClose(code);
        case RunPost(i) => Enqueue(i);
      }
    }

    method Steps(actions: seq<Action>)
      requires Inv(cfg, View())
      modifies this
      ensures View() == Run(cfg, old(View()), actions) && Inv(cfg, View())
    {
      ghost var before := View();
      for i := 0 to |actions|
        invariant Inv(cfg, View()) && Run(cfg, before, actions) == Run(cfg, View(), actions[i..])
      {
        assert actions[i..][1..] == actions[i + 1..];
        Step(actions[i]);
      }
    }

    /** send() among other threads and the strand: in each round those take any steps, then comes the next
        access of this send(), whose exchange may fail without cause. True means that its message was
        posted, false that the connection was not open, or full at that moment. */
    method Send(t: nat, message: Message, rounds: seq<Round>) returns (done: bool, queued: bool, ghost trace: seq<Action>)
      requires Inv(cfg, View()) && t !in out.senders
      requires forall i | 0 <= i < |rounds| :: NotBy(rounds[i].others, t)
      modifies this
      ensures Inv(cfg, View()) && View() == Run(cfg, old(View()), trace)
      ensures Sent(View(), t, message, done, queued, cfg.sendLimit) || (done && !queued && trace == [] && !old(connected))
    {
      ghost var before := View();
      trace := [];
      if !connected {
        return true, false, [];
      }
      trace := [WebSocketClientProtocol.Send(t, message)];
      RunOneMore(cfg, before, [], WebSocketClientProtocol.Send(t, message));
      assert [] + trace == trace;
      BeginSend(t, message);
      done, queued := false, false;
      var i := 0;
      while !done && i < |rounds|
        invariant 0 <= i <= |rounds|
        invariant Inv(cfg, View()) && View() == Run(cfg, before, trace)
        invariant Sent(View(), t, message, done, queued, cfg.sendLimit)
        decreases |rounds| - i
      {
        RunRound(cfg, before, trace, rounds[i].others, SendStep(t, rounds[i].spurious));
        done, queued := SendRound(t, message, rounds[i]);
        trace := trace + rounds[i].others + [SendStep(t, rounds[i].spurious)];
        i := i + 1;
      }
    }

    method BeginSend(t: nat, message: Message)
      requires Inv(cfg, View()) && t !in out.senders && connected
      modifies this
      ensures Inv(cfg, View()) && View() == Next(cfg, old(View()), WebSocketClientProtocol.Send(t, message))
      ensures Sent(View(), t, message, false, false, cfg.sendLimit)
    {
      Step(WebSocketClientProtocol.Send(t, message));
    }

    /** The steps of the others, then the next access of this send(). */
    method SendRound(t: nat, message: Message, round: Round) returns (done: bool, queued: bool)
      requires Inv(cfg, View()) && t in out.senders && out.senders[t].message == message && NotBy(round.others, t)
      modifies this
      ensures Inv(cfg, View())
      ensures View() == Next(cfg, Run(cfg, old(View()), round.others), SendStep(t, round.spurious))
      ensures Sent(View(), t, message, done, queued, cfg.sendLimit)
    {
      SenderMeanwhile(cfg, View(), round.others, t);
      Steps(round.others);
      done, queued := OwnAccess(t, message, round.spurious);
    }

    method OwnAccess(t: nat, message: Message, spurious: bool) returns (done: bool, queued: bool)
      requires Inv(cfg, View()) && t in out.senders && out.senders[t].message == message
      modifies this
      ensures Inv(cfg, View()) && View() == Next(cfg, old(View()), SendStep(t, spurious))
      ensures Sent(View(), t, message, done, queued, cfg.sendLimit)
    {
      AccessInv(cfg, View(), t, spurious);
      done, queued := SenderAccess(t, spurious);
    }
  }
}
