/** Which result a call of the HTTP client gets, and how a call goes on from one operation to the next
    (sources/Client/HttpClient.cpp:248-522). */
module CallResults {
  import opened Optional
  import opened HttpCallProtocol

  // ---------------------------------------------------------------- failures

  /** The error of a call whose operation failed and that is not retried. */
  function Reason(c: Call, failure: Failure): Error {
    if c.aborted.Some? then Aborted(c.aborted.value)
    else
      match failure
      case LimitReached => TooLarge
      case StreamTimedOut => StreamTimeout
      case OtherError => Network
  }

  /** A failed operation never makes a call succeed: unless it is retried, the call ends with the abort's
      reason if there was one, otherwise with the error's own. */
  lemma FailureResult(c: Call, op: Op, failure: Failure, gotSome: bool)
    requires Inv(c) && op in c.pending && Fits(op, Broken(failure, gotSome))
    ensures var d := Next(c, Completes(op, Broken(failure, gotSome)));
            && d.past.results == (if d.finished then [Failed(Reason(c, failure))] else [])
            && (c.aborted.Some? || failure != OtherError ==> d.finished)
  {
    OnlyOp(c, op);
  }

  /** The call that finds its abort, its URL or its host name wrong on the way, without a failed operation. */
  lemma RefusedResult(c: Call, op: Op, o: Outcome)
    requires Inv(c) && op in c.pending && Fits(op, o)
    ensures var d := Next(c, Completes(op, o));
            && (op.BeginOp? && o.BadUrl? ==> d.past.results == [Failed(InvalidUrl)])
            && (op.RefuseOp? ==> d.past.results == [Failed(Aborted(ClientClosed))])
            && (op.ResolveOp? && o.Done? && c.aborted.Some? ==> d.past.results == [Failed(Aborted(c.aborted.value))])
            && (op.ConnectOp? && o.Connected? && c.job.tls && !o.sni ==> d.past.results == [Failed(Network)])
  {
    OnlyOp(c, op);
  }

  /** An abort is taken by every call that is not finished and was not aborted before. */
  lemma AbortIsTaken(c: Call, why: HttpCallProtocol.Abort)
    ensures Next(c, Aborts(why)) == if c.finished || c.aborted.Some? then c else c.(aborted := Some(why))
  {
  }

  /** A retry by method: those of section 9.2.2 of RFC 9110 are sent again whenever nothing was received, any
      other only if it was still being written. It starts over: no connection, no parser, no bytes done. */
  lemma RetriedByMethod(c: Call, op: Op)
    requires Inv(c) && op in c.pending && Fits(op, Broken(OtherError, false)) && c.aborted.None?
    ensures var d := Next(c, Completes(op, Broken(OtherError, false)));
            && (c.reused && (c.parser.Some? ==> !c.parser.value.gotSome) ==>
                  (!d.finished <==> c.job.verb in {Get, Head, Options, Put, Delete, Trace} || op == WriteHeaderOp || op == WriteSomeOp))
            && (!d.finished ==> c.reused && d.conn.None? && d.parser.None? && d.retried && d.past.sends == c.past.sends
                                && d.meter == c.meter.(up := 0, reported := 0))
  {
    RetriedExactlyWhen(c, op, OtherError, false);
    OnlyOp(c, op);
  }

  // ---------------------------------------------------------------- successes

  /** The step that completes the response: the end of a read that was pending. */
  predicate Succeeds(c: Call, a: Action) {
    a.Completes? && a.op.Reading() && a.op in c.pending && a.outcome.Got? && a.outcome.complete
  }

  lemma OnlySuccessGivesResponse(c: Call, a: Action)
    requires Inv(c) && !c.finished
    ensures Response in Next(c, a).past.results <==> Succeeds(c, a)
  {
    if a.Completes? && a.op in c.pending && Fits(a.op, a.outcome) {
      OnlyOp(c, a.op);
      ReadingHasParser(c, a.op);
      if a.outcome.Broken? {
        FailureResult(c, a.op, a.outcome.failure, a.outcome.gotSome);
      } else if a.op.Reading() {
        ReadGives(c, a.op, a.outcome);
      } else if a.op.Writing() {
        WriteGives(c, a.op, a.outcome);
      } else {
        ConnectGives(c, a.op, a.outcome);
      }
    }
  }

  lemma ReadGives(c: Call, op: Op, o: Outcome)
    requires Inv(c) && op in c.pending && op.Reading() && o.Got?
    ensures Next(c, Completes(op, o)).past.results == if o.complete then [Response] else []
  {
    OnlyOp(c, op);
    ReadingHasParser(c, op);
  }

  lemma WriteGives(c: Call, op: Op, o: Outcome)
    requires Inv(c) && op in c.pending && op.Writing() && o.Written?
    ensures Next(c, Completes(op, o)).past.results == []
  {
    OnlyOp(c, op);
  }

  lemma ConnectGives(c: Call, op: Op, o: Outcome)
    requires Inv(c) && op in c.pending && !op.Writing() && !op.Reading() && Fits(op, o) && !o.Broken?
    ensures Response !in Next(c, Completes(op, o)).past.results
  {
    OnlyOp(c, op);
  }

  ghost predicate SucceedsIn(c: Call, actions: seq<Action>)
    decreases |actions|
  {
    actions != [] && (Succeeds(c, actions[0]) || SucceedsIn(Next(c, actions[0]), actions[1..]))
  }

  lemma {:induction false} NoSecondSuccess(c: Call, actions: seq<Action>)
    requires Inv(c) && c.finished
    ensures !SucceedsIn(c, actions)
    decreases |actions|
  {
    if actions != [] {
      assert |c.pending| == 0;
      assert c.pending == multiset{};
      FinishedForGood(c, [actions[0]]);
      assert [actions[0]][1..] == [];
      assert Run(c, [actions[0]]) == Next(c, actions[0]);
      NoSecondSuccess(c, actions[1..]);
    }
  }

  lemma {:induction false} RunSucceeds(c: Call, actions: seq<Action>)
    requires Inv(c) && !c.finished
    ensures Run(c, actions).past.results == [Response] <==> SucceedsIn(c, actions)
    decreases |actions|
  {
    if actions != [] {
      var d := Next(c, actions[0]);
      NextInv(c, actions[0]);
      OnlySuccessGivesResponse(c, actions[0]);
      if d.finished {
        FinishedForGood(d, actions[1..]);
        NoSecondSuccess(d, actions[1..]);
        OneResult(d);
      } else {
        RunSucceeds(d, actions[1..]);
      }
    }
  }

  lemma OneResult(c: Call)
    requires Inv(c) && c.finished
    ensures Response in c.past.results <==> c.past.results == [Response]
  {
    assert c.past.results == [c.past.results[0]];
  }

  /** In every run a call succeeds if and only if one of its reads completed the response. */
  lemma SucceedsExactlyWhen(job: Job, clientClosed: bool, actions: seq<Action>)
    ensures Run(Init(job, clientClosed), actions).past.results == [Response] <==> SucceedsIn(Init(job, clientClosed), actions)
  {
    InitInv(job, clientClosed);
    RunSucceeds(Init(job, clientClosed), actions);
  }

  // ---------------------------------------------------------------- from one operation to the next

  /** Up to the first transmission: resolve, connect, the handshake for TLS only, then the header, on the
      connection that was made. */
  lemma ConnectsInOrder(c: Call, op: Op, o: Outcome)
    requires Inv(c) && op in c.pending && Fits(op, o) && c.aborted.None?
    ensures var d := Next(c, Completes(op, o));
            && (op.ResolveOp? && o.Done? ==> d == c.(pending := multiset{ConnectOp}))
            && (op.ConnectOp? && o.Connected? && (c.job.tls ==> o.sni) ==>
                  && d.conn == Some(o.conn) && d.parser.None? && !d.finished
                  && d.pending == multiset{if c.job.tls then TlsOp else WriteHeaderOp}
                  && d.past.sends == c.past.sends + (if c.job.tls then [] else [c.reused]))
            && (op.TlsOp? && o.Done? ==>
                  d.conn == c.conn && d.pending == multiset{WriteHeaderOp} && d.past.sends == c.past.sends + [c.reused])
  {
    OnlyOp(c, op);
  }

  /** The request is written until the serializer is done, then the response is read: every byte written
      counts, and the progress of the download starts at zero. */
  lemma WritesInOrder(c: Call, op: Op, n: nat, serialized: bool, late: bool)
    requires Inv(c) && op in c.pending && op.Writing()
    ensures var d := Next(c, Completes(op, Written(n, serialized, late)));
            && !d.finished && d.conn == c.conn && d.past == c.past
            && d.meter.up == c.meter.up + (if op.WriteSomeOp? then n else 0)
            && (if serialized then d.pending == multiset{ReadHeaderOp} && d.parser == Some(Parser(false, 0)) && d.meter.reported == 0
                else d.pending == multiset{WriteSomeOp} && d.parser.None?)
  {
    OnlyOp(c, op);
    if op.WriteSomeOp? {
      assert Uploaded(c.(pending := multiset{}), n, late).meter.up == c.meter.up + n;
    }
  }

  lemma BodyGoesOn(c: Call, keepAlive: bool)
    requires c.parser.Some? && !c.finished && c.pending == multiset{}
    ensures var d := ReadBody(c, false, keepAlive); d == c.(pending := multiset{ReadSomeOp})
    ensures var d := ReadBody(c, true, keepAlive);
            d.finished && d.pending == multiset{} && d.parser == c.parser && d.meter.down == c.parser.value.body
  {
  }

  lemma Reads(c: Call, op: Op, n: nat, complete: bool, keepAlive: bool, late: bool)
    requires c.parser.Some? && op.Reading()
    ensures OnDone(c, op, Got(n, complete, keepAlive, late))
         == ReadBody(if op.ReadSomeOp? then Downloaded(c, n, late) else Received(c, n, true), complete, keepAlive)
  {
  }

  /** The response is read until it is complete, and every byte of it counts. */
  lemma ReadsInOrder(c: Call, op: Op, n: nat, complete: bool, keepAlive: bool, late: bool)
    requires Inv(c) && op in c.pending && op.Reading()
    ensures var d := Next(c, Completes(op, Got(n, complete, keepAlive, late)));
            && c.parser.Some? && d.parser == Some(Parser(true, c.parser.value.body + n))
            && d.finished == complete && d.pending == (if complete then multiset{} else multiset{ReadSomeOp})
            && (complete || op.ReadSomeOp? ==> d.meter.down == c.parser.value.body + n)
  {
    OnlyOp(c, op);
    ReadingHasParser(c, op);
    var e := c.(pending := multiset{});
    var r := if op.ReadSomeOp? then Downloaded(e, n, late) else Received(e, n, true);
    Reads(e, op, n, complete, keepAlive, late);
    BodyGoesOn(r, keepAlive);
  }

  // ---------------------------------------------------------------- progress

  /** A report is made if and only if it is the last, enough bytes are new, or enough time has passed;
      afterwards less than 64 KiB are unreported. */
  lemma ReportsEnough(m: Meter, upload: bool, done: nat, last: bool, late: bool)
    requires m.reported <= done
    ensures var r := Report(m, upload, done, last, late);
            && r.up == m.up && r.down == m.down
            && done - r.reported < PROGRESS_BYTES
            && (if last || late || done - m.reported >= 65536 then r.reported == done && r.shown == m.shown + [Shown(upload, done)]
                else r.reported == m.reported && r.shown == m.shown)
            && r.gaps == (if last then m.gaps else m.gaps + [done - m.reported])
  {
  }

  /** What a report in between shows, when so many bytes were reported before. */
  function Between(upload: bool, reported: int, done: nat, late: bool): seq<Shown> {
    if late || done - reported >= PROGRESS_BYTES then [Shown(upload, done)] else []
  }

  /** The upload of a body: in between, and when it is complete. */
  function UploadShows(c: Call, some: bool, n: nat, serialized: bool, late: bool): seq<Shown> {
    if !c.job.wantsProgress || !c.job.hasBody then []
    else
      var up := c.meter.up + (if some then n else 0);
      (if some then Between(true, c.meter.reported, up, late) else []) + (if serialized then [Shown(true, up)] else [])
  }

  /** The download: in between, and when it is complete. */
  function ResponseShows(c: Call, some: bool, n: nat, complete: bool, late: bool): seq<Shown> {
    if !c.job.wantsProgress || c.parser.None? then []
    else
      var down := c.parser.value.body + n;
      (if some then Between(false, c.meter.reported, down, late) else []) + (if complete then [Shown(false, down)] else [])
  }

  function HandlerSays(c: Call, op: Op, o: Outcome): seq<Shown> {
    match o
    case Written(n, serialized, late) => UploadShows(c, op.WriteSomeOp?, n, serialized, late)
    case Got(n, complete, _, late) => ResponseShows(c, op.ReadSomeOp?, n, complete, late)
    case _ => []
  }

  /** What a step shows the user. */
  function Shows(c: Call, a: Action): seq<Shown> {
    if a.Completes? && a.op in c.pending && Fits(a.op, a.outcome) then HandlerSays(c, a.op, a.outcome) else []
  }

  lemma SomeUploaded(c: Call, n: nat, late: bool)
    ensures var d := Uploaded(c, n, late);
            && d.job == c.job && d.meter.up == c.meter.up + n
            && d.meter.shown == c.meter.shown + UploadShows(c, true, n, false, late)
  {
  }

  lemma RequestShows(c: Call, serialized: bool)
    ensures WriteBody(c, serialized).meter.shown == c.meter.shown + UploadShows(c, false, 0, serialized, false)
  {
  }

  lemma WriteShows(c: Call, op: Op, o: Outcome)
    requires op.Writing() && o.Written?
    ensures OnDone(c, op, o).meter.shown == c.meter.shown + UploadShows(c, op.WriteSomeOp?, o.n, o.serialized, o.late)
  {
    if op.WriteSomeOp? {
      SomeUploaded(c, o.n, o.late);
      RequestShows(Uploaded(c, o.n, o.late), o.serialized);
    } else {
      RequestShows(c, o.serialized);
    }
  }

  lemma BodyShows(c: Call, complete: bool, keepAlive: bool)
    requires c.parser.Some?
    ensures ReadBody(c, complete, keepAlive).meter.shown
         == c.meter.shown + (if complete && c.job.wantsProgress then [Shown(false, c.parser.value.body)] else [])
  {
  }

  lemma DownloadShows(c: Call, n: nat, late: bool)
    requires c.parser.Some?
    ensures var d := Downloaded(c, n, late);
            var down := c.parser.value.body + n;
            && d.parser == Some(Parser(true, down)) && d.job == c.job
            && d.meter.shown == c.meter.shown + (if c.job.wantsProgress then Between(false, c.meter.reported, down, late) else [])
  {
  }

  lemma SomeReadShows(c: Call, n: nat, complete: bool, keepAlive: bool, late: bool)
    requires c.parser.Some?
    ensures ReadBody(Downloaded(c, n, late), complete, keepAlive).meter.shown == c.meter.shown + ResponseShows(c, true, n, complete, late)
  {
    DownloadShows(c, n, late);
    BodyShows(Downloaded(c, n, late), complete, keepAlive);
  }

  lemma HeaderReadShows(c: Call, n: nat, complete: bool, keepAlive: bool)
    requires c.parser.Some?
    ensures ReadBody(Received(c, n, true), complete, keepAlive).meter.shown == c.meter.shown + ResponseShows(c, false, n, complete, false)
  {
    BodyShows(Received(c, n, true), complete, keepAlive);
  }

  lemma ReadShows(c: Call, op: Op, o: Outcome)
    requires op.Reading() && o.Got? && c.parser.Some?
    ensures OnDone(c, op, o).meter.shown == c.meter.shown + ResponseShows(c, op.ReadSomeOp?, o.n, o.complete, o.late)
  {
    Reads(c, op, o.n, o.complete, o.keepAlive, o.late);
    if op.ReadSomeOp? {
      SomeReadShows(c, o.n, o.complete, o.keepAlive, o.late);
    } else {
      HeaderReadShows(c, o.n, o.complete, o.keepAlive);
    }
  }

  lemma OthersShowNothing(c: Call, op: Op, o: Outcome)
    requires Fits(op, o) && !o.Written? && !o.Got?
    ensures OnDone(c, op, o).meter.shown == c.meter.shown
  {
  }

  /** What a handler shows does not depend on the token it took. */
  lemma HandlerShows(c: Call, op: Op, o: Outcome)
    requires Fits(op, o) && (op.Reading() ==> c.parser.Some?)
    ensures OnDone(c, op, o).meter.shown == c.meter.shown + HandlerSays(c, op, o)
  {
    if o.Written? {
      WriteShows(c, op, o);
    } else if o.Got? {
      ReadShows(c, op, o);
    } else {
      OthersShowNothing(c, op, o);
    }
  }

  /** Every step shows the user exactly what is declared above. */
  lemma EveryStepShows(c: Call, a: Action)
    requires Inv(c)
    ensures Next(c, a).meter.shown == c.meter.shown + Shows(c, a)
  {
    if a.Completes? && a.op in c.pending && Fits(a.op, a.outcome) {
      ReadingHasParser(c, a.op);
      var e := c.(pending := c.pending - multiset{a.op});
      HandlerShows(e, a.op, a.outcome);
      TokensShowNothing(c, c.pending - multiset{a.op}, a);
      assert Next(c, a) == OnDone(e, a.op, a.outcome);
    }
  }

  lemma TokensShowNothing(c: Call, pending: multiset<Op>, a: Action)
    requires a.Completes? && a.op in c.pending && Fits(a.op, a.outcome)
    ensures Shows(c, a) == HandlerSays(c.(pending := pending), a.op, a.outcome)
  {
  }

  function AllShown(c: Call, actions: seq<Action>): seq<Shown>
    decreases |actions|
  {
    if actions == [] then [] else Shows(c, actions[0]) + AllShown(Next(c, actions[0]), actions[1..])
  }

  lemma Regroup(a: seq<Shown>, b: seq<Shown>, c: seq<Shown>)
    ensures a + (b + c) == (a + b) + c
  {
  }

  lemma {:induction false} RunShows(c: Call, actions: seq<Action>)
    requires Inv(c)
    ensures Run(c, actions).meter.shown == c.meter.shown + AllShown(c, actions)
    decreases |actions|
  {
    if actions != [] {
      var d := Next(c, actions[0]);
      EveryStepShows(c, actions[0]);
      NextInv(c, actions[0]);
      RunShows(d, actions[1..]);
      Regroup(c.meter.shown, Shows(c, actions[0]), AllShown(d, actions[1..]));
    }
  }

  /** In every run the reports are exactly those of its steps, in order. */
  lemma EveryRunShows(job: Job, clientClosed: bool, actions: seq<Action>)
    ensures Run(Init(job, clientClosed), actions).meter.shown == AllShown(Init(job, clientClosed), actions)
  {
    InitInv(job, clientClosed);
    RunShows(Init(job, clientClosed), actions);
  }

  // ---------------------------------------------------------------- a whole call

  lemma RunOne(c: Call, a: Action, rest: seq<Action>)
    ensures Run(c, [a] + rest) == Run(Next(c, a), rest)
  {
    assert ([a] + rest)[1..] == rest;
  }

  /** A call on a new connection whose operations all succeed at the first try gets its response, and its
      connection goes to the keep-alive pool if it may. */
  lemma UnhinderedCall(job: Job, conn: Conn, keepAlive: bool)
    ensures var before := [Completes(BeginOp, Begun(None)), Completes(ResolveOp, Done), Completes(ConnectOp, Connected(conn, true))];
            var after := [Completes(WriteHeaderOp, Written(0, true, false)), Completes(ReadHeaderOp, Got(0, true, keepAlive, false))];
            var d := Run(Init(job, false), before + ((if job.tls then [Completes(TlsOp, Done)] else []) + after));
            && d.past.results == [Response] && d.past.sends == [false]
            && d.past.given == if keepAlive then [conn] else []
  {
    var c0 := Init(job, false);
    var a0, a1, a2 := Completes(BeginOp, Begun(None)), Completes(ResolveOp, Done), Completes(ConnectOp, Connected(conn, true));
    var a4, a5 := Completes(WriteHeaderOp, Written(0, true, false)), Completes(ReadHeaderOp, Got(0, true, keepAlive, false));
    var rest := (if job.tls then [Completes(TlsOp, Done)] else []) + [a4, a5];
    Connection(job, conn);
    RunThree(c0, a0, a1, a2, rest);
    var c3 := Next(Next(Next(c0, a0), a1), a2);
    if job.tls {
      var c4 := Next(c3, Completes(TlsOp, Done));
      ConnectsInOrder(c3, TlsOp, Done);
      NextInv(c3, Completes(TlsOp, Done));
      RunOne(c3, Completes(TlsOp, Done), [a4, a5]);
      Exchange(c4, conn, keepAlive);
    } else {
      assert rest == [a4, a5];
      Exchange(c3, conn, keepAlive);
    }
  }

  lemma Unfold(a: Action, b: Action, d: Action, rest: seq<Action>)
    ensures [a, b, d] + rest == [a] + ([b] + ([d] + rest))
  {
  }

  lemma RunThree(c: Call, a: Action, b: Action, d: Action, rest: seq<Action>)
    ensures Run(c, [a, b, d] + rest) == Run(Next(Next(Next(c, a), b), d), rest)
  {
    Unfold(a, b, d, rest);
    RunOne(c, a, [b] + ([d] + rest));
    RunOne(Next(c, a), b, [d] + rest);
    RunOne(Next(Next(c, a), b), d, rest);
  }

  /** The first three operations of a call that finds no idle connection. */
  lemma Connection(job: Job, conn: Conn)
    ensures var c1 := Next(Init(job, false), Completes(BeginOp, Begun(None)));
            var c3 := Next(Next(c1, Completes(ResolveOp, Done)), Completes(ConnectOp, Connected(conn, true)));
            && Inv(c3) && c3.job == job && c3.conn == Some(conn) && c3.aborted.None? && !c3.reused
            && c3.pending == multiset{if job.tls then TlsOp else WriteHeaderOp}
            && c3.past.sends == (if job.tls then [] else [false])
  {
    var c0 := Init(job, false);
    InitInv(job, false);
    StartsOnIdle(job, None);
    NextInv(c0, Completes(BeginOp, Begun(None)));
    var c1 := Next(c0, Completes(BeginOp, Begun(None)));
    ConnectsInOrder(c1, ResolveOp, Done);
    NextInv(c1, Completes(ResolveOp, Done));
    var c2 := Next(c1, Completes(ResolveOp, Done));
    ConnectsInOrder(c2, ConnectOp, Connected(conn, true));
    NextInv(c2, Completes(ConnectOp, Connected(conn, true)));
  }

  lemma Exchange(c: Call, conn: Conn, keepAlive: bool)
    requires Inv(c) && c.pending == multiset{WriteHeaderOp} && c.conn == Some(conn) && c.aborted.None?
    ensures var d := Run(c, [Completes(WriteHeaderOp, Written(0, true, false)), Completes(ReadHeaderOp, Got(0, true, keepAlive, false))]);
            && d.past.results == [Response] && d.past.sends == c.past.sends && d.finished
            && d.past.given == if keepAlive then [conn] else []
  {
    var a4, a5 := Completes(WriteHeaderOp, Written(0, true, false)), Completes(ReadHeaderOp, Got(0, true, keepAlive, false));
    RequestSent(c);
    GivenBackExactlyWhen(Next(c, a4), ReadHeaderOp, 0, keepAlive, false);
    RunPair(c, a4, a5);
  }

  lemma RequestSent(c: Call)
    requires Inv(c) && c.pending == multiset{WriteHeaderOp}
    ensures var d := Next(c, Completes(WriteHeaderOp, Written(0, true, false)));
            Inv(d) && d.pending == multiset{ReadHeaderOp} && d.conn == c.conn && d.past == c.past && d.aborted == c.aborted
  {
    WritesInOrder(c, WriteHeaderOp, 0, true, false);
    NextInv(c, Completes(WriteHeaderOp, Written(0, true, false)));
  }

  lemma RunPair(c: Call, a: Action, b: Action)
    ensures Run(c, [a, b]) == Next(Next(c, a), b)
  {
    assert [a, b][1..] == [b] && [b][1..] == [];
    assert Run(Next(c, a), [b]) == Next(Next(c, a), b);
  }
}
