/** One HTTP call of the client (CallState in sources/Client/HttpClient.cpp): a chain of asynchronous
    operations on a strand, which may be aborted at any moment, and retried once.

    Each handler is one step. Operations are tokens in `pending`; what they end with, and which idle
    connection takeIdle() finds, is arbitrary. */
module HttpCallProtocol {

  import opened Optional

  type Conn = nat

  const PROGRESS_BYTES := 65536

  datatype Verb = Get | Head | Options | Put | Delete | Trace | Post | Patch | Connect | Unknown

  /** idempotent() */
  predicate Idempotent(v: Verb) {
    v == Get || v == Head || v == Options || v == Put || v == Delete || v == Trace
  }

  datatype Op = BeginOp | RefuseOp | ResolveOp | ConnectOp | TlsOp | WriteHeaderOp | WriteSomeOp | ReadHeaderOp | ReadSomeOp
  {
    predicate Writing() {
      WriteHeaderOp? || WriteSomeOp?
    }

    predicate Reading() {
      ReadHeaderOp? || ReadSomeOp?
    }
  }

  datatype Abort = TimedOut | Cancelled | ClientClosed

  datatype Error = Aborted(why: Abort) | TooLarge | StreamTimeout | InvalidUrl | Network

  datatype Result = Response | Failed(error: Error)

  datatype Parser = Parser(gotSome: bool, body: nat)

  /** Why a retry was made. */
  datatype Cause = Cause(duringWrite: bool, gotSome: bool)

  datatype Job = Job(verb: Verb, hasBody: bool, tls: bool, wantsProgress: bool)

  /** One onProgress call: the direction and the bytes done. */
  datatype Shown = Shown(upload: bool, done: nat)

  /** Progress: bytes up and down, the last report, and histories of every difference
      done - reported_bytes that progress() computed and of every report the user got. */
  datatype Meter = Meter(up: nat, down: nat, reported: int, gaps: seq<int>, shown: seq<Shown>)

  /** Histories: the results set, one entry for every time the request was sent (was it on a reused
      connection?), the cause of the retry, and the connections given to the keep-alive pool. */
  datatype Past = Past(results: seq<Result>, sends: seq<bool>, cause: Option<Cause>, given: seq<Conn>)

  /** The fields of CallState, and its pending operation. */
  datatype Call = Call(
    job: Job, pending: multiset<Op>, conn: Option<Conn>, reused: bool, retried: bool, finished: bool,
    aborted: Option<Abort>, parser: Option<Parser>, meter: Meter, past: Past)

  function Init(job: Job, clientClosed: bool): Call {
    Call(job, multiset{if clientClosed then RefuseOp else BeginOp}, None, false, false, false, None, None,
         Meter(0, 0, 0, [], []), Past([], [], None, []))
  }

  // ---------------------------------------------------------------- the handlers

  /** Handlers never change what was asked for, nor the reason of an abort. */
  predicate SameRequest(c: Call, r: Call) {
    r.job == c.job && r.aborted == c.aborted
  }

  function Begin(c: Call, op: Op): Call {
    c.(pending := c.pending + multiset{op})
  }

  function Finish(c: Call, result: Result): (r: Call)
    ensures SameRequest(c, r)
  {
    if c.finished then c else c.(finished := true, conn := None, past := c.past.(results := c.past.results + [result]))
  }

  function DoAbort(c: Call, why: Abort): Call {
    if c.finished || c.aborted.Some? then c else c.(aborted := Some(why))
  }

  /** progress(); `late` is whether 100 ms passed since the last report. */
  function Report(m: Meter, upload: bool, done: nat, last: bool, late: bool): Meter {
    var gap := done - m.reported;
    if !last && gap < PROGRESS_BYTES && !late then m.(gaps := m.gaps + [gap])
    else m.(gaps := if last then m.gaps else m.gaps + [gap], reported := done, shown := m.shown + [Shown(upload, done)])
  }

  function Progress(c: Call, upload: bool, done: nat, last: bool, late: bool): (r: Call)
    ensures SameRequest(c, r) && r.past == c.past && r.conn == c.conn && r.finished == c.finished && r.parser == c.parser
  {
    if c.job.wantsProgress then c.(meter := Report(c.meter, upload, done, last, late)) else c
  }

  datatype Failure = LimitReached | StreamTimedOut | OtherError

  function Retry(c: Call, cause: Cause): Call {
    Begin(c.(retried := true, reused := false, conn := None, parser := None, meter := c.meter.(up := 0, reported := 0),
            past := c.past.(cause := Some(cause))), ResolveOp)
  }

  function Fail(c: Call, f: Failure, duringWrite: bool): (r: Call)
    ensures SameRequest(c, r)
  {
    if c.aborted.Some? then Finish(c, Failed(Aborted(c.aborted.value)))
    else if f == LimitReached then Finish(c, Failed(TooLarge))
    else if f == StreamTimedOut then Finish(c, Failed(StreamTimeout))
    else
      var gotSome := c.parser.Some? && c.parser.value.gotSome;
      if c.reused && !c.retried && !gotSome && (Idempotent(c.job.verb) || duringWrite) then
        Retry(c, Cause(duringWrite, gotSome))
      else Finish(c, Failed(Network))
  }

  function WriteHeader(c: Call): Call {
    Begin(c.(past := c.past.(sends := c.past.sends + [c.reused])), WriteHeaderOp)
  }

  function ReadHeader(c: Call): Call {
    Begin(c.(meter := c.meter.(reported := 0), parser := Some(Parser(false, 0))), ReadHeaderOp)
  }

  function WriteBody(c: Call, serialized: bool): (r: Call)
    ensures SameRequest(c, r)
  {
    if serialized then ReadHeader(if c.job.hasBody then Progress(c, true, c.meter.up, true, false) else c)
    else Begin(c, WriteSomeOp)
  }

  function Succeed(c: Call, keepAlive: bool): (r: Call)
    ensures SameRequest(c, r)
  {
    Finish(if keepAlive && c.aborted.None? && c.conn.Some? then c.(past := c.past.(given := c.past.given + [c.conn.value]), conn := None) else c, Response)
  }

  function ReadBody(c: Call, complete: bool, keepAlive: bool): (r: Call)
    requires c.parser.Some?
    ensures SameRequest(c, r)
  {
    if complete then
      Succeed(Progress(c.(meter := c.meter.(down := c.parser.value.body)), false, c.parser.value.body, true, false), keepAlive)
    else Begin(c, ReadSomeOp)
  }

  /** What the parser gained from a read. */
  function Received(c: Call, n: nat, gotSome: bool): Call
    requires c.parser.Some?
  {
    c.(parser := Some(Parser(c.parser.value.gotSome || gotSome, c.parser.value.body + n)))
  }

  // ---------------------------------------------------------------- runs

  datatype Outcome =
    | BadUrl
    | Begun(idle: Option<Conn>)                  // the URL parses; what takeIdle() found
    | Broken(failure: Failure, gotSome: bool)    // the operation ends with an error
    | Done                                       // resolved, or refused at once
    | Connected(conn: Conn, sni: bool)           // sni: the host name could be set
    | Written(n: nat, serialized: bool, late: bool)
    | Got(n: nat, complete: bool, keepAlive: bool, late: bool)

  datatype Action = Completes(op: Op, outcome: Outcome) | Aborts(why: Abort)

  /** Outcomes an operation can have. */
  predicate Fits(op: Op, o: Outcome) {
    match op
    case BeginOp => o.BadUrl? || o.Begun?
    case RefuseOp => o.Done?
    case ResolveOp => o.Done? || o.Broken?
    case ConnectOp => o.Connected? || o.Broken?
    case TlsOp => o.Done? || o.Broken?
    case WriteHeaderOp => o.Written? || o.Broken?
    case WriteSomeOp => o.Written? || o.Broken?
    case ReadHeaderOp => o.Got? || o.Broken?
    case ReadSomeOp => o.Got? || o.Broken?
  }

  /** n more bytes were written. */
  function Uploaded(c: Call, n: nat, late: bool): (r: Call)
    ensures SameRequest(c, r)
  {
    var d := c.(meter := c.meter.(up := c.meter.up + n));
    if c.job.hasBody then Progress(d, true, d.meter.up, false, late) else d
  }

  /** n more bytes were read, after the header. */
  function Downloaded(c: Call, n: nat, late: bool): (r: Call)
    requires c.parser.Some?
    ensures SameRequest(c, r) && r.parser.Some?
  {
    var d := Received(c, n, true);
    Progress(d.(meter := d.meter.(down := d.parser.value.body)), false, d.parser.value.body, false, late)
  }

  function OnDone(c: Call, op: Op, o: Outcome): (r: Call)
    requires Fits(op, o)
    ensures SameRequest(c, r)
  {
    if o.Broken? then
      Fail(if op.Reading() && c.parser.Some? then Received(c, 0, o.gotSome) else c, o.failure, op.Writing())
    else
    match op
    case BeginOp =>
      if o.BadUrl? then Finish(c, Failed(InvalidUrl))
      else if o.idle.Some? then WriteHeader(c.(conn := o.idle, reused := true))
      else Begin(c, ResolveOp)
    case RefuseOp => Finish(c, Failed(Aborted(ClientClosed)))
    case ResolveOp =>
      if c.aborted.Some? then Finish(c, Failed(Aborted(c.aborted.value))) else Begin(c, ConnectOp)
    case ConnectOp =>
      var d := c.(conn := Some(o.conn));
      if !c.job.tls then WriteHeader(d) else if !o.sni then Finish(d, Failed(Network)) else Begin(d, TlsOp)
    case TlsOp => WriteHeader(c)
    case WriteHeaderOp => WriteBody(c, o.serialized)
    case WriteSomeOp => WriteBody(Uploaded(c, o.n, o.late), o.serialized)
    case ReadHeaderOp =>
      if c.parser.None? then c else ReadBody(Received(c, o.n, true), o.complete, o.keepAlive)
    case ReadSomeOp =>
      if c.parser.None? then c else ReadBody(Downloaded(c, o.n, o.late), o.complete, o.keepAlive)
  }

  function Next(c: Call, a: Action): Call {
    match a
    case Aborts(why) => DoAbort(c, why)
    case Completes(op, o) =>
      if op in c.pending && Fits(op, o) then OnDone(c.(pending := c.pending - multiset{op}), op, o) else c
  }

  function Run(c: Call, actions: seq<Action>): Call
    decreases |actions|
  {
    if actions == [] then c else Run(Next(c, actions[0]), actions[1..])
  }

  // ---------------------------------------------------------------- the invariant

  /** One operation while unfinished, none afterwards; one result exactly when finished. */
  ghost predicate ExactlyOnce(c: Call) {
    && |c.pending| == (if c.finished then 0 else 1)
    && |c.past.results| == (if c.finished then 1 else 0)
  }

  /** How often the request was sent before op was started. */
  function SendsAt(c: Call, op: Op): nat {
    (if c.retried then 1 else 0) + (if op.Writing() || op.Reading() then 1 else 0)
  }

  ghost predicate Transmissions(c: Call) {
    && |c.past.sends| <= 2
    && (c.retried ==> !c.reused && c.past.sends != [] && c.past.sends[0])
    && (c.retried <==> c.past.cause.Some?)
    && (c.past.cause.Some? ==> !c.past.cause.value.gotSome && (Idempotent(c.job.verb) || c.past.cause.value.duringWrite))
    && (|c.past.sends| == 2 ==> c.retried && !c.past.sends[1])
    && (!c.retried && c.past.sends != [] ==> c.past.sends == [c.reused])
    && (c.reused ==> c.past.sends == [true])
    && (forall op | op in c.pending :: |c.past.sends| == SendsAt(c, op))
    && (BeginOp in c.pending ==> !c.retried && !c.reused)
  }

  ghost predicate Reports(c: Call) {
    && (forall k | 0 <= k < |c.meter.gaps| :: c.meter.gaps[k] >= 0)
    && (forall op | op in c.pending ::
          && (op.Writing() ==> c.parser.None? && c.meter.reported <= c.meter.up)
          && (op.ReadHeaderOp? ==> c.parser == Some(Parser(false, 0)) && c.meter.reported == 0)
          && (op.ReadSomeOp? ==> c.parser.Some? && c.parser.value.gotSome && c.meter.reported <= c.parser.value.body)
          && (!op.Reading() ==> c.parser.None?)
          && (!op.Writing() && !op.Reading() ==> c.meter.up == 0 && c.meter.reported == 0))
  }

  ghost predicate Owned(c: Call) {
    && |c.past.given| <= 1
    && (c.past.given != [] ==> c.past.results == [Response] && c.aborted.None? && c.conn.None?)
    && (c.finished ==> c.conn.None?)
    && (forall op | op in c.pending :: (op.TlsOp? || op.Writing() || op.Reading() ==> c.conn.Some?))
  }

  ghost predicate Inv(c: Call) {
    ExactlyOnce(c) && Transmissions(c) && Reports(c) && Owned(c)
  }

  lemma ReadingHasParser(c: Call, op: Op)
    requires Inv(c) && op in c.pending
    ensures op.Reading() ==> c.parser.Some?
  {
  }

  lemma InitInv(job: Job, clientClosed: bool)
    ensures Inv(Init(job, clientClosed))
  {
  }

  lemma OnlyOp(c: Call, op: Op)
    requires ExactlyOnce(c) && op in c.pending
    ensures c.pending == multiset{op} && c.pending - multiset{op} == multiset{} && !c.finished
  {
    assert c.pending == multiset{op} + (c.pending - multiset{op});
    assert |c.pending - multiset{op}| == 0;
  }

  /** Inside the handler of op: its token is consumed, everything else is as it was. */
  ghost predicate Within(c: Call, op: Op) {
    !c.finished && c.pending == multiset{} && Inv(c.(pending := multiset{op}))
  }

  lemma FinishInv(c: Call, op: Op, r: Result)
    requires Within(c, op)
    ensures Inv(Finish(c, r))
  {
    assert op in multiset{op};
  }

  lemma RetryInv(c: Call, op: Op, cause: Cause)
    requires Within(c, op) && c.reused && !cause.gotSome && (Idempotent(c.job.verb) || cause.duringWrite)
    ensures Inv(Retry(c, cause))
  {
    assert op in c.(pending := multiset{op}).pending;
    assert c.past.sends == [true];
  }

  lemma FailInv(c: Call, op: Op, f: Failure)
    requires Within(c, op)
    ensures Inv(Fail(c, f, op.Writing()))
  {
    var gotSome := c.parser.Some? && c.parser.value.gotSome;
    if c.aborted.Some? {
      FinishInv(c, op, Failed(Aborted(c.aborted.value)));
    } else if f == LimitReached {
      FinishInv(c, op, Failed(TooLarge));
    } else if f == StreamTimedOut {
      FinishInv(c, op, Failed(StreamTimeout));
    } else if c.reused && !c.retried && !gotSome && (Idempotent(c.job.verb) || op.Writing()) {
      RetryInv(c, op, Cause(op.Writing(), gotSome));
    } else {
      FinishInv(c, op, Failed(Network));
    }
  }

  lemma WriteHeaderInv(c: Call, op: Op)
    requires Within(c, op) && !op.Writing() && !op.Reading()
    ensures c.conn.Some? ==> Inv(WriteHeader(c))
    ensures c.past.sends == [] && !c.reused && !c.retried ==> forall i :: Inv(WriteHeader(c.(conn := Some(i), reused := true)))
  {
    assert op in c.(pending := multiset{op}).pending;
  }

  lemma MoveOnInv(c: Call, op: Op, next: Op)
    requires Within(c, op) && !op.Writing() && !op.Reading() && !next.Writing() && !next.Reading() && !next.BeginOp?
    requires next.TlsOp? ==> c.conn.Some?
    ensures Inv(Begin(c, next))
  {
    assert op in c.(pending := multiset{op}).pending;
  }

  lemma ReadHeaderInv(c: Call, op: Op)
    requires Within(c, op) && op.Writing()
    ensures Inv(ReadHeader(c))
  {
    assert op in c.(pending := multiset{op}).pending;
  }

  /** A report inside the upload or the download keeps done - reported_bytes from underflowing. */
  lemma ProgressInv(c: Call, op: Op, last: bool, late: bool)
    requires Within(c, op) && (op.Writing() || op.ReadSomeOp?)
    ensures op.ReadSomeOp? ==> c.parser.Some?
    ensures var done := if op.Writing() then c.meter.up else c.parser.value.body;
            Within(Progress(c, op.Writing(), done, last, late), op)
  {
    var w := c.(pending := multiset{op});
    assert op in w.pending;
    var done := if op.Writing() then c.meter.up else c.parser.value.body;
    var d := Progress(c, op.Writing(), done, last, late);
    assert c.meter.reported <= done;
    assert d == c.(meter := c.meter.(gaps := d.meter.gaps, reported := d.meter.reported, shown := d.meter.shown)) && d.meter.reported <= done;
    ReportedInv(c, op, d.meter.gaps, d.meter.reported, d.meter.shown);
  }

  lemma ReportedInv(c: Call, op: Op, gaps: seq<int>, reported: int, shown: seq<Shown>)
    requires Within(c, op) && (op.Writing() || op.ReadSomeOp?)
    requires op.Writing() ==> reported <= c.meter.up
    requires op.ReadSomeOp? ==> c.parser.Some? && reported <= c.parser.value.body
    requires forall k | 0 <= k < |gaps| :: gaps[k] >= 0
    ensures Within(c.(meter := c.meter.(gaps := gaps, reported := reported, shown := shown)), op)
  {
    assert op in c.(pending := multiset{op}).pending;
  }

  lemma WriteBodyInv(c: Call, op: Op, serialized: bool)
    requires Within(c, op) && op.Writing()
    ensures Inv(WriteBody(c, serialized))
  {
    assert op in c.(pending := multiset{op}).pending;
    if serialized {
      ProgressInv(c, op, true, false);
      ReadHeaderInv(if c.job.hasBody then Progress(c, true, c.meter.up, true, false) else c, op);
    }
  }

  lemma SucceedInv(c: Call, op: Op, keepAlive: bool)
    requires Within(c, op)
    ensures Inv(Succeed(c, keepAlive))
  {
    assert op in c.(pending := multiset{op}).pending;
  }

  lemma ReadBodyInv(c: Call, complete: bool, keepAlive: bool)
    requires Within(c, ReadSomeOp)
    ensures c.parser.Some? && Inv(ReadBody(c, complete, keepAlive))
  {
    assert ReadSomeOp in c.(pending := multiset{ReadSomeOp}).pending;
    var d := c.(meter := c.meter.(down := c.parser.value.body));
    if complete {
      ProgressInv(d, ReadSomeOp, true, false);
      SucceedInv(Progress(d, false, c.parser.value.body, true, false), ReadSomeOp, keepAlive);
    }
  }

  lemma ReceivedInv(c: Call, op: Op, n: nat)
    requires Within(c, op) && op.Reading()
    ensures c.parser.Some? && Within(Received(c, n, true), ReadSomeOp)
  {
    assert op in c.(pending := multiset{op}).pending;
  }

  lemma BrokenInv(c: Call, op: Op, f: Failure, gotSome: bool)
    requires Within(c, op)
    ensures Inv(Fail(if op.Reading() && c.parser.Some? then Received(c, 0, gotSome) else c, f, op.Writing()))
  {
    assert op in c.(pending := multiset{op}).pending;
    if op.Reading() && gotSome {
      ReceivedInv(c, op, 0);
      FailInv(Received(c, 0, true), ReadSomeOp, f);
    } else {
      assert op.Reading() && c.parser.Some? ==> Received(c, 0, false) == c;
      FailInv(c, op, f);
    }
  }

  lemma ConnectingInv(c: Call, op: Op, o: Outcome)
    requires Within(c, op) && Fits(op, o) && !o.Broken? && !op.Writing() && !op.Reading()
    ensures Inv(OnDone(c, op, o))
  {
    match op
    case BeginOp =>
      assert op in c.(pending := multiset{op}).pending;
      FinishInv(c, op, Failed(InvalidUrl));
      MoveOnInv(c, op, ResolveOp);
      WriteHeaderInv(c, op);
    case RefuseOp => FinishInv(c, op, Failed(Aborted(ClientClosed)));
    case ResolveOp =>
      if c.aborted.Some? { FinishInv(c, op, Failed(Aborted(c.aborted.value))); } else { MoveOnInv(c, op, ConnectOp); }
    case ConnectOp => ConnectedInv(c, o);
    case TlsOp =>
      assert op in c.(pending := multiset{op}).pending;
      WriteHeaderInv(c, op);
  }

  lemma ConnectedInv(c: Call, o: Outcome)
    requires Within(c, ConnectOp) && o.Connected?
    ensures Inv(OnDone(c, ConnectOp, o))
  {
    var d := c.(conn := Some(o.conn));
    assert Within(d, ConnectOp);
    if !c.job.tls {
      WriteHeaderInv(d, ConnectOp);
    } else if !o.sni {
      FinishInv(d, ConnectOp, Failed(Network));
    } else {
      MoveOnInv(d, ConnectOp, TlsOp);
    }
  }

  lemma SentMoreInv(c: Call, n: nat)
    requires Within(c, WriteSomeOp)
    ensures Within(c.(meter := c.meter.(up := c.meter.up + n)), WriteSomeOp)
  {
    assert WriteSomeOp in c.(pending := multiset{WriteSomeOp}).pending;
  }

  lemma UploadedInv(c: Call, n: nat, late: bool)
    requires Within(c, WriteSomeOp)
    ensures Within(Uploaded(c, n, late), WriteSomeOp)
  {
    var d := c.(meter := c.meter.(up := c.meter.up + n));
    SentMoreInv(c, n);
    if c.job.hasBody {
      ProgressInv(d, WriteSomeOp, false, late);
      assert Uploaded(c, n, late) == Progress(d, true, d.meter.up, false, late);
    } else {
      assert Uploaded(c, n, late) == d;
    }
  }

  lemma UploadingInv(c: Call, op: Op, o: Outcome)
    requires Within(c, op) && Fits(op, o) && o.Written?
    ensures Inv(OnDone(c, op, o))
  {
    if op.WriteHeaderOp? {
      WriteBodyInv(c, op, o.serialized);
    } else {
      UploadedInv(c, o.n, o.late);
      WriteBodyInv(Uploaded(c, o.n, o.late), op, o.serialized);
    }
  }

  lemma DownloadingInv(c: Call, op: Op, o: Outcome)
    requires Within(c, op) && Fits(op, o) && o.Got?
    ensures Inv(OnDone(c, op, o))
  {
    ReceivedInv(c, op, o.n);
    var d := Received(c, o.n, true);
    if op.ReadHeaderOp? {
      ReadBodyInv(d, o.complete, o.keepAlive);
    } else {
      var e := d.(meter := d.meter.(down := d.parser.value.body));
      assert Within(e, op);
      ProgressInv(e, op, false, o.late);
      ReadBodyInv(Progress(e, false, d.parser.value.body, false, o.late), o.complete, o.keepAlive);
    }
  }

  lemma DoneInv(c: Call, op: Op, o: Outcome)
    requires Within(c, op) && Fits(op, o)
    ensures Inv(OnDone(c, op, o))
  {
    if o.Broken? {
      BrokenInv(c, op, o.failure, o.gotSome);
    } else if o.Written? {
      UploadingInv(c, op, o);
    } else if o.Got? {
      DownloadingInv(c, op, o);
    } else {
      ConnectingInv(c, op, o);
    }
  }

  lemma NextInv(c: Call, a: Action)
    requires Inv(c)
    ensures Inv(Next(c, a))
  {
    if a.Completes? && a.op in c.pending && Fits(a.op, a.outcome) {
      OnlyOp(c, a.op);
      assert c == c.(pending := multiset{}).(pending := multiset{a.op});
      DoneInv(c.(pending := multiset{}), a.op, a.outcome);
    }
  }

  lemma {:induction false} RunInv(c: Call, actions: seq<Action>)
    requires Inv(c)
    ensures Inv(Run(c, actions))
    decreases |actions|
  {
    if actions != [] {
      NextInv(c, actions[0]);
      RunInv(Next(c, actions[0]), actions[1..]);
    }
  }

  // ---------------------------------------------------------------- exactly one completion

  /** In every reachable state an unfinished call has exactly one operation pending and no result, a
      finished one has none pending and exactly one result. */
  lemma CompletesOnce(job: Job, clientClosed: bool, actions: seq<Action>)
    ensures var c := Run(Init(job, clientClosed), actions);
            && |c.pending| == (if c.finished then 0 else 1)
            && |c.past.results| == (if c.finished then 1 else 0)
            && (forall k | 0 <= k < |c.meter.gaps| :: c.meter.gaps[k] >= 0)
  {
    InitInv(job, clientClosed);
    RunInv(Init(job, clientClosed), actions);
  }

  /** Nothing changes a finished call any more: not the deadline, not cancel(), no completion. */
  lemma {:induction false} FinishedForGood(c: Call, actions: seq<Action>)
    requires Inv(c) && c.finished
    ensures Run(c, actions) == c
    decreases |actions|
  {
    if actions != [] {
      assert c.pending == multiset{};
      FinishedForGood(Next(c, actions[0]), actions[1..]);
    }
  }

  // ---------------------------------------------------------------- abort

  lemma {:induction false} FirstAbortWins(c: Call, actions: seq<Action>)
    requires c.aborted.Some?
    ensures Run(c, actions).aborted == c.aborted
    decreases |actions|
  {
    if actions != [] {
      FirstAbortWins(Next(c, actions[0]), actions[1..]);
    }
  }

  /** After an abort, the first operation that fails completes the call with the abort's code; it is
      never retried, and the connection is never kept alive. */
  lemma AbortDecides(c: Call, op: Op, failure: Failure, gotSome: bool)
    requires Inv(c) && c.aborted.Some? && op in c.pending && Fits(op, Broken(failure, gotSome))
    ensures var d := Next(c, Completes(op, Broken(failure, gotSome)));
            && d.finished && d.past.results == [Failed(Aborted(c.aborted.value))]
            && d.past.sends == c.past.sends && d.retried == c.retried && d.past.given == []
  {
    OnlyOp(c, op);
  }

  // ---------------------------------------------------------------- transmissions

  /** A request is sent at most twice: the second time on a fresh connection, after a reused one
      failed before any byte of a response arrived, and a request that is not idempotent (section
      9.2.2 of RFC 9110) only if it failed while it was being written. */
  lemma SentAtMostTwice(job: Job, clientClosed: bool, actions: seq<Action>)
    ensures var c := Run(Init(job, clientClosed), actions);
            && |c.past.sends| <= 2
            && (|c.past.sends| == 2 ==>
                  && c.past.sends == [true, false]
                  && c.past.cause.Some? && !c.past.cause.value.gotSome
                  && (Idempotent(job.verb) || c.past.cause.value.duringWrite))
  {
    InitInv(job, clientClosed);
    RunInv(Init(job, clientClosed), actions);
    JobKept(Init(job, clientClosed), actions);
    var c := Run(Init(job, clientClosed), actions);
    assert |c.past.sends| == 2 ==> c.past.sends == [c.past.sends[0], c.past.sends[1]];
  }

  lemma {:induction false} JobKept(c: Call, actions: seq<Action>)
    ensures Run(c, actions).job == c.job
    decreases |actions|
  {
    if actions != [] {
      JobKept(Next(c, actions[0]), actions[1..]);
    }
  }

  /** A failing operation leads to a retry exactly when all of this holds; otherwise the call is
      finished. */
  lemma RetriedExactlyWhen(c: Call, op: Op, failure: Failure, gotSome: bool)
    requires Inv(c) && op in c.pending && Fits(op, Broken(failure, gotSome))
    ensures var d := Next(c, Completes(op, Broken(failure, gotSome)));
            var received := c.parser.Some? && (c.parser.value.gotSome || gotSome);
            && (!d.finished <==>
                  && c.aborted.None? && failure == OtherError && c.reused && !received
                  && (Idempotent(c.job.verb) || op.Writing()))
            && (!d.finished ==> d.pending == multiset{ResolveOp} && !d.reused && d.meter.up == 0 && d.meter.reported == 0)
  {
    OnlyOp(c, op);
  }

  /** When the response is complete the call succeeds, and its connection goes to the keep-alive pool
      if and only if the response allows it and nothing aborted the call in the meantime. */
  lemma GivenBackExactlyWhen(c: Call, op: Op, n: nat, keepAlive: bool, late: bool)
    requires Inv(c) && op in c.pending && op.Reading()
    ensures var d := Next(c, Completes(op, Got(n, true, keepAlive, late)));
            && c.conn.Some? && d.finished && d.past.results == [Response]
            && d.past.given == if keepAlive && c.aborted.None? then [c.conn.value] else []
  {
    OnlyOp(c, op);
    var d := Received(c.(pending := multiset{}), n, true);
    CompleteGives(d, keepAlive);
    if op.ReadSomeOp? {
      var e := Progress(d.(meter := d.meter.(down := d.parser.value.body)), false, d.parser.value.body, false, late);
      CompleteGives(e, keepAlive);
    }
  }

  lemma CompleteGives(c: Call, keepAlive: bool)
    requires c.parser.Some? && c.conn.Some? && !c.finished && c.past.results == [] && c.past.given == []
    ensures var d := ReadBody(c, true, keepAlive);
            && d.finished && d.past.results == [Response]
            && d.past.given == if keepAlive && c.aborted.None? then [c.conn.value] else []
  {
  }

  /** A call starts on an idle connection when there is one and transmits at once; otherwise it
      resolves the host first and has sent nothing yet. */
  lemma StartsOnIdle(job: Job, idle: Option<Conn>)
    ensures var d := Next(Init(job, false), Completes(BeginOp, Begun(idle)));
            && (idle.Some? ==> d.conn == idle && d.reused && d.past.sends == [true] && d.pending == multiset{WriteHeaderOp})
            && (idle.None? ==> d.conn.None? && !d.reused && d.past.sends == [] && d.pending == multiset{ResolveOp})
  {
    OnlyOp(Init(job, false), BeginOp);
  }

  /** A connection goes to the keep-alive pool at most once, and only with a response that no abort
      preceded; any other end closes it. */
  lemma GivenBackOnce(job: Job, clientClosed: bool, actions: seq<Action>)
    ensures var c := Run(Init(job, clientClosed), actions);
            && |c.past.given| <= 1
            && (c.past.given != [] ==> c.past.results == [Response] && c.aborted.None?)
            && (c.finished ==> c.conn.None?)
  {
    InitInv(job, clientClosed);
    RunInv(Init(job, clientClosed), actions);
  }
}

/** The idle keep-alive connections of the client, a list per scheme, host and port
    (takeIdle and putIdle in sources/Client/HttpClient.cpp). Times are those of a steady clock, read
    under the lock. */
module KeepAlivePool {
  import opened Optional
  import HttpCallProtocol

  type Conn = HttpCallProtocol.Conn
  type Key = string
  type Time = int

  datatype Idle = Idle(conn: Conn, since: Time)

  datatype Options = Options(maxPerHost: nat, idleTimeout: int)

  predicate Fresh(o: Options, now: Time, e: Idle) {
    now - e.since < o.idleTimeout
  }

  /** The loop of takeIdle(): pops from the back until one is fresh. */
  function TakeFrom(o: Options, list: seq<Idle>, now: Time): (r: (Option<Conn>, seq<Idle>))
    ensures r.1 <= list
  {
    if list == [] then (None, [])
    else
      var last := |list| - 1;
      if Fresh(o, now, list[last]) then (Some(list[last].conn), list[..last]) else TakeFrom(o, list[..last], now)
  }

  /** The client's idle lists, its closed flag, the clock's last reading, and (a history) the
      connections that are held by calls. */
  datatype Pool = Pool(idle: map<Key, seq<Idle>>, closed: bool, clock: Time, lent: set<Conn>)

  function List(p: Pool, key: Key): seq<Idle> {
    if key in p.idle then p.idle[key] else []
  }

  function Take(o: Options, p: Pool, key: Key, now: Time): (Option<Conn>, Pool) {
    if key !in p.idle then (None, p.(clock := now))
    else
      var (found, rest) := TakeFrom(o, p.idle[key], now);
      (found, p.(idle := p.idle[key := rest], clock := now, lent := if found.Some? then p.lent + {found.value} else p.lent))
  }

  function Put(o: Options, p: Pool, key: Key, conn: Conn, now: Time): Pool {
    var list := List(p, key);
    if p.closed || |list| >= o.maxPerHost then p.(idle := p.idle[key := list], clock := now, lent := p.lent - {conn})
    else p.(idle := p.idle[key := list + [Idle(conn, now)]], clock := now, lent := p.lent - {conn})
  }

  datatype Action =
    | TakeIdle(key: Key, now: Time)
    | PutIdle(key: Key, conn: Conn, now: Time)
    | Opened(conn: Conn)    // a call opens a new connection
    | Dropped(conn: Conn)   // a call closes its connection
    | Destroy               // ~HttpClient

  ghost predicate Stored(p: Pool, c: Conn) {
    exists key, i :: 0 <= i < |List(p, key)| && List(p, key)[i].conn == c
  }

  ghost predicate Possible(p: Pool, a: Action) {
    match a
    case TakeIdle(_, now) => now >= p.clock
    case PutIdle(_, conn, now) => now >= p.clock && conn in p.lent
    case Opened(conn) => conn !in p.lent && !Stored(p, conn)
    case Dropped(conn) => conn in p.lent
    case Destroy => true
  }

  ghost function Next(o: Options, p: Pool, a: Action): Pool {
    if !Possible(p, a) then p else
    match a
    case TakeIdle(key, now) => Take(o, p, key, now).1
    case PutIdle(key, conn, now) => Put(o, p, key, conn, now)
    case Opened(conn) => p.(lent := p.lent + {conn})
    case Dropped(conn) => p.(lent := p.lent - {conn})
    case Destroy => p.(closed := true, idle := map[])
  }

  ghost function Run(o: Options, p: Pool, actions: seq<Action>): Pool
    decreases |actions|
  {
    if actions == [] then p else Run(o, Next(o, p, actions[0]), actions[1..])
  }

  function Init(): Pool {
    Pool(map[], false, 0, {})
  }

  // ---------------------------------------------------------------- the invariant

  ghost predicate Sorted(list: seq<Idle>) {
    forall i, j | 0 <= i < j < |list| :: list[i].since <= list[j].since
  }

  ghost predicate Lists(o: Options, p: Pool) {
    forall key ::
      var list := List(p, key);
      && Sorted(list)
      && |list| <= o.maxPerHost
      && (forall i | 0 <= i < |list| :: list[i].since <= p.clock)
      && (p.closed ==> list == [])
  }

  /** A connection is stored at one place or held by a call, never both. */
  ghost predicate OnePlace(p: Pool) {
    && (forall key, other, i, j | 0 <= i < |List(p, key)| && 0 <= j < |List(p, other)| && List(p, key)[i].conn == List(p, other)[j].conn ::
          key == other && i == j)
    && (forall key, i | 0 <= i < |List(p, key)| :: List(p, key)[i].conn !in p.lent)
  }

  ghost predicate Inv(o: Options, p: Pool) {
    Lists(o, p) && OnePlace(p)
  }

  lemma {:induction false} TakeFromShape(o: Options, list: seq<Idle>, now: Time)
    ensures var r := TakeFrom(o, list, now);
            && (r.0.Some? ==> |r.1| < |list| && r.0.value == list[|r.1|].conn && Fresh(o, now, list[|r.1|]))
            && (forall i | |r.1| < i < |list| :: !Fresh(o, now, list[i]))
            && (r.0.None? ==> r.1 == [] && forall i | 0 <= i < |list| :: !Fresh(o, now, list[i]))
  {
    if list != [] && !Fresh(o, now, list[|list| - 1]) {
      TakeFromShape(o, list[..|list| - 1], now);
    }
  }

  /** On a list sorted by time the loop either takes the very last connection, the one idle for the
      shortest time, and leaves the others; or every connection has expired and it drains the list. */
  lemma TakesTheFreshest(o: Options, list: seq<Idle>, now: Time)
    requires Sorted(list)
    ensures var r := TakeFrom(o, list, now);
            && (r.0.None? <==> forall i | 0 <= i < |list| :: !Fresh(o, now, list[i]))
            && (r.0.None? ==> r.1 == [])
            && (r.0.Some? ==>
                  && list == r.1 + [Idle(r.0.value, list[|list| - 1].since)]
                  && Fresh(o, now, list[|list| - 1])
                  && forall i | 0 <= i < |list| :: list[i].since <= list[|list| - 1].since)
  {
    TakeFromShape(o, list, now);
    var r := TakeFrom(o, list, now);
    if r.0.Some? {
      assert Fresh(o, now, list[|list| - 1]);
    }
  }

  /** Lists that lose entries at their end only stay as they must be. */
  lemma Shorter(o: Options, p: Pool, q: Pool, taken: set<Conn>)
    requires Inv(o, p) && (p.closed || !q.closed) && q.clock >= p.clock
    requires forall key :: List(q, key) <= List(p, key)
    requires q.lent <= p.lent + taken
    requires forall key, i | 0 <= i < |List(q, key)| :: List(q, key)[i].conn !in taken
    ensures Inv(o, q)
  {
    forall key
      ensures Sorted(List(q, key)) && |List(q, key)| <= o.maxPerHost && (q.closed ==> List(q, key) == [])
      ensures forall i | 0 <= i < |List(q, key)| :: List(q, key)[i].since <= q.clock
    {
      assert List(q, key) <= List(p, key) && Sorted(List(p, key));
    }
    forall key, i | 0 <= i < |List(q, key)| ensures List(q, key)[i] == List(p, key)[i] {
      assert List(q, key) <= List(p, key);
    }
  }

  lemma TakeInv(o: Options, p: Pool, key: Key, now: Time)
    requires Inv(o, p) && now >= p.clock
    ensures Inv(o, Take(o, p, key, now).1)
  {
    var r := Take(o, p, key, now);
    var q := r.1;
    var taken := if r.0.Some? then {r.0.value} else {};
    if key in p.idle {
      var list := p.idle[key];
      TakeFromShape(o, list, now);
      assert List(p, key) == list && List(q, key) == list[..|List(q, key)|];
      forall other, i | 0 <= i < |List(q, other)| ensures List(q, other)[i].conn !in taken {
        if r.0.Some? {
          assert List(q, other)[i] == List(p, other)[i];
          assert List(p, key)[|List(q, key)|].conn == r.0.value;
        }
      }
    }
    Shorter(o, p, q, taken);
  }

  lemma PutLists(o: Options, p: Pool, key: Key, conn: Conn, now: Time)
    requires Lists(o, p) && now >= p.clock
    ensures var q := Put(o, p, key, conn, now);
            && Lists(o, q)
            && (List(q, key) == List(p, key) || List(q, key) == List(p, key) + [Idle(conn, now)])
            && (forall other | other != key :: List(q, other) == List(p, other))
  {
    var q := Put(o, p, key, conn, now);
    forall other
      ensures Sorted(List(q, other)) && |List(q, other)| <= o.maxPerHost
      ensures forall i | 0 <= i < |List(q, other)| :: List(q, other)[i].since <= q.clock
      ensures q.closed ==> List(q, other) == []
    {
      assert Sorted(List(p, other)) && |List(p, other)| <= o.maxPerHost;
    }
  }

  lemma PutOnePlace(p: Pool, q: Pool, key: Key, conn: Conn, now: Time)
    requires OnePlace(p) && conn in p.lent && q.lent == p.lent - {conn}
    requires List(q, key) == List(p, key) || List(q, key) == List(p, key) + [Idle(conn, now)]
    requires forall other | other != key :: List(q, other) == List(p, other)
    ensures OnePlace(q)
  {
    forall a, b, i, j | 0 <= i < |List(q, a)| && 0 <= j < |List(q, b)| && List(q, a)[i].conn == List(q, b)[j].conn
      ensures a == b && i == j
    {
      if i < |List(p, a)| && j < |List(p, b)| {
        assert List(q, a)[i] == List(p, a)[i] && List(q, b)[j] == List(p, b)[j];
      } else if i < |List(p, a)| {
        assert List(p, a)[i].conn !in p.lent;
      }
    }
  }

  lemma PutInv(o: Options, p: Pool, key: Key, conn: Conn, now: Time)
    requires Inv(o, p) && now >= p.clock && conn in p.lent
    ensures Inv(o, Put(o, p, key, conn, now))
  {
    PutLists(o, p, key, conn, now);
    PutOnePlace(p, Put(o, p, key, conn, now), key, conn, now);
  }

  lemma NextInv(o: Options, p: Pool, a: Action)
    requires Inv(o, p)
    ensures Inv(o, Next(o, p, a))
  {
    if Possible(p, a) {
      match a
      case TakeIdle(key, now) => TakeInv(o, p, key, now);
      case PutIdle(key, conn, now) => PutInv(o, p, key, conn, now);
      case Destroy => assert forall key :: List(Next(o, p, a), key) == [];
      case Opened(conn) => Shorter(o, p, Next(o, p, a), {conn});
      case Dropped(_) => Shorter(o, p, Next(o, p, a), {});
    }
  }

  lemma {:induction false} RunInv(o: Options, p: Pool, actions: seq<Action>)
    requires Inv(o, p)
    ensures Inv(o, Run(o, p, actions))
    decreases |actions|
  {
    if actions != [] {
      NextInv(o, p, actions[0]);
      RunInv(o, Next(o, p, actions[0]), actions[1..]);
    }
  }

  /** In every reachable state each list is sorted by idle time and within max_idle_per_host, no
      connection is stored twice or while a call holds it, and a destroyed client stores nothing. */
  lemma EveryRunKeepsTheLists(o: Options, actions: seq<Action>)
    ensures var p := Run(o, Init(), actions);
            && (forall key :: Sorted(List(p, key)) && |List(p, key)| <= o.maxPerHost && (p.closed ==> List(p, key) == []))
            && OnePlace(p)
  {
    assert forall key :: List(Init(), key) == [];
    RunInv(o, Init(), actions);
  }

  /** A connection that takeIdle() handed out is held by that call alone, and stored nowhere. */
  lemma HandedOutOnce(o: Options, p: Pool, key: Key, now: Time)
    requires Inv(o, p) && now >= p.clock && Take(o, p, key, now).0.Some?
    ensures var (found, q) := Take(o, p, key, now);
            found.value !in p.lent && found.value in q.lent && !Stored(q, found.value)
  {
    TakeInv(o, p, key, now);
    TakeFromShape(o, p.idle[key], now);
    assert List(p, key) == p.idle[key];
  }

  /** What is put back is what the next takeIdle() of that host finds while it is fresh. */
  lemma PutThenTake(o: Options, p: Pool, key: Key, conn: Conn, now: Time, later: Time)
    requires !p.closed && |List(p, key)| < o.maxPerHost && later - now < o.idleTimeout
    ensures var (found, q) := Take(o, Put(o, p, key, conn, now), key, later);
            found == Some(conn) && List(q, key) == List(p, key)
  {
    var list := List(p, key) + [Idle(conn, now)];
    assert list[..|list| - 1] == List(p, key);
  }

  /** Once it has expired, so have all the others of that host: nothing is found, and the list is drained. */
  lemma PutThenExpired(o: Options, p: Pool, key: Key, conn: Conn, now: Time, later: Time)
    requires Lists(o, p) && p.clock <= now && !p.closed && |List(p, key)| < o.maxPerHost && later - now >= o.idleTimeout
    ensures var (found, q) := Take(o, Put(o, p, key, conn, now), key, later);
            found.None? && List(q, key) == []
  {
    var list := List(p, key) + [Idle(conn, now)];
    PutLists(o, p, key, conn, now);
    TakesTheFreshest(o, list, later);
  }

  lemma RunThree(o: Options, p: Pool, a: Action, b: Action, c: Action)
    ensures Run(o, p, [a, b, c]) == Next(o, Next(o, Next(o, p, a), b), c)
  {
    assert [a, b, c][1..] == [b, c] && [b, c][1..] == [c] && [c][1..] == [];
    var q := Next(o, Next(o, p, a), b);
    assert Run(o, q, [c]) == Next(o, q, c);
    assert Run(o, Next(o, p, a), [b, c]) == Run(o, q, [c]);
  }

  /** A new client keeps what its first call gives back, for its second: opened, put back, taken again. */
  lemma FirstConnection(o: Options, key: Key, conn: Conn, now: Time, later: Time)
    requires 0 < o.maxPerHost && 0 <= now <= later && later - now < o.idleTimeout
    ensures var p := Run(o, Init(), [Opened(conn), PutIdle(key, conn, now)] + [TakeIdle(key, later)]);
            var stored := Next(o, Next(o, Init(), Opened(conn)), PutIdle(key, conn, now));
            && List(stored, key) == [Idle(conn, now)] && stored.lent == {} && !stored.closed
            && List(p, key) == [] && p.lent == {conn} && !p.closed
  {
    var p1 := Next(o, Init(), Opened(conn));
    assert !Stored(Init(), conn);
    var p2 := Next(o, p1, PutIdle(key, conn, now));
    assert p2.lent == {} && List(p2, key) == [Idle(conn, now)];
    PutThenTake(o, p1, key, conn, now, later);
    RunThree(o, Init(), Opened(conn), PutIdle(key, conn, now), TakeIdle(key, later));
    assert [Opened(conn), PutIdle(key, conn, now)] + [TakeIdle(key, later)] == [Opened(conn), PutIdle(key, conn, now), TakeIdle(key, later)];
    assert Next(o, p2, TakeIdle(key, later)) == Take(o, p2, key, later).1;
  }

  /** A call that closes its connection gives it up; a destroyed client has no connection stored and is
      closed. */
  lemma GivenUp(o: Options, p: Pool, conn: Conn)
    ensures conn in p.lent ==> Next(o, p, Dropped(conn)) == p.(lent := p.lent - {conn})
    ensures Next(o, p, Destroy).closed && (forall key :: List(Next(o, p, Destroy), key) == []) && Next(o, p, Destroy).lent == p.lent
  {
  }

  /** putIdle() keeps the connection if and only if the client is alive and the host's list has room;
      otherwise it is closed, since no list and no call has it any more. */
  lemma StoredExactlyWhen(o: Options, p: Pool, key: Key, conn: Conn, now: Time)
    requires Inv(o, p) && now >= p.clock && conn in p.lent
    ensures var q := Put(o, p, key, conn, now);
            && conn !in q.lent
            && (Stored(q, conn) <==> !p.closed && |List(p, key)| < o.maxPerHost)
            && (Stored(q, conn) ==> List(q, key) == List(p, key) + [Idle(conn, now)])
  {
    var q := Put(o, p, key, conn, now);
    assert forall other | other != key :: List(q, other) == List(p, other);
    if !p.closed && |List(p, key)| < o.maxPerHost {
      assert List(q, key)[|List(p, key)|].conn == conn;
    } else {
      assert List(q, key) == List(p, key);
    }
  }

}

/** The idle lists as the client changes them in place. */
module KeepAliveObject {
  import opened Optional
  import opened KeepAlivePool

  class KeepAlive {
    const options: Options
    var idle: map<Key, seq<Idle>>
    var closed: bool
    ghost var clock: Time
    ghost var lent: set<Conn>

    ghost function View(): Pool
      reads this
    {
      Pool(idle, closed, clock, lent)
    }

    constructor (options: Options)
      ensures this.options == options && View() == KeepAlivePool.Init()
    {
      this.options, idle, closed, clock, lent := options, map[], false, 0, {};
    }

    /** takeIdle(). */
    method TakeIdle(key: Key, now: Time) returns (found: Option<Conn>)
      modifies this
      ensures (found, View()) == Take(options, old(View()), key, now)
    {
      clock := now;
      if key !in idle {
        return None;
      }
      ghost var start := idle[key];
      var list := idle[key];
      found := None;
      while list != []
        invariant TakeFrom(options, list, now) == TakeFrom(options, start, now)
        decreases |list|
      {
        var back := list[|list| - 1];
        list := list[..|list| - 1];
        if now - back.since < options.idleTimeout {
          found := Some(back.conn);
          break;
        }
      }
      idle := idle[key := list];
      lent := if found.Some? then lent + {found.value} else lent;
    }

    /** putIdle(); a connection that is not stored is closed outside the lock. */
    method PutIdle(key: Key, conn: Conn, now: Time)
      modifies this
      ensures View() == KeepAlivePool.Put(options, old(View()), key, conn, now)
    {
      clock := now;
      lent := lent - {conn};
      if key !in idle {
        idle := idle[key := []];
      }
      if !closed && |idle[key]| < options.maxPerHost {
        idle := idle[key := idle[key] + [Idle(conn, now)]];
      }
    }

    /** The part of ~HttpClient that empties the lists. */
    method Destroy()
      modifies this
      ensures View() == KeepAlivePool.Next(options, old(View()), KeepAlivePool.Destroy)
    {
      closed, idle := true, map[];
    }

    /** Any step of the pool and of the calls that hold its connections. */
    method Step(a: Action)
      requires KeepAlivePool.Inv(options, View()) && Possible(View(), a)
      modifies this
      ensures View() == KeepAlivePool.Next(options, old(View()), a) && KeepAlivePool.Inv(options, View())
    {
      KeepAlivePool.NextInv(options, View(), a);
      match a {
        case TakeIdle(key, now) => var _ := TakeIdle(key, now);
        case PutIdle(key, conn, now) => PutIdle(key, conn, now);
        case Opened(conn) => lent := lent + {conn};
        case Dropped(conn) => lent := lent - {conn};
        case Destroy => Destroy();
      }
    }
  }
}

/** The call object: its handlers change the fields in place. */
module HttpCallObject {
  import opened Optional
  import opened HttpCallProtocol

  class CallState {
    const job: Job
    var pending: multiset<Op>
    var conn: Option<Conn>
    var reused: bool
    var retried: bool
    var finished: bool
    var aborted: Option<HttpCallProtocol.Abort>
    var parser: Option<Parser>
    var meter: Meter
    var past: Past

    function View(): Call
      reads this
    {
      Call(job, pending, conn, reused, retried, finished, aborted, parser, meter, past)
    }

    constructor (job: Job, clientClosed: bool)
      ensures View() == Init(job, clientClosed) && Inv(View())
    {
      this.job := job;
      pending := multiset{if clientClosed then RefuseOp else BeginOp};
      conn, reused, retried, finished, aborted, parser := None, false, false, false, None, None;
      meter, past := Meter(0, 0, 0, [], []), Past([], [], None, []);
      InitInv(job, clientClosed);
    }

    method Abort(why: HttpCallProtocol.Abort)
      modifies this`aborted
      ensures View() == DoAbort(old(View()), why)
    {
      if finished || aborted.Some? {
        return;
      }
      aborted := Some(why);
    }

    method Finish(result: Result)
      modifies this`finished, this`conn, this`past
      ensures View() == HttpCallProtocol.Finish(old(View()), result)
    {
      if finished {
        return;
      }
      finished := true;
      conn := None;
      past := past.(results := past.results + [result]);
    }

    method Progress(upload: bool, done: nat, last: bool, late: bool)
      modifies this`meter
      ensures View() == HttpCallProtocol.Progress(old(View()), upload, done, last, late)
    {
      if !job.wantsProgress {
        return;
      }
      if !last {
        var gap := done - meter.reported;
        meter := meter.(gaps := meter.gaps + [gap]);
        if gap < PROGRESS_BYTES && !late {
          return;
        }
      }
      meter := meter.(reported := done, shown := meter.shown + [Shown(upload, done)]);
    }

    method Fail(f: Failure, duringWrite: bool)
      modifies this
      ensures View() == HttpCallProtocol.Fail(old(View()), f, duringWrite)
    {
      if aborted.Some? {
        Finish(Failed(Aborted(aborted.value)));
        return;
      }
      if f == LimitReached {
        Finish(Failed(TooLarge));
        return;
      }
      if f == StreamTimedOut {
        Finish(Failed(StreamTimeout));
        return;
      }
      var nothingReceived := parser.None? || !parser.value.gotSome;
      if reused && !retried && nothingReceived && (Idempotent(job.verb) || duringWrite) {
        RetryNow(duringWrite);
        return;
      }
      Finish(Failed(Network));
    }

    /** The part of fail() that starts again on a new connection. */
    method RetryNow(duringWrite: bool)
      modifies this`retried, this`reused, this`conn, this`meter, this`past, this`parser, this`pending
      ensures View() == Retry(old(View()), Cause(duringWrite, false))
    {
      retried := true;
      reused := false;
      conn := None;
      meter := meter.(up := 0, reported := 0);
      past := past.(cause := Some(Cause(duringWrite, false)));
      parser := None;
      pending := pending + multiset{ResolveOp};
    }

    method WriteHeader()
      modifies this`past, this`pending
      ensures View() == HttpCallProtocol.WriteHeader(old(View()))
    {
      past := past.(sends := past.sends + [reused]);
      pending := pending + multiset{WriteHeaderOp};
    }

    method ReadHeader()
      modifies this`meter, this`parser, this`pending
      ensures View() == HttpCallProtocol.ReadHeader(old(View()))
    {
      meter := meter.(reported := 0);
      parser := Some(Parser(false, 0));
      pending := pending + multiset{ReadHeaderOp};
    }

    method WriteBody(serialized: bool)
      modifies this`meter, this`parser, this`pending
      ensures View() == HttpCallProtocol.WriteBody(old(View()), serialized)
    {
      if serialized {
        if job.hasBody {
          Progress(true, meter.up, true, false);
        }
        ReadHeader();
        return;
      }
      pending := pending + multiset{WriteSomeOp};
    }

    method Succeed(keepAlive: bool)
      modifies this`past, this`conn, this`finished
      ensures View() == HttpCallProtocol.Succeed(old(View()), keepAlive)
    {
      if keepAlive && aborted.None? && conn.Some? {
        past := past.(given := past.given + [conn.value]);
        conn := None;
      }
      Finish(Response);
    }

    method ReadBody(complete: bool, keepAlive: bool)
      requires parser.Some?
      modifies this`meter, this`past, this`conn, this`finished, this`pending
      ensures View() == HttpCallProtocol.ReadBody(old(View()), complete, keepAlive)
    {
      if complete {
        meter := meter.(down := parser.value.body);
        Progress(false, meter.down, true, false);
        Succeed(keepAlive);
        return;
      }
      pending := pending + multiset{ReadSomeOp};
    }

    // ---------------------------------------------------------------- the completion handlers

    /** begin(), refused before it starts, or the handlers of the resolver and of the connecting. */
    method Connecting(op: Op, o: Outcome)
      requires Fits(op, o) && !o.Broken? && !op.Writing() && !op.Reading()
      modifies this
      ensures View() == OnDone(old(View()), op, o)
    {
      match op {
        case BeginOp =>
          if o.BadUrl? {
            Finish(Failed(InvalidUrl));
          } else if o.idle.Some? {
            conn, reused := o.idle, true;
            WriteHeader();
          } else {
            pending := pending + multiset{ResolveOp};
          }
        case RefuseOp =>
          Finish(Failed(Aborted(ClientClosed)));
        case ResolveOp =>
          if aborted.Some? {
            Finish(Failed(Aborted(aborted.value)));
          } else {
            pending := pending + multiset{ConnectOp};
          }
        case ConnectOp =>
          conn := Some(o.conn);
          if !job.tls {
            WriteHeader();
          } else if !o.sni {
            Finish(Failed(Network));
          } else {
            pending := pending + multiset{TlsOp};
          }
        case TlsOp =>
          WriteHeader();
      }
    }

    /** n more bytes were written. */
    method Upload(n: nat, late: bool)
      modifies this`meter
      ensures View() == Uploaded(old(View()), n, late)
    {
      meter := meter.(up := meter.up + n);
      if job.hasBody {
        Progress(true, meter.up, false, late);
      }
    }

    /** The handlers of async_write_header and async_write_some. */
    method Uploading(op: Op, o: Outcome)
      requires Fits(op, o) && o.Written?
      modifies this
      ensures View() == OnDone(old(View()), op, o)
    {
      if op.WriteSomeOp? {
        Upload(o.n, o.late);
      }
      WriteBody(o.serialized);
    }

    /** n more bytes were read, after the header. */
    method Download(n: nat, late: bool)
      requires parser.Some?
      modifies this`parser, this`meter
      ensures View() == Downloaded(old(View()), n, late)
    {
      parser := Some(Parser(true, parser.value.body + n));
      meter := meter.(down := parser.value.body);
      Progress(false, meter.down, false, late);
    }

    /** The handlers of async_read_header and async_read_some. */
    method Downloading(op: Op, o: Outcome)
      requires Fits(op, o) && o.Got? && parser.Some?
      modifies this
      ensures View() == OnDone(old(View()), op, o)
    {
      if op.ReadSomeOp? {
        Download(o.n, o.late);
      } else {
        parser := Some(Parser(true, parser.value.body + o.n));
      }
      ReadBody(o.complete, o.keepAlive);
    }

    /** An operation that fails, after what it still received. */
    method Failing(op: Op, o: Outcome)
      requires Fits(op, o) && o.Broken?
      modifies this
      ensures View() == OnDone(old(View()), op, o)
    {
      if op.Reading() && parser.Some? {
        parser := Some(Parser(parser.value.gotSome || o.gotSome, parser.value.body));
      }
      Fail(o.failure, op.Writing());
    }

    /** Any step of the call; a step that is not possible does nothing. */
    method Step(a: Action)
      requires Inv(View())
      modifies this
      ensures View() == Next(old(View()), a) && Inv(View())
    {
      NextInv(View(), a);
      match a {
        case Aborts(why) => Abort(why);
        case Completes(op, o) =>
          if op in pending && Fits(op, o) {
            Completing(op, o);
          }
      }
    }

    /** The handler of a completed operation. */
    method Completing(op: Op, o: Outcome)
      requires Inv(View()) && op in pending && Fits(op, o)
      modifies this
      ensures View() == Next(old(View()), Completes(op, o))
    {
      ReadingHasParser(View(), op);
      pending := pending - multiset{op};
      Handling(op, o);
    }

    method Handling(op: Op, o: Outcome)
      requires Fits(op, o) && (op.Reading() ==> parser.Some?)
      modifies this
      ensures View() == OnDone(old(View()), op, o)
    {
      if o.Broken? {
        Failing(op, o);
      } else if o.Written? {
        Uploading(op, o);
      } else if o.Got? {
        Downloading(op, o);
      } else {
        Connecting(op, o);
      }
    }
  }
}
