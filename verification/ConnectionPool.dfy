/** The pool of include/cppgate/ConnectionPool.h: acquire() and warmUp() calls, handles being
    released, discarded or moved, waiter timeouts, factory failures and close(), interleaved freely.

    A step is one lock-held section, or the end of one piece of work done outside the lock (the
    factory, the checks of checkOut()). What those return, and which waiter times out, is arbitrary. */
module ConnectionPoolProtocol {

  import opened Optional

  type Conn = nat

  /** The source's Waiter; `ticket` is its arrival number, a history. */
  datatype Waiter = Waiter(ticket: nat, connection: Option<Conn>, mayOpen: bool, closed: bool)
  {
    predicate Served() {
      connection.Some? || mayOpen || closed
    }

    predicate OneFlagAtMost() {
      && !(connection.Some? && mayOpen)
      && !(connection.Some? && closed)
      && !(mayOpen && closed)
    }
  }

  /** A call in progress, by what it does next. */
  datatype Call =
    | Trying                                   // acquire(): takes the lock
    | Warming                                  // warmUp(): takes the lock
    | CheckingOut(conn: Conn, aboveMin: bool)  // checkOut(), outside the lock
    | Opening(forHandle: bool)                 // the factory, in a slot counted in open
    | Dropping(retry: bool)                    // dropped(), then acquire() tries again or the call ends
    | GivingBack(conn: Conn, warming: bool)    // giveBack(), then warmUp() goes on or the call ends
    | Waiting(waiter: Waiter)                  // blocked in acquire()
  {
    /** The call accounts for one unit of `open`. */
    predicate HasSlot() {
      || CheckingOut? || Opening? || Dropping? || GivingBack?
      || (Waiting? && (waiter.connection.Some? || waiter.mayOpen))
    }

    function Connection(): Option<Conn> {
      match this
      case CheckingOut(c, _) => Some(c)
      case GivingBack(c, _) => Some(c)
      case Waiting(w) => w.connection
      case _ => None
    }
  }

  /** The pool's fields, the calls in progress, the handles, and two histories: the tickets of the
      waiters in the order they were served, and the connections opened so far (0 .. created - 1). */
  datatype Pool = Pool(
    minSize: nat, maxSize: nat,
    idle: seq<Conn>, waiters: seq<nat>, open: int, closed: bool,
    calls: map<nat, Call>, handles: map<nat, Conn>,
    tickets: nat, served: seq<nat>, created: nat)
  {
    predicate Fresh(id: nat) {
      id !in calls && id !in handles
    }

    function Set(id: nat, call: Call): Pool {
      this.(calls := calls[id := call])
    }

    function End(id: nat): Pool {
      this.(calls := calls - {id})
    }

    function EndWithHandle(id: nat, conn: Conn): Pool {
      this.(calls := calls - {id}, handles := handles[id := conn])
    }
  }

  function Init(minSize: nat, maxSize: nat): Pool {
    Pool(minSize, maxSize, [], [], 0, false, map[], map[], 0, [], 0)
  }

  // ---------------------------------------------------------------- the lock-held sections

  /** One round of acquire()'s loop. */
  function TryAcquire(p: Pool, id: nat): Pool {
    if p.closed then
      p.End(id)
    else if p.idle != [] then
      var last := |p.idle| - 1;
      p.(idle := p.idle[..last]).Set(id, CheckingOut(p.idle[last], p.open > p.minSize))
    else if p.open < p.maxSize then
      p.(open := p.open + 1).Set(id, Opening(true))
    else
      p.(waiters := p.waiters + [id], tickets := p.tickets + 1)
      .Set(id, Waiting(Waiter(p.tickets, None, false, false)))
  }

  /** One round of warmUp()'s loop. */
  function TryWarmUp(p: Pool, id: nat): Pool {
    if p.closed || p.open >= p.minSize then p.End(id)
    else p.(open := p.open + 1).Set(id, Opening(false))
  }

  /** Takes the first waiter off the queue and sets its flags. */
  function ServeFirst(p: Pool, connection: Option<Conn>): Pool
    requires p.waiters != [] && p.waiters[0] in p.calls && p.calls[p.waiters[0]].Waiting?
  {
    var first := p.waiters[0];
    var w := p.calls[first].waiter;
    p.(waiters := p.waiters[1..], served := p.served + [w.ticket])
    .Set(first, Waiting(if connection.Some? then w.(connection := connection) else w.(mayOpen := true)))
  }

  predicate CanServe(p: Pool) {
    !p.closed && p.waiters != [] && p.waiters[0] in p.calls && p.calls[p.waiters[0]].Waiting?
  }

  function GiveBack(p: Pool, conn: Conn): Pool {
    if p.closed then p.(open := p.open - 1)
    else if CanServe(p) then ServeFirst(p, Some(conn))
    else p.(idle := p.idle + [conn])
  }

  function Dropped(p: Pool): Pool {
    if CanServe(p) then ServeFirst(p, None) else p.(open := p.open - 1)
  }

  /** A served waiter leaves wait_until(). */
  function Wake(p: Pool, id: nat, w: Waiter): Pool {
    if w.closed then p.End(id)
    else if w.connection.Some? then p.EndWithHandle(id, w.connection.value)
    else p.Set(id, Opening(true))
  }

  /** std::find and erase of one queue entry; erasing what is not there is undefined behaviour in
      the source, here it leaves the queue alone. */
  function Without(queue: seq<nat>, id: nat): seq<nat> {
    if queue == [] then [] else if queue[0] == id then queue[1..] else [queue[0]] + Without(queue[1..], id)
  }

  function TimeOut(p: Pool, id: nat): Pool {
    p.(waiters := Without(p.waiters, id)).End(id)
  }

  function MarkClosed(call: Call): Call {
    if call.Waiting? then call.(waiter := call.waiter.(closed := true)) else call
  }

  function CloseAll(calls: map<nat, Call>, queue: seq<nat>): map<nat, Call> {
    map id | id in calls :: if id in queue then MarkClosed(calls[id]) else calls[id]
  }

  function Close(p: Pool): Pool {
    if p.closed then p
    else p.(closed := true, open := p.open - |p.idle|, idle := [], waiters := [], calls := CloseAll(p.calls, p.waiters))
  }

  // ---------------------------------------------------------------- runs

  datatype CheckResult = Usable | Expired | Broken

  datatype Action =
    | BeginAcquire(id: nat)
    | BeginWarmUp(id: nat)
    | Proceed(id: nat)                             // the call takes the lock
    | Checked(id: nat, result: CheckResult)        // checkOut() decides, outside the lock
    | FactoryReturns(id: nat, ok: bool)
    | TimesOut(id: nat)
    | Release(handle: nat, id: nat)                // Pooled::release() or its destructor
    | Discard(handle: nat, id: nat)                // Pooled::discard()
    | MoveHandle(handle: nat, to: nat)             // Pooled's move constructor
    | CloseAction

  function Locked(p: Pool, id: nat): Pool {
    if id !in p.calls then p else
    match p.calls[id]
    case Trying => TryAcquire(p, id)
    case Warming => TryWarmUp(p, id)
    case GivingBack(conn, warming) =>
      var q := GiveBack(p, conn);
      if warming then q.Set(id, Warming) else q.End(id)
    case Dropping(retry) =>
      var q := Dropped(p);
      if retry then q.Set(id, Trying) else q.End(id)
    case Waiting(w) => if w.Served() then Wake(p, id, w) else p
    case _ => p
  }

  function Next(p: Pool, a: Action): Pool {
    match a
    case BeginAcquire(id) => if p.Fresh(id) then p.Set(id, Trying) else p
    case BeginWarmUp(id) => if p.Fresh(id) then p.Set(id, Warming) else p
    case Proceed(id) => Locked(p, id)
    case Checked(id, result) =>
      if id !in p.calls || !p.calls[id].CheckingOut? || (result == Expired && !p.calls[id].aboveMin) then p
      else if result == Usable then p.EndWithHandle(id, p.calls[id].conn)
      else p.Set(id, Dropping(true))
    case FactoryReturns(id, ok) =>
      if id !in p.calls || !p.calls[id].Opening? then p
      else if !ok then p.Set(id, Dropping(false))
      else if p.calls[id].forHandle then p.(created := p.created + 1).EndWithHandle(id, p.created)
      else p.(created := p.created + 1).Set(id, GivingBack(p.created, true))
    case TimesOut(id) =>
      if id in p.calls && p.calls[id].Waiting? && !p.calls[id].waiter.Served() then TimeOut(p, id) else p
    case Release(h, id) =>
      if h in p.handles && p.Fresh(id) then
        p.(handles := p.handles - {h}).Set(id, GivingBack(p.handles[h], false))
      else p
    case Discard(h, id) =>
      if h in p.handles && p.Fresh(id) then p.(handles := p.handles - {h}).Set(id, Dropping(false)) else p
    case MoveHandle(h, to) =>
      if h in p.handles && p.Fresh(to) then p.(handles := (p.handles - {h})[to := p.handles[h]]) else p
    case CloseAction => Close(p)
  }

  function Run(p: Pool, actions: seq<Action>): Pool
    decreases |actions|
  {
    if actions == [] then p else Run(Next(p, actions[0]), actions[1..])
  }

  // ---------------------------------------------------------------- the invariant

  function SlotCalls(calls: map<nat, Call>): set<nat> {
    set id | id in calls && calls[id].HasSlot()
  }

  /** open = idle + handles + checkouts, openings, connections and slots in transit. */
  ghost predicate Accounting(p: Pool) {
    && p.open == |p.idle| + |p.handles| + |SlotCalls(p.calls)|
    && p.open <= p.maxSize
  }

  predicate Queued(p: Pool, id: nat) {
    id in p.calls && p.calls[id].Waiting? && !p.calls[id].waiter.Served()
  }

  function TicketOf(calls: map<nat, Call>, id: nat): nat {
    if id in calls && calls[id].Waiting? then calls[id].waiter.ticket else 0
  }

  /** The tickets served so far, then those still in the queue, in queue order. */
  function Timeline(p: Pool): seq<nat> {
    p.served + seq(|p.waiters|, i requires 0 <= i < |p.waiters| => TicketOf(p.calls, p.waiters[i]))
  }

  ghost predicate Increasing(s: seq<nat>) {
    forall i, j | 0 <= i < j < |s| :: s[i] < s[j]
  }

  ghost predicate Members(p: Pool) {
    forall id :: id in p.waiters <==> Queued(p, id)
  }

  /** Waiters are served in the order they arrived. */
  ghost predicate Order(p: Pool) {
    && Increasing(Timeline(p))
    && (forall i | 0 <= i < |Timeline(p)| :: Timeline(p)[i] < p.tickets)
  }

  ghost predicate Flags(p: Pool) {
    forall id | id in p.calls && p.calls[id].Waiting? :: p.calls[id].waiter.OneFlagAtMost()
  }

  /** The queue is exactly the unserved waiters, in arrival order, after everyone served so far. */
  ghost predicate Queue(p: Pool) {
    Members(p) && Order(p) && Flags(p)
  }

  /** Nobody waits beside a free connection or a free slot; a closed pool keeps nothing. */
  ghost predicate NoIdleWaiting(p: Pool) {
    && (p.waiters != [] ==> !p.closed && p.idle == [] && p.open == p.maxSize)
    && (p.closed ==> p.idle == [])
  }

  datatype Place = InIdle(i: nat) | InHandle(h: nat) | InCall(id: nat)

  function At(p: Pool, place: Place): Option<Conn> {
    match place
    case InIdle(i) => if i < |p.idle| then Some(p.idle[i]) else None
    case InHandle(h) => if h in p.handles then Some(p.handles[h]) else None
    case InCall(id) => if id in p.calls then p.calls[id].Connection() else None
  }

  /** A connection is in one place only. */
  ghost predicate Ownership(p: Pool) {
    && (forall x, y | At(p, x).Some? && At(p, x) == At(p, y) :: x == y)
    && (forall x | At(p, x).Some? :: At(p, x).value < p.created)
    && (forall id | id in p.handles :: id !in p.calls)
  }

  ghost predicate Inv(p: Pool) {
    && p.minSize <= p.maxSize && 0 < p.maxSize
    && Accounting(p)
    && Queue(p)
    && NoIdleWaiting(p)
    && Ownership(p)
  }

  // ---------------------------------------------------------------- accounting

  lemma SlotsSet(calls: map<nat, Call>, id: nat, call: Call)
    ensures |SlotCalls(calls[id := call])|
         == |SlotCalls(calls - {id})| + (if call.HasSlot() then 1 else 0)
    ensures |SlotCalls(calls)|
         == |SlotCalls(calls - {id})| + (if id in calls && calls[id].HasSlot() then 1 else 0)
  {
    var rest := SlotCalls(calls - {id});
    assert SlotCalls(calls[id := call]) == if call.HasSlot() then rest + {id} else rest;
    assert SlotCalls(calls) == if id in calls && calls[id].HasSlot() then rest + {id} else rest;
  }

  lemma HandlesChange(handles: map<nat, Conn>, h: nat, c: Conn)
    ensures h !in handles ==> |handles[h := c]| == |handles| + 1
    ensures h in handles ==> |handles - {h}| == |handles| - 1
  {
    assert handles[h := c].Keys == handles.Keys + {h};
    assert (handles - {h}).Keys == handles.Keys - {h};
  }

  lemma SlotsClosed(calls: map<nat, Call>, queue: seq<nat>)
    ensures SlotCalls(CloseAll(calls, queue)) == SlotCalls(calls)
  {
  }

  lemma TriedAccounting(p: Pool, id: nat)
    requires Inv(p) && id in p.calls && p.calls[id].Trying?
    ensures Accounting(TryAcquire(p, id))
  {
    SlotsSet(p.calls, id, if p.idle != [] then CheckingOut(p.idle[|p.idle| - 1], p.open > p.minSize) else Opening(true));
    SlotsSet(p.calls, id, Waiting(Waiter(p.tickets, None, false, false)));
  }

  lemma WarmedAccounting(p: Pool, id: nat)
    requires Inv(p) && id in p.calls && p.calls[id].Warming?
    ensures Accounting(TryWarmUp(p, id))
  {
    SlotsSet(p.calls, id, Opening(false));
  }

  lemma WokenAccounting(p: Pool, id: nat, w: Waiter)
    requires Inv(p) && id in p.calls && p.calls[id] == Waiting(w) && w.Served()
    ensures Accounting(Wake(p, id, w))
  {
    SlotsSet(p.calls, id, Opening(true));
    if w.connection.Some? {
      HandlesChange(p.handles, id, w.connection.value);
    }
  }

  lemma LockedAccounting(p: Pool, id: nat)
    requires Inv(p)
    ensures Accounting(Locked(p, id))
  {
    if id in p.calls {
      match p.calls[id]
      case Trying => TriedAccounting(p, id);
      case Warming => WarmedAccounting(p, id);
      case GivingBack(conn, warming) => ServeAccounting(p, Some(conn), id, if warming then Warming else Trying);
      case Dropping(retry) => ServeAccounting(p, None, id, Trying);
      case Waiting(w) => if w.Served() { WokenAccounting(p, id, w); }
      case _ =>
    }
  }

  /** Serving the first waiter moves a unit of `open` from call `id` to it. */
  lemma ServeAccounting(p: Pool, connection: Option<Conn>, id: nat, after: Call)
    requires Inv(p) && id in p.calls && p.calls[id].HasSlot() && !after.HasSlot()
    ensures |SlotCalls(p.calls - {id})| == |SlotCalls(p.calls[id := after])| == |SlotCalls(p.calls)| - 1
    ensures CanServe(p) ==>
              var q := ServeFirst(p, connection);
              |SlotCalls(q.calls - {id})| == |SlotCalls(q.calls[id := after])| == |SlotCalls(p.calls)|
  {
    SlotsSet(p.calls, id, after);
    if CanServe(p) {
      var q := ServeFirst(p, connection);
      var first := p.waiters[0];
      assert first in p.waiters && Queued(p, first);
      SlotsSet(p.calls, first, q.calls[first]);
      SlotsSet(q.calls, id, after);
    }
  }

  lemma NextAccounting(p: Pool, a: Action)
    requires Inv(p) && !a.Proceed?
    ensures Accounting(Next(p, a))
  {
    match a
    case BeginAcquire(id) => SlotsSet(p.calls, id, Trying);
    case BeginWarmUp(id) => SlotsSet(p.calls, id, Warming);
    case Checked(_, _) => CheckedAccounting(p, a);
    case FactoryReturns(_, _) => FactoryAccounting(p, a);
    case TimesOut(id) => SlotsSet(p.calls, id, Trying);
    case CloseAction => SlotsClosed(p.calls, p.waiters);
    case _ => HandleAccounting(p, a);
  }

  lemma CheckedAccounting(p: Pool, a: Action)
    requires Inv(p) && a.Checked?
    ensures Accounting(Next(p, a))
  {
    var id := a.id;
    SlotsSet(p.calls, id, Dropping(true));
    if id in p.calls && p.calls[id].CheckingOut? { HandlesChange(p.handles, id, p.calls[id].conn); }
  }

  lemma FactoryAccounting(p: Pool, a: Action)
    requires Inv(p) && a.FactoryReturns?
    ensures Accounting(Next(p, a))
  {
    var id := a.id;
    SlotsSet(p.calls, id, if a.ok then GivingBack(p.created, true) else Dropping(false));
    HandlesChange(p.handles, id, p.created);
  }

  lemma HandleAccounting(p: Pool, a: Action)
    requires Inv(p) && (a.Release? || a.Discard? || a.MoveHandle?)
    ensures Accounting(Next(p, a))
  {
    HandlesChange(p.handles, a.handle, 0);
    if a.handle in p.handles {
      match a
      case Release(h, id) => SlotsSet(p.calls, id, GivingBack(p.handles[h], false));
      case Discard(h, id) => SlotsSet(p.calls, id, Dropping(false));
      case MoveHandle(h, to) => HandlesChange(p.handles - {h}, to, p.handles[h]);
    }
  }

  // ---------------------------------------------------------------- the queue

  lemma {:induction false} WithoutAt(queue: seq<nat>, id: nat, k: nat)
    requires forall i, j | 0 <= i < j < |queue| :: queue[i] != queue[j]
    requires k < |queue| && queue[k] == id
    ensures Without(queue, id) == queue[..k] + queue[k + 1..]
    decreases k
  {
    if k > 0 {
      assert queue[0] != queue[k];
      WithoutAt(queue[1..], id, k - 1);
      assert queue[..k] == [queue[0]] + queue[1..][..k - 1];
      assert queue[1..][k..] == queue[k + 1..];
    }
  }

  /** A call that is neither queued before nor after a change leaves the queue as it is. */
  lemma QueueUnaffected(p: Pool, q: Pool, id: nat)
    requires Queue(p) && q.waiters == p.waiters && q.served == p.served && q.tickets == p.tickets
    requires !Queued(p, id) && !Queued(q, id)
    requires id in q.calls && q.calls[id].Waiting? ==> q.calls[id].waiter.OneFlagAtMost()
    requires forall other | other != id :: (other in q.calls <==> other in p.calls)
    requires forall other | other != id && other in p.calls :: q.calls[other] == p.calls[other]
    ensures Queue(q)
  {
    forall other ensures other in q.waiters <==> Queued(q, other) {
      assert other in p.waiters <==> Queued(p, other);
    }
    assert Timeline(q) == Timeline(p);
  }

  lemma JoinQueue(p: Pool, id: nat)
    requires Queue(p) && !Queued(p, id)
    ensures Queue(p.(waiters := p.waiters + [id], tickets := p.tickets + 1)
                  .Set(id, Waiting(Waiter(p.tickets, None, false, false))))
  {
    var q := p.(waiters := p.waiters + [id], tickets := p.tickets + 1)
             .Set(id, Waiting(Waiter(p.tickets, None, false, false)));
    assert id !in p.waiters;
    forall other ensures other in q.waiters <==> Queued(q, other) {
      assert other in p.waiters <==> Queued(p, other);
    }
    assert Timeline(q) == Timeline(p) + [p.tickets];
  }

  lemma ServeQueue(p: Pool, connection: Option<Conn>)
    requires Queue(p) && CanServe(p)
    ensures Queue(ServeFirst(p, connection))
    ensures !Queued(ServeFirst(p, connection), p.waiters[0])
  {
    var q := ServeFirst(p, connection);
    var first := p.waiters[0];
    assert first in p.waiters && Queued(p, first);
    assert p.waiters == [first] + q.waiters;
    assert Timeline(q) == Timeline(p);
    DistinctQueue(p);
    forall other ensures other in q.waiters <==> Queued(q, other) {
      assert other in p.waiters <==> Queued(p, other);
      assert other in p.waiters <==> other == first || other in q.waiters;
    }
  }

  lemma DistinctQueue(p: Pool)
    requires Order(p)
    ensures forall i, j | 0 <= i < j < |p.waiters| :: p.waiters[i] != p.waiters[j]
  {
    forall i, j | 0 <= i < j < |p.waiters| ensures p.waiters[i] != p.waiters[j] {
      assert Timeline(p)[|p.served| + i] < Timeline(p)[|p.served| + j];
    }
  }

  lemma IncreasingWithout(s: seq<nat>, k: nat)
    requires Increasing(s) && k < |s|
    ensures Increasing(s[..k] + s[k + 1..])
  {
  }

  /** The entry that std::find looks for on a timeout is there, once. */
  lemma TimeoutFindsIt(p: Pool, id: nat) returns (k: nat)
    requires Queue(p) && Queued(p, id)
    ensures k < |p.waiters| && p.waiters[k] == id && id !in p.waiters[..k] && id !in p.waiters[k + 1..]
    ensures Without(p.waiters, id) == p.waiters[..k] + p.waiters[k + 1..]
  {
    assert id in p.waiters;
    k :| 0 <= k < |p.waiters| && p.waiters[k] == id;
    DistinctQueue(p);
    WithoutAt(p.waiters, id, k);
  }

  lemma LeftAt(p: Pool, id: nat, k: nat, i: nat)
    requires k < |p.waiters| && p.waiters[k] == id && i < |p.waiters| - 1
    requires id !in p.waiters[..k] && id !in p.waiters[k + 1..]
    ensures var rest := p.waiters[..k] + p.waiters[k + 1..];
            && rest[i] == p.waiters[if i < k then i else i + 1] != id
            && TicketOf(p.calls - {id}, rest[i]) == TicketOf(p.calls, p.waiters[if i < k then i else i + 1])
  {
    var rest := p.waiters[..k] + p.waiters[k + 1..];
    assert rest[i] in p.waiters[..k] || rest[i] in p.waiters[k + 1..];
  }

  lemma TimelineLeftAt(p: Pool, id: nat, k: nat, i: nat)
    requires k < |p.waiters| && p.waiters[k] == id && i < |p.served| + |p.waiters| - 1
    requires Without(p.waiters, id) == p.waiters[..k] + p.waiters[k + 1..]
    requires id !in p.waiters[..k] && id !in p.waiters[k + 1..]
    ensures Timeline(TimeOut(p, id))[i] == Timeline(p)[if i < |p.served| + k then i else i + 1]
  {
    if i >= |p.served| {
      LeftAt(p, id, k, i - |p.served|);
    }
  }

  /** The one who leaves takes his own ticket out of the timeline, and no other. */
  lemma LeaveTimeline(p: Pool, id: nat, k: nat)
    requires k < |p.waiters| && p.waiters[k] == id
    requires Without(p.waiters, id) == p.waiters[..k] + p.waiters[k + 1..]
    requires id !in p.waiters[..k] && id !in p.waiters[k + 1..]
    ensures var at := |p.served| + k;
            Timeline(TimeOut(p, id)) == Timeline(p)[..at] + Timeline(p)[at + 1..]
  {
    var before, after, at := Timeline(p), Timeline(TimeOut(p, id)), |p.served| + k;
    forall i | 0 <= i < |after| ensures after[i] == before[if i < at then i else i + 1] {
      TimelineLeftAt(p, id, k, i);
    }
    assert after == before[..at] + before[at + 1..];
  }

  lemma LeaveOrder(p: Pool, id: nat, k: nat)
    requires Order(p) && k < |p.waiters| && p.waiters[k] == id
    requires Without(p.waiters, id) == p.waiters[..k] + p.waiters[k + 1..]
    requires id !in p.waiters[..k] && id !in p.waiters[k + 1..]
    ensures Order(TimeOut(p, id))
  {
    LeaveTimeline(p, id, k);
    IncreasingWithout(Timeline(p), |p.served| + k);
  }

  lemma LeaveQueue(p: Pool, id: nat)
    requires Queue(p) && Queued(p, id)
    ensures Queue(TimeOut(p, id)) && |TimeOut(p, id).waiters| == |p.waiters| - 1
  {
    var q := TimeOut(p, id);
    var k := TimeoutFindsIt(p, id);
    LeaveOrder(p, id, k);
    assert p.waiters == p.waiters[..k] + [id] + p.waiters[k + 1..];
    forall other ensures other in q.waiters <==> Queued(q, other) {
      assert other in p.waiters <==> Queued(p, other);
      assert other in p.waiters <==> other == id || other in q.waiters;
    }
  }

  lemma ClosedQueue(p: Pool)
    requires Queue(p)
    ensures Queue(Close(p))
  {
    var q := Close(p);
    if !p.closed {
      forall other ensures !Queued(q, other) {
        assert other in p.waiters <==> Queued(p, other);
      }
      forall id | id in q.calls && q.calls[id].Waiting? ensures q.calls[id].waiter.OneFlagAtMost() {
        assert id in p.waiters <==> Queued(p, id);
      }
      assert Timeline(q) == Timeline(p)[..|p.served|];
    }
  }

  lemma PassOnQueue(p: Pool, id: nat, mid: Pool, after: Option<Call>)
    requires Queue(p) && !Queued(p, id)
    requires (exists c: Option<Conn> :: CanServe(p) && mid == ServeFirst(p, c)) ||
             (mid.waiters == p.waiters && mid.served == p.served && mid.tickets == p.tickets && mid.calls == p.calls)
    requires after.Some? ==> !after.value.Waiting?
    ensures Queue(if after.Some? then mid.Set(id, after.value) else mid.End(id))
  {
    if mid.calls == p.calls && mid.waiters == p.waiters && mid.served == p.served && mid.tickets == p.tickets {
      QueueUnaffected(p, mid, id);
    } else {
      var c: Option<Conn> :| CanServe(p) && mid == ServeFirst(p, c);
      ServeQueue(p, c);
      assert p.waiters[0] in p.waiters && Queued(p, p.waiters[0]);
    }
    QueueUnaffected(mid, if after.Some? then mid.Set(id, after.value) else mid.End(id), id);
  }

  lemma TriedQueue(p: Pool, id: nat)
    requires Inv(p) && id in p.calls && (p.calls[id].Trying? || p.calls[id].Warming?)
    ensures Queue(Locked(p, id))
  {
    if p.calls[id].Trying? && !p.closed && p.idle == [] && p.open >= p.maxSize {
      JoinQueue(p, id);
    } else {
      QueueUnaffected(p, Locked(p, id), id);
    }
  }

  lemma LockedQueue(p: Pool, id: nat)
    requires Inv(p)
    ensures Queue(Locked(p, id))
  {
    if id in p.calls {
      match p.calls[id]
      case Trying => TriedQueue(p, id);
      case Warming => TriedQueue(p, id);
      case GivingBack(conn, warming) =>
        PassOnQueue(p, id, GiveBack(p, conn), if warming then Some(Warming) else None);
      case Dropping(retry) =>
        PassOnQueue(p, id, Dropped(p), if retry then Some(Trying) else None);
      case Waiting(w) => if w.Served() { QueueUnaffected(p, Locked(p, id), id); }
      case _ =>
    }
  }

  lemma NextQueue(p: Pool, a: Action)
    requires Inv(p) && !a.Proceed?
    ensures Queue(Next(p, a))
  {
    match a
    case TimesOut(id) => if Queued(p, id) { LeaveQueue(p, id); }
    case CloseAction => ClosedQueue(p);
    case _ => OtherQueue(p, a);
  }

  lemma OtherQueue(p: Pool, a: Action)
    requires Queue(p) && !a.Proceed? && !a.TimesOut? && !a.CloseAction?
    ensures Queue(Next(p, a))
  {
    var q := Next(p, a);
    var id := if a.MoveHandle? then a.to else a.id;
    if q != p {
      assert !Queued(p, id);
      QueueUnaffected(p, q, id);
    }
  }

  // ---------------------------------------------------------------- nobody waits beside a free slot

  lemma NextNoIdleWaiting(p: Pool, a: Action)
    requires Inv(p)
    ensures NoIdleWaiting(Next(p, a))
  {
    match a
    case TimesOut(id) => if Queued(p, id) { LeaveQueue(p, id); }
    case Proceed(id) => LockedNoIdleWaiting(p, id);
    case _ =>
  }

  lemma LockedNoIdleWaiting(p: Pool, id: nat)
    requires Inv(p)
    ensures NoIdleWaiting(Locked(p, id))
  {
    if p.waiters != [] {
      assert p.waiters[0] in p.waiters && Queued(p, p.waiters[0]);
    }
  }

  // ---------------------------------------------------------------- one owner per connection

  /** Of all the places, only dst holds something new: what src held, or a new connection. */
  lemma Relocated(p: Pool, q: Pool, src: Place, dst: Place)
    requires Ownership(p)
    requires forall x | x != dst :: At(q, x).None? || At(q, x) == At(p, x)
    requires At(q, dst).Some? ==>
               || (At(q, dst) == At(p, src) && (src == dst || At(q, src).None?))
               || (At(q, dst) == Some(p.created) && q.created == p.created + 1)
    requires q.created >= p.created
    requires forall id | id in q.handles :: id !in q.calls
    ensures Ownership(q)
  {
    forall x, y | At(q, x).Some? && At(q, x) == At(q, y) ensures x == y {
      if x == dst || y == dst {
        assert At(p, src) == At(p, src);
      }
    }
  }

  lemma GiveBackOwnership(p: Pool, id: nat)
    requires Ownership(p) && id in p.calls && p.calls[id].GivingBack?
    requires p.waiters != [] ==> Queued(p, p.waiters[0])
    ensures Ownership(Locked(p, id))
  {
    assert At(p, InCall(id)) == Some(p.calls[id].conn);
    Relocated(p, Locked(p, id), InCall(id), if CanServe(p) then InCall(p.waiters[0]) else InIdle(|p.idle|));
  }

  lemma DroppingOwnership(p: Pool, id: nat)
    requires Ownership(p) && id in p.calls && p.calls[id].Dropping?
    requires p.waiters != [] ==> Queued(p, p.waiters[0])
    ensures Ownership(Locked(p, id))
  {
    Relocated(p, Locked(p, id), InCall(id), InCall(id));
  }

  lemma TryingOwnership(p: Pool, id: nat)
    requires Ownership(p) && id in p.calls && p.calls[id].Trying?
    ensures Ownership(Locked(p, id))
  {
    var last := if p.idle == [] then 0 else |p.idle| - 1;
    Relocated(p, Locked(p, id), InIdle(last), InCall(id));
  }

  lemma LockedOwnership(p: Pool, id: nat)
    requires Ownership(p) && id in p.calls
    requires p.waiters != [] ==> Queued(p, p.waiters[0])
    ensures Ownership(Locked(p, id))
  {
    match p.calls[id]
    case Trying => TryingOwnership(p, id);
    case Warming => Relocated(p, Locked(p, id), InCall(id), InCall(id));
    case GivingBack(_, _) => GiveBackOwnership(p, id);
    case Dropping(_) => DroppingOwnership(p, id);
    case Waiting(w) => Relocated(p, Locked(p, id), InCall(id), InHandle(id));
    case _ =>
  }

  lemma HandleOwnership(p: Pool, a: Action)
    requires Ownership(p) && (a.Release? || a.Discard? || a.MoveHandle?)
    ensures Ownership(Next(p, a))
  {
    var q := Next(p, a);
    if q != p {
      Relocated(p, q, InHandle(a.handle), if a.MoveHandle? then InHandle(a.to) else InCall(a.id));
    }
  }

  lemma WorkOwnership(p: Pool, a: Action)
    requires Ownership(p) && (a.FactoryReturns? || a.Checked?)
    ensures Ownership(Next(p, a))
  {
    var q := Next(p, a);
    if q != p {
      Relocated(p, q, InCall(a.id), if a.id in q.handles then InHandle(a.id) else InCall(a.id));
    }
  }

  lemma QuietOwnership(p: Pool, a: Action)
    requires Ownership(p) && (a.TimesOut? || a.BeginAcquire? || a.BeginWarmUp? || a.CloseAction?)
    ensures Ownership(Next(p, a))
  {
    Relocated(p, Next(p, a), InIdle(|p.idle|), InIdle(|p.idle|));
  }

  lemma NextOwnership(p: Pool, a: Action)
    requires Ownership(p)
    requires p.waiters != [] ==> Queued(p, p.waiters[0])
    ensures Ownership(Next(p, a))
  {
    if a.Proceed? {
      if a.id in p.calls { LockedOwnership(p, a.id); }
    } else if a.Release? || a.Discard? || a.MoveHandle? {
      HandleOwnership(p, a);
    } else if a.FactoryReturns? || a.Checked? {
      WorkOwnership(p, a);
    } else {
      QuietOwnership(p, a);
    }
  }

  // ---------------------------------------------------------------- every run

  lemma SizesKept(p: Pool, a: Action)
    ensures Next(p, a).minSize == p.minSize && Next(p, a).maxSize == p.maxSize
  {
  }

  lemma NextInv(p: Pool, a: Action)
    requires Inv(p)
    ensures Inv(Next(p, a))
  {
    SizesKept(p, a);
    if a.Proceed? {
      LockedAccounting(p, a.id);
      LockedQueue(p, a.id);
    } else {
      NextAccounting(p, a);
      NextQueue(p, a);
    }
    NextNoIdleWaiting(p, a);
    assert p.waiters != [] ==> p.waiters[0] in p.waiters;
    NextOwnership(p, a);
  }

  lemma {:induction false} RunInv(p: Pool, actions: seq<Action>)
    requires Inv(p)
    ensures Inv(Run(p, actions))
    decreases |actions|
  {
    if actions != [] {
      NextInv(p, actions[0]);
      RunInv(Next(p, actions[0]), actions[1..]);
    }
  }

  lemma InitInv(minSize: nat, maxSize: nat)
    requires minSize <= maxSize && 0 < maxSize
    ensures Inv(Init(minSize, maxSize))
  {
    assert SlotCalls(map[]) == {};
  }

  /** In every reachable state the slots are accounted for, the limit holds and nothing underflows;
      a waiter is queued exactly while none of its flags is set, and has one flag at most; the queue
      is in arrival order; nobody waits beside something free; and no connection has two owners. */
  lemma EveryRunKeepsThePool(minSize: nat, maxSize: nat, actions: seq<Action>)
    requires minSize <= maxSize && 0 < maxSize
    ensures var p := Run(Init(minSize, maxSize), actions);
            && 0 <= p.open == |p.idle| + |p.handles| + |SlotCalls(p.calls)| <= maxSize
            && Members(p) && Flags(p) && Order(p)
            && (!p.closed && p.waiters != [] ==> p.idle == [] && p.open == maxSize)
            && Ownership(p)
  {
    InitInv(minSize, maxSize);
    RunInv(Init(minSize, maxSize), actions);
    RunSizes(Init(minSize, maxSize), actions);
  }

  lemma {:induction false} RunSizes(p: Pool, actions: seq<Action>)
    ensures Run(p, actions).minSize == p.minSize && Run(p, actions).maxSize == p.maxSize
    decreases |actions|
  {
    if actions != [] {
      RunSizes(Next(p, actions[0]), actions[1..]);
    }
  }

  /** No decrement of open underflows: whoever gives a slot up still counts in it. */
  lemma DecrementsAreCovered(p: Pool, id: nat)
    requires Inv(p) && id in p.calls && (p.calls[id].GivingBack? || p.calls[id].Dropping?)
    ensures p.open >= 1 && |p.idle| <= p.open
  {
    assert id in SlotCalls(p.calls);
  }

  // ---------------------------------------------------------------- order of service

  /** An acquire() takes an idle connection or a new slot past the queue only if nobody is queued:
      a later acquire never overtakes a waiter. */
  lemma NoOvertaking(p: Pool, id: nat)
    requires Inv(p) && id in p.calls && p.calls[id].Trying? && !p.closed
    ensures var q := Next(p, Proceed(id));
            q.calls[id].CheckingOut? || q.calls[id].Opening? <==> p.idle != [] || p.open < p.maxSize
    ensures var q := Next(p, Proceed(id));
            q.calls[id].CheckingOut? || q.calls[id].Opening? ==> p.waiters == []
  {
  }

  /** First come, first served, over whole runs: of two queued waiters the one who arrived first is
      served first, and the other is not served while the first is still queued. */
  lemma FirstComeFirstServed(p: Pool, actions: seq<Action>, a: nat, b: nat)
    requires Inv(p) && Queued(p, a) && Queued(p, b)
    requires p.calls[a].waiter.ticket < p.calls[b].waiter.ticket
    ensures var q := Run(p, actions);
            var ta, tb := p.calls[a].waiter.ticket, p.calls[b].waiter.ticket;
            && (forall i, k | 0 <= i < |q.served| && 0 <= k < |q.served| && q.served[i] == ta && q.served[k] == tb :: i < k)
            && (tb in q.served && Queued(q, a) ==> q.calls[a].waiter.ticket != ta)
  {
    RunInv(p, actions);
    ServiceOrder(Run(p, actions), p.calls[a].waiter.ticket, p.calls[b].waiter.ticket, a);
  }

  lemma ServiceOrder(q: Pool, ta: nat, tb: nat, a: nat)
    requires Members(q) && Order(q) && ta < tb
    ensures forall i, k | 0 <= i < |q.served| && 0 <= k < |q.served| && q.served[i] == ta && q.served[k] == tb :: i < k
    ensures tb in q.served && Queued(q, a) ==> q.calls[a].waiter.ticket != ta
  {
    forall i | 0 <= i < |q.served| ensures Timeline(q)[i] == q.served[i] {}
    forall i, k | 0 <= i < |q.served| && 0 <= k < |q.served| && q.served[i] == ta && q.served[k] == tb ensures i < k {
      assert Timeline(q)[i] == ta && Timeline(q)[k] == tb;
    }
    if tb in q.served && Queued(q, a) {
      var k :| 0 <= k < |q.served| && q.served[k] == tb;
      assert a in q.waiters;
      var i :| 0 <= i < |q.waiters| && q.waiters[i] == a;
      assert tb == Timeline(q)[k] < Timeline(q)[|q.served| + i] == q.calls[a].waiter.ticket;
    }
  }

  /** The most recently returned connection is handed out first: a connection given back to a pool
      with no waiters is the one the next acquire() checks out, and the others stay as they were. */
  lemma MostRecentFirst(p: Pool, giver: nat, taker: nat)
    requires Inv(p) && !p.closed && p.waiters == []
    requires giver in p.calls && p.calls[giver].GivingBack? && taker in p.calls && p.calls[taker].Trying?
    ensures var q := Next(Next(p, Proceed(giver)), Proceed(taker));
            q.calls[taker] == CheckingOut(p.calls[giver].conn, p.open > p.minSize) && q.idle == p.idle
  {
  }

  /** A returned connection goes straight to the longest waiting thread, not to the idle list. */
  lemma HandedToFirstWaiter(p: Pool, giver: nat)
    requires Inv(p) && p.waiters != [] && giver in p.calls && p.calls[giver].GivingBack?
    ensures var q := Next(p, Proceed(giver));
            var first := p.waiters[0];
            && q.waiters == p.waiters[1..] && q.idle == p.idle && q.open == p.open
            && first in q.calls && q.calls[first].Waiting? && q.calls[first].waiter.connection == Some(p.calls[giver].conn)
            && Next(q, Proceed(first)).handles == q.handles[first := p.calls[giver].conn]
  {
    assert p.waiters[0] in p.waiters && Queued(p, p.waiters[0]);
  }

  /** When the factory throws, the slot passes to the longest waiting thread, who may open in it, or
      is freed; the call is over. */
  lemma FailedOpenPassesOn(p: Pool, id: nat)
    requires Inv(p) && id in p.calls && p.calls[id].Opening?
    ensures var q := Next(Next(p, FactoryReturns(id, false)), Proceed(id));
            && id !in q.calls && q.idle == p.idle && q.handles == p.handles
            && (p.waiters == [] ==> q.open == p.open - 1 && q.waiters == [])
            && (p.waiters != [] ==>
                  var first := p.waiters[0];
                  && q.open == p.open && q.waiters == p.waiters[1..]
                  && first in q.calls && q.calls[first].Waiting? && q.calls[first].waiter.mayOpen
                  && Next(q, Proceed(first)) == q.Set(first, Opening(true)))
  {
    assert p.waiters != [] ==> p.waiters[0] in p.waiters && Queued(p, p.waiters[0]);
  }

  // ---------------------------------------------------------------- warmUp()

  /** warmUp() of thread id while nothing else happens: n connections opened, then the last look. */
  function WarmUpSteps(id: nat, n: nat): seq<Action> {
    if n == 0 then [Proceed(id)]
    else [Proceed(id), FactoryReturns(id, true), Proceed(id)] + WarmUpSteps(id, n - 1)
  }

  lemma WarmUpOne(p: Pool, id: nat)
    requires id in p.calls && p.calls[id].Warming? && !p.closed && p.open < p.minSize && p.waiters == []
    ensures var q := Next(Next(Next(p, Proceed(id)), FactoryReturns(id, true)), Proceed(id));
            q == p.(open := p.open + 1, idle := p.idle + [p.created], created := p.created + 1, calls := q.calls)
            && q.calls == p.calls[id := Warming]
  {
    var p1 := Next(p, Proceed(id));
    assert p1 == p.(open := p.open + 1, calls := p.calls[id := Opening(false)]);
    var p2 := Next(p1, FactoryReturns(id, true));
    assert p2.calls[id] == GivingBack(p.created, true);
  }

  lemma RunThree(p: Pool, a: Action, b: Action, c: Action)
    ensures Run(p, [a, b, c]) == Next(Next(Next(p, a), b), c)
  {
    assert [a, b, c][1..] == [b, c] && [b, c][1..] == [c] && [c][1..] == [];
    var p2 := Next(Next(p, a), b);
    assert Run(p2, [c]) == Next(p2, c);
    assert Run(Next(p, a), [b, c]) == Run(p2, [c]);
  }

  /** An undisturbed warmUp() opens exactly the connections missing to min_size and leaves them idle. */
  lemma {:induction false} WarmUpFills(p: Pool, id: nat, n: nat)
    requires id in p.calls && p.calls[id].Warming? && !p.closed && p.waiters == []
    requires n == if p.open < p.minSize then p.minSize - p.open else 0
    ensures var q := Run(p, WarmUpSteps(id, n));
            && q.open == p.open + n && q.handles == p.handles && id !in q.calls
            && |q.idle| == |p.idle| + n && p.idle <= q.idle
    decreases n
  {
    if n > 0 {
      var round := [Proceed(id), FactoryReturns(id, true), Proceed(id)];
      WarmUpOne(p, id);
      RunThree(p, Proceed(id), FactoryReturns(id, true), Proceed(id));
      RunSplit(p, round, WarmUpSteps(id, n - 1));
      WarmUpFills(Run(p, round), id, n - 1);
    } else {
      assert [Proceed(id)][1..] == [];
    }
  }

  // ---------------------------------------------------------------- after close()

  lemma {:induction false} ClosedForGood(p: Pool, actions: seq<Action>)
    requires Inv(p) && p.closed
    ensures var q := Run(p, actions);
            && q.closed && q.waiters == [] && q.idle == []
            && (q.handles == map[] && SlotCalls(q.calls) == {} ==> q.open == 0)
    decreases |actions|
  {
    if actions != [] {
      NextInv(p, actions[0]);
      ClosedForGood(Next(p, actions[0]), actions[1..]);
    }
  }

  // ---------------------------------------------------------------- putting runs together

  lemma {:induction false} RunSplit(p: Pool, first: seq<Action>, second: seq<Action>)
    ensures Run(p, first + second) == Run(Run(p, first), second)
    decreases |first|
  {
    if first == [] {
      assert first + second == second;
    } else {
      assert (first + second)[1..] == first[1..] + second;
      RunSplit(Next(p, first[0]), first[1..], second);
    }
  }
}

/** The pool object: its fields are changed in place, one method per lock-held section or per piece
    of work outside the lock. The calls in progress and the handles are part of the object because
    their steps interleave on it. */
module ConnectionPoolObject {
  import opened Optional
  import opened ConnectionPoolProtocol

  class ConnectionPool {
    const minSize: nat
    const maxSize: nat
    var idle: seq<Conn>
    var waiters: seq<nat>
    var open: int
    var closed: bool
    var calls: map<nat, Call>
    var handles: map<nat, Conn>
    var tickets: nat
    var served: seq<nat>
    var created: nat

    function View(): Pool
      reads this
    {
      Pool(minSize, maxSize, idle, waiters, open, closed, calls, handles, tickets, served, created)
    }

    constructor (minSize: nat, maxSize: nat)
      ensures View() == Init(minSize, maxSize)
    {
      this.minSize, this.maxSize := minSize, maxSize;
      idle, waiters, open, closed, calls, handles, tickets, served, created := [], [], 0, false, map[], map[], 0, [], 0;
    }

    /** create(): refuses a missing factory and sizes that make no sense, otherwise an empty pool with
        the invariant. */
    static method Create(hasFactory: bool, minSize: nat, maxSize: nat) returns (pool: Option<ConnectionPool>)
      ensures pool.Some? <==> hasFactory && 0 < maxSize && minSize <= maxSize
      ensures pool.Some? ==> fresh(pool.value) && pool.value.View() == Init(minSize, maxSize) && Inv(pool.value.View())
    {
      if !hasFactory {
        return None;
      }
      if maxSize == 0 || minSize > maxSize {
        return None;
      }
      var p := new ConnectionPool(minSize, maxSize);
      InitInv(minSize, maxSize);
      return Some(p);
    }

    /** One round of acquire(): an idle connection, a new slot, or the queue. */
    method AcquireRound(id: nat)
      requires id in calls && calls[id].Trying?
      modifies this
      ensures View() == Next(old(View()), Proceed(id))
    {
      if closed {
        calls := calls - {id};
      } else if idle != [] {
        var back := idle[|idle| - 1];
        idle := idle[..|idle| - 1];
        calls := calls[id := CheckingOut(back, open > minSize)];
      } else if open < maxSize {
        open := open + 1;
        calls := calls[id := Opening(true)];
      } else {
        waiters := waiters + [id];
        calls := calls[id := Waiting(Waiter(tickets, None, false, false))];
        tickets := tickets + 1;
      }
    }

    /** One round of warmUp(). */
    method WarmUpRound(id: nat)
      requires id in calls && calls[id].Warming?
      modifies this
      ensures View() == Next(old(View()), Proceed(id))
    {
      if closed || open >= minSize {
        calls := calls - {id};
      } else {
        open := open + 1;
        calls := calls[id := Opening(false)];
      }
    }

    /** giveBack(): to the first waiter, or to the back of the idle list. */
    method GiveBack(id: nat)
      requires Members(View()) && id in calls && calls[id].GivingBack?
      modifies this
      ensures View() == Next(old(View()), Proceed(id))
    {
      var GivingBack(conn, warming) := calls[id];
      assert waiters != [] ==> waiters[0] in waiters && Queued(View(), waiters[0]);
      if closed {
        open := open - 1;
      } else if waiters != [] {
        var first := waiters[0];
        var w := calls[first].waiter;
        waiters, served := waiters[1..], served + [w.ticket];
        calls := calls[first := Waiting(w.(connection := Some(conn)))];
      } else {
        idle := idle + [conn];
      }
      calls := if warming then calls[id := Warming] else calls - {id};
    }

    /** dropped(): the slot passes to the first waiter, or is freed. */
    method DroppedSlot(id: nat)
      requires Members(View()) && id in calls && calls[id].Dropping?
      modifies this
      ensures View() == Next(old(View()), Proceed(id))
    {
      var retry := calls[id].retry;
      assert waiters != [] ==> waiters[0] in waiters && Queued(View(), waiters[0]);
      if !closed && waiters != [] {
        var first := waiters[0];
        var w := calls[first].waiter;
        waiters, served := waiters[1..], served + [w.ticket];
        calls := calls[first := Waiting(w.(mayOpen := true))];
      } else {
        open := open - 1;
      }
      calls := if retry then calls[id := Trying] else calls - {id};
    }

    /** The end of wait_until() without being served: find the queue entry, erase it, throw. */
    method WaitTimedOut(id: nat)
      requires Queue(View()) && Queued(View(), id)
      modifies this
      ensures View() == Next(old(View()), TimesOut(id))
    {
      ghost var at := TimeoutFindsIt(View(), id);
      assert forall i | 0 <= i < at :: waiters[i] in waiters[..at];
      var k := 0;
      while waiters[k] != id
        invariant 0 <= k <= at < |waiters| && waiters == old(waiters) && id !in waiters[..k]
        decreases at - k
      {
        k := k + 1;
      }
      waiters := waiters[..k] + waiters[k + 1..];
      calls := calls - {id};
    }

    /** close(): the idle connections go, every queued waiter is told. */
    method Close()
      modifies this
      ensures View() == Next(old(View()), CloseAction)
    {
      if closed {
        return;
      }
      closed := true;
      open := open - |idle|;
      idle := [];
      for i := 0 to |waiters|
        invariant waiters == old(waiters)
        invariant calls == CloseAll(old(calls), waiters[..i])
        invariant idle == [] && closed && open == old(open) - |old(idle)|
        invariant handles == old(handles) && tickets == old(tickets) && served == old(served) && created == old(created)
      {
        var w := waiters[i];
        if w in calls && calls[w].Waiting? {
          calls := calls[w := MarkClosed(calls[w])];
        }
        assert waiters[..i + 1] == waiters[..i] + [w];
      }
      assert waiters[..|waiters|] == waiters;
      waiters := [];
    }

    // ---------------------------------------------------------------- any step

    /** The end of wait_until() for a served waiter. */
    method Served(id: nat)
      requires id in calls && calls[id].Waiting? && calls[id].waiter.Served()
      modifies this
      ensures View() == Next(old(View()), Proceed(id))
    {
      var w := calls[id].waiter;
      if w.closed {
        calls := calls - {id};
      } else if w.connection.Some? {
        calls, handles := calls - {id}, handles[id := w.connection.value];
      } else {
        calls := calls[id := Opening(true)];
      }
    }

    /** The next lock-held section of a call. */
    method Locked(id: nat)
      requires Inv(View()) && id in calls
      modifies this
      ensures View() == Next(old(View()), Proceed(id))
    {
      match calls[id] {
        case Trying => AcquireRound(id);
        case Warming => WarmUpRound(id);
        case GivingBack(_, _) => GiveBack(id);
        case Dropping(_) => DroppedSlot(id);
        case Waiting(w) =>
          if w.Served() {
            Served(id);
          }
        case _ =>
      }
    }

    /** The end of work outside the lock: the checks of checkOut(), and the factory. */
    method Outside(a: Action)
      requires a.Checked? || a.FactoryReturns?
      modifies this
      ensures View() == Next(old(View()), a)
    {
      match a {
        case Checked(id, result) =>
          if id in calls && calls[id].CheckingOut? && !(result == Expired && !calls[id].aboveMin) {
            if result == Usable {
              calls, handles := calls - {id}, handles[id := calls[id].conn];
            } else {
              calls := calls[id := Dropping(true)];
            }
          }
        case FactoryReturns(id, ok) =>
          if id in calls && calls[id].Opening? {
            if !ok {
              calls := calls[id := Dropping(false)];
            } else if calls[id].forHandle {
              calls, handles, created := calls - {id}, handles[id := created], created + 1;
            } else {
              calls, created := calls[id := GivingBack(created, true)], created + 1;
            }
          }
      }
    }

    /** Handles released, discarded or moved, and calls that begin. */
    method Handle(a: Action)
      requires a.BeginAcquire? || a.BeginWarmUp? || a.Release? || a.Discard? || a.MoveHandle?
      modifies this
      ensures View() == Next(old(View()), a)
    {
      match a {
        case BeginAcquire(id) =>
          if id !in calls && id !in handles {
            calls := calls[id := Trying];
          }
        case BeginWarmUp(id) =>
          if id !in calls && id !in handles {
            calls := calls[id := Warming];
          }
        case Release(h, id) =>
          if h in handles && id !in calls && id !in handles {
            calls, handles := calls[id := GivingBack(handles[h], false)], handles - {h};
          }
        case Discard(h, id) =>
          if h in handles && id !in calls && id !in handles {
            calls, handles := calls[id := Dropping(false)], handles - {h};
          }
        case MoveHandle(h, to) =>
          if h in handles && to !in calls && to !in handles {
            handles := (handles - {h})[to := handles[h]];
          }
      }
    }

    /** Any step of the pool, its calls and its handles; one that is not possible does nothing. */
    method Step(a: Action)
      requires Inv(View())
      modifies this
      ensures View() == Next(old(View()), a) && Inv(View())
    {
      NextInv(View(), a);
      match a {
        case Proceed(id) =>
          if id in calls {
            Locked(id);
          }
        case Checked(_, _) => Outside(a);
        case FactoryReturns(_, _) => Outside(a);
        case TimesOut(id) =>
          if id in calls && calls[id].Waiting? && !calls[id].waiter.Served() {
            WaitTimedOut(id);
          }
        case CloseAction => Close();
        case _ => Handle(a);
      }
    }
  }
}
