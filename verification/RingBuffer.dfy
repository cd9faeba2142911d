/** The multi-producer, multi-consumer ring buffer of include/cppgate/RingBuffer.h.

    Any number of threads run push() and pop() at once. Every atomic access to `head`, `tail` or a
    slot's `sequence`, and every plain access to a slot's `data`, is one step; a run is any
    interleaving of such steps. */
module RingBufferProtocol {

  datatype Slot<T> = Slot(data: T, sequence: nat)

  /** Where a thread is, named after the access it performs next. */
  datatype Thread<T> =
    | Outside
    | PushWaiting(pos: nat, item: T)     // spins until sequence == pos
    | PushWriting(pos: nat, item: T)     // writes the slot's data
    | PushPublishing(pos: nat, item: T)  // stores sequence = pos + 1
    | PopChecking(pos: nat)              // loads sequence, compares it with pos + 1
    | PopClaiming(pos: nat)              // compare-exchange of tail from pos to pos + 1
    | PopReading(pos: nat)               // reads the slot's data
    | PopReleasing(pos: nat, out: T)     // stores sequence = pos + Size
  {
    predicate Pushing(ticket: nat) {
      (PushWaiting? || PushWriting? || PushPublishing?) && pos == ticket
    }

    predicate Consuming(ticket: nat) {
      (PopReading? || PopReleasing?) && pos == ticket
    }

    /** About to touch the plain (non-atomic) data of a slot. */
    predicate TouchesData() {
      PushWriting? || PopReading?
    }
  }

  /** One pop() that returned true. */
  datatype Delivery<T> = Delivery(ticket: nat, value: T)

  /** The shared memory, the threads, and four histories: the item and the thread of every ticket
      taken from `head`, the thread of every ticket won from `tail`, and the completed pops. */
  datatype Buffer<T> = Buffer(
    slots: seq<Slot<T>>, head: nat, tail: nat, threads: map<nat, Thread<T>>,
    pushed: seq<T>, producers: seq<nat>, consumers: seq<nat>, delivered: seq<Delivery<T>>)
  {
    function At(t: nat): Thread<T> {
      if t in threads then threads[t] else Outside
    }

    function SlotOf(pos: nat): (i: nat)
      requires |slots| > 0
      ensures i < |slots|
    {
      pos % |slots|
    }

    function Sequence(pos: nat): nat
      requires |slots| > 0
    {
      slots[SlotOf(pos)].sequence
    }

    function Move(t: nat, to: Thread<T>): Buffer<T> {
      this.(threads := threads[t := to])
    }

    function StoreSequence(pos: nat, sequence: nat): Buffer<T>
      requires |slots| > 0
    {
      this.(slots := slots[SlotOf(pos) := slots[SlotOf(pos)].(sequence := sequence)])
    }

    function StoreData(pos: nat, data: T): Buffer<T>
      requires |slots| > 0
    {
      this.(slots := slots[SlotOf(pos) := slots[SlotOf(pos)].(data := data)])
    }
  }

  datatype Action<T> =
    | BeginPush(thread: nat, item: T)
    | BeginPop(thread: nat)
    | Advance(thread: nat)
    | SpuriousFailure(thread: nat)  // compare_exchange_weak may fail without cause

  /** The buffer as constructed: slot i carries sequence i, its data is whatever memory held. */
  function Init<T>(memory: seq<T>): Buffer<T> {
    Buffer(seq(|memory|, i requires 0 <= i < |memory| => Slot(memory[i], i)), 0, 0, map[], [], [], [], [])
  }

  /** The next access of thread t inside push() or pop(). */
  function Proceed<T>(b: Buffer<T>, t: nat): Buffer<T>
    requires |b.slots| > 0
  {
    match b.At(t)
    case Outside => b
    case PushWaiting(pos, item) =>
      if b.Sequence(pos) == pos then b.Move(t, PushWriting(pos, item)) else b
    case PushWriting(pos, item) => b.StoreData(pos, item).Move(t, PushPublishing(pos, item))
    case PushPublishing(pos, item) => b.StoreSequence(pos, pos + 1).Move(t, Outside)
    case PopChecking(pos) =>
      if b.Sequence(pos) == pos + 1 then b.Move(t, PopClaiming(pos))
      else if b.Sequence(pos) < pos + 1 then b.Move(t, Outside)  // pop() returns false
      else b.Move(t, PopChecking(b.tail))
    case PopClaiming(pos) =>
      if b.tail == pos then
        b.(tail := pos + 1, consumers := b.consumers + [t]).Move(t, PopReading(pos))
      else
        b.Move(t, PopChecking(b.tail))
    case PopReading(pos) => b.Move(t, PopReleasing(pos, b.slots[b.SlotOf(pos)].data))
    case PopReleasing(pos, out) =>
      b.(delivered := b.delivered + [Delivery(pos, out)])
      .StoreSequence(pos, pos + |b.slots|).Move(t, Outside)
  }

  function Next<T>(b: Buffer<T>, a: Action<T>): Buffer<T>
    requires |b.slots| > 0
  {
    var t := a.thread;
    match a
    case BeginPush(_, item) =>
      if b.At(t).Outside? then
        b.(head := b.head + 1, pushed := b.pushed + [item], producers := b.producers + [t])
        .Move(t, PushWaiting(b.head, item))
      else b
    case BeginPop(_) =>
      if b.At(t).Outside? then b.Move(t, PopChecking(b.tail)) else b
    case Advance(_) => Proceed(b, t)
    case SpuriousFailure(_) =>
      if b.At(t).PopClaiming? then b.Move(t, PopChecking(b.tail)) else b
  }

  function Run<T>(b: Buffer<T>, actions: seq<Action<T>>): (r: Buffer<T>)
    requires |b.slots| > 0
    ensures |r.slots| == |b.slots|
    decreases |actions|
  {
    if actions == [] then b else Run(Next(b, actions[0]), actions[1..])
  }

  // ---------------------------------------------------------------- the invariant

  /** Slot i is empty and its sequence names the one ticket whose producer may fill it. */
  ghost predicate Free<T>(b: Buffer<T>, i: nat)
    requires i < |b.slots|
  {
    var s := b.slots[i].sequence;
    b.SlotOf(s) == i && b.tail <= s < b.tail + |b.slots|
  }

  /** Slot i holds the item of ticket p = sequence - 1, which no one or exactly one consumer took. */
  ghost predicate Published<T>(b: Buffer<T>, i: nat)
    requires i < |b.slots| && b.head == |b.pushed| && b.tail == |b.consumers|
  {
    var s := b.slots[i].sequence;
    s > 0 &&
    var p := s - 1;
    && b.SlotOf(p) == i
    && p < b.head
    && p < b.tail + |b.slots|
    && b.tail <= p + |b.slots|
    && b.slots[i].data == b.pushed[p]
    && (p < b.tail ==> b.At(b.consumers[p]).Consuming(p))
  }

  ghost predicate ThreadInv<T>(b: Buffer<T>, t: nat)
    requires |b.slots| > 0 && b.head == |b.pushed| == |b.producers| && b.tail == |b.consumers|
  {
    match b.At(t)
    case Outside => true
    case PushWaiting(pos, item) =>
      pos < b.head && b.producers[pos] == t && b.pushed[pos] == item && b.Sequence(pos) <= pos
    case PushWriting(pos, item) =>
      pos < b.head && b.producers[pos] == t && b.pushed[pos] == item && b.Sequence(pos) == pos
    case PushPublishing(pos, item) =>
      && pos < b.head && b.producers[pos] == t && b.pushed[pos] == item && b.Sequence(pos) == pos
      && b.slots[b.SlotOf(pos)].data == item
    case PopChecking(pos) => pos <= b.tail
    case PopClaiming(pos) => pos <= b.tail && (pos == b.tail ==> b.Sequence(pos) == pos + 1)
    case PopReading(pos) => pos < b.tail && b.consumers[pos] == t && b.Sequence(pos) == pos + 1
    case PopReleasing(pos, out) =>
      && pos < b.tail && b.consumers[pos] == t && b.Sequence(pos) == pos + 1
      && pos < b.head && out == b.pushed[pos]
  }

  /** Which tickets have been returned by a pop(). */
  function Tickets<T>(delivered: seq<Delivery<T>>): set<nat> {
    set k | 0 <= k < |delivered| :: delivered[k].ticket
  }

  ghost predicate DeliveryInv<T>(b: Buffer<T>)
    requires |b.slots| > 0 && b.head == |b.pushed|
  {
    && (forall k | 0 <= k < |b.delivered| ::
          var d := b.delivered[k];
          d.ticket < b.tail && d.ticket < b.head && d.value == b.pushed[d.ticket] &&
          b.Sequence(d.ticket) >= d.ticket + |b.slots|)
    && (forall j, k | 0 <= j < k < |b.delivered| :: b.delivered[j].ticket != b.delivered[k].ticket)
    && (forall p: nat | p < b.tail && b.Sequence(p) != p + 1 :: p in Tickets(b.delivered))
  }

  ghost predicate Counters<T>(b: Buffer<T>) {
    && |b.slots| >= 2
    && b.head == |b.pushed| == |b.producers|
    && b.tail == |b.consumers| <= b.head
  }

  ghost predicate Inv<T>(b: Buffer<T>) {
    && Counters(b)
    && (forall i: nat | i < |b.slots| :: Free(b, i) || Published(b, i))
    && (forall t: nat :: ThreadInv(b, t))
    && (forall p: nat | p < b.head && b.Sequence(p) <= p :: b.At(b.producers[p]).Pushing(p))
    && DeliveryInv(b)
  }

  // ---------------------------------------------------------------- arithmetic of laps

  lemma OnlyZeroTimes(k: int, n: int)
    requires -n < k * n < n
    ensures k == 0
  {
  }

  lemma SameSlot(p: nat, q: nat, n: nat)
    requires n > 0 && p < q && p % n == q % n
    ensures p + n <= q
  {
    var k := q / n - p / n;
    assert q - p == k * n;
    if q < p + n {
      OnlyZeroTimes(k, n);
    }
  }

  lemma NextLap(p: nat, n: nat)
    requires n > 0
    ensures (p + n) % n == p % n
  {
    var k := (p + n) / n - p / n - 1;
    assert p % n - (p + n) % n == k * n;
    OnlyZeroTimes(k, n);
  }

  /** Two different tickets of one slot are at least a whole lap apart. */
  lemma Laps<T>(b: Buffer<T>)
    requires |b.slots| > 0
    ensures forall p: nat, q: nat | p < q && b.SlotOf(p) == b.SlotOf(q) :: p + |b.slots| <= q
  {
    forall p: nat, q: nat | p < q && b.SlotOf(p) == b.SlotOf(q) ensures p + |b.slots| <= q {
      SameSlot(p, q, |b.slots|);
    }
  }

  // ---------------------------------------------------------------- every step keeps it

  lemma InitInv<T>(memory: seq<T>)
    requires |memory| >= 2
    ensures Inv(Init(memory))
  {
    var b := Init(memory);
    forall i: nat | i < |b.slots| ensures Free(b, i) {
      assert i % |memory| == i;
    }
  }

  lemma BeginPushThread<T>(b: Buffer<T>, t: nat, item: T, u: nat)
    requires Inv(b) && b.At(t).Outside?
    ensures var b' := Next(b, BeginPush(t, item)); Counters(b') && ThreadInv(b', u)
  {
    Laps(b);
    assert Free(b, b.SlotOf(b.head)) || Published(b, b.SlotOf(b.head));
    assert ThreadInv(b, u);
  }

  lemma BeginPushInv<T>(b: Buffer<T>, t: nat, item: T)
    requires Inv(b) && b.At(t).Outside?
    ensures Inv(Next(b, BeginPush(t, item)))
  {
    var b' := Next(b, BeginPush(t, item));
    Laps(b);
    forall i: nat | i < |b'.slots| ensures Free(b', i) || Published(b', i) {
      assert Free(b, i) || Published(b, i);
    }
    assert Free(b, b.SlotOf(b.head)) || Published(b, b.SlotOf(b.head));
    forall u: nat ensures ThreadInv(b', u) {
      BeginPushThread(b, t, item, u);
    }
  }

  lemma PopMovesThread<T>(b: Buffer<T>, t: nat, pc: Thread<T>, u: nat)
    requires Inv(b)
    requires b.At(t).Outside? || b.At(t).PopChecking? || b.At(t).PopClaiming?
    requires pc == Outside || pc == PopChecking(b.tail) ||
             (b.At(t).PopChecking? && b.Sequence(b.At(t).pos) == b.At(t).pos + 1 && pc == PopClaiming(b.At(t).pos))
    ensures Counters(b.Move(t, pc)) && ThreadInv(b.Move(t, pc), u)
  {
    assert ThreadInv(b, t) && ThreadInv(b, u);
  }

  /** Steps of pop() that change no shared memory. */
  lemma PopMovesInv<T>(b: Buffer<T>, t: nat, pc: Thread<T>)
    requires Inv(b)
    requires b.At(t).Outside? || b.At(t).PopChecking? || b.At(t).PopClaiming?
    requires pc == Outside || pc == PopChecking(b.tail) ||
             (b.At(t).PopChecking? && b.Sequence(b.At(t).pos) == b.At(t).pos + 1 && pc == PopClaiming(b.At(t).pos))
    ensures Inv(b.Move(t, pc))
  {
    var b' := b.Move(t, pc);
    forall i: nat | i < |b'.slots| ensures Free(b', i) || Published(b', i) {
      assert Free(b, i) || Published(b, i);
    }
    assert ThreadInv(b, t);
    forall u: nat ensures ThreadInv(b', u) {
      PopMovesThread(b, t, pc, u);
    }
  }

  lemma WaitingInv<T>(b: Buffer<T>, t: nat)
    requires Inv(b) && b.At(t).PushWaiting?
    ensures Inv(Proceed(b, t))
  {
    var b' := Proceed(b, t);
    assert ThreadInv(b, t);
    forall i: nat | i < |b'.slots| ensures Free(b', i) || Published(b', i) {
      assert Free(b, i) || Published(b, i);
    }
    forall u: nat ensures ThreadInv(b', u) {
      assert ThreadInv(b, u);
    }
  }

  lemma WritingInv<T>(b: Buffer<T>, t: nat)
    requires Inv(b) && b.At(t).PushWriting?
    ensures Inv(Proceed(b, t))
  {
    var b' := Proceed(b, t);
    var pos := b.At(t).pos;
    Laps(b);
    assert ThreadInv(b, t);
    assert Free(b, b.SlotOf(pos)) || Published(b, b.SlotOf(pos));
    forall i: nat | i < |b'.slots| ensures Free(b', i) || Published(b', i) {
      assert Free(b, i) || Published(b, i);
    }
    forall u: nat ensures ThreadInv(b', u) {
      assert ThreadInv(b, u);
    }
  }

  lemma PublishingThread<T>(b: Buffer<T>, t: nat, u: nat)
    requires Inv(b) && b.At(t).PushPublishing?
    ensures Counters(Proceed(b, t)) && ThreadInv(Proceed(b, t), u)
  {
    var pos := b.At(t).pos;
    Laps(b);
    assert ThreadInv(b, t) && ThreadInv(b, u);
    assert Free(b, b.SlotOf(pos)) || Published(b, b.SlotOf(pos));
  }

  lemma PublishingDelivery<T>(b: Buffer<T>, t: nat)
    requires Inv(b) && b.At(t).PushPublishing?
    ensures Counters(Proceed(b, t)) && DeliveryInv(Proceed(b, t))
  {
    var pos := b.At(t).pos;
    Laps(b);
    assert ThreadInv(b, t);
    assert Free(b, b.SlotOf(pos)) || Published(b, b.SlotOf(pos));
  }

  lemma PublishingSlot<T>(b: Buffer<T>, t: nat, i: nat)
    requires Inv(b) && b.At(t).PushPublishing? && i < |b.slots|
    ensures var b' := Proceed(b, t); Counters(b') && (Free(b', i) || Published(b', i))
  {
    Laps(b);
    assert ThreadInv(b, t);
    assert Free(b, i) || Published(b, i);
  }

  /** Only the ticket just published stops waiting for its producer. */
  lemma PublishingPending<T>(b: Buffer<T>, t: nat, p: nat)
    requires Inv(b) && b.At(t).PushPublishing? && p < b.head && Proceed(b, t).Sequence(p) <= p
    ensures Proceed(b, t).At(b.producers[p]).Pushing(p)
  {
    Laps(b);
    assert ThreadInv(b, t);
    assert Free(b, b.SlotOf(p)) || Published(b, b.SlotOf(p));
  }

  lemma PublishingInv<T>(b: Buffer<T>, t: nat)
    requires Inv(b) && b.At(t).PushPublishing?
    ensures Inv(Proceed(b, t))
  {
    var b' := Proceed(b, t);
    PublishingDelivery(b, t);
    forall i: nat | i < |b'.slots| ensures Free(b', i) || Published(b', i) {
      PublishingSlot(b, t, i);
    }
    forall u: nat ensures ThreadInv(b', u) {
      PublishingThread(b, t, u);
    }
    forall p: nat | p < b'.head && b'.Sequence(p) <= p ensures b'.At(b'.producers[p]).Pushing(p) {
      PublishingPending(b, t, p);
    }
  }

  /** A sequence of pos + 1 means published, never free: this is what needs two slots or more. */
  lemma ReadyMeansPublished<T>(b: Buffer<T>, pos: nat)
    requires Inv(b) && b.Sequence(pos) == pos + 1
    ensures Published(b, b.SlotOf(pos)) && pos < b.head
  {
    assert Free(b, b.SlotOf(pos)) || Published(b, b.SlotOf(pos));
    if b.SlotOf(pos) == b.SlotOf(pos + 1) {
      SameSlot(pos, pos + 1, |b.slots|);
    }
  }

  lemma ClaimingSlot<T>(b: Buffer<T>, t: nat, i: nat)
    requires Inv(b) && b.At(t).PopClaiming? && b.At(t).pos == b.tail && i < |b.slots|
    ensures var b' := Proceed(b, t); Counters(b') && (Free(b', i) || Published(b', i))
  {
    var s := b.slots[i].sequence;
    assert ThreadInv(b, t);
    ReadyMeansPublished(b, b.tail);
    if Free(b, i) {
      assert s != b.tail;
    } else {
      assert Published(b, i);
      NextLap(s - 1, |b.slots|);
    }
  }

  lemma ClaimingThread<T>(b: Buffer<T>, t: nat, u: nat)
    requires Inv(b) && b.At(t).PopClaiming? && b.At(t).pos == b.tail
    ensures var b' := Proceed(b, t); Counters(b') && ThreadInv(b', u)
  {
    assert ThreadInv(b, t) && ThreadInv(b, u);
    ClaimingSlot(b, t, b.SlotOf(b.tail));
  }

  lemma ClaimingInv<T>(b: Buffer<T>, t: nat)
    requires Inv(b) && b.At(t).PopClaiming? && b.At(t).pos == b.tail
    ensures Inv(Proceed(b, t))
  {
    var b' := Proceed(b, t);
    assert ThreadInv(b, t);
    ClaimingSlot(b, t, 0);
    forall i: nat | i < |b'.slots| ensures Free(b', i) || Published(b', i) {
      ClaimingSlot(b, t, i);
    }
    forall u: nat ensures ThreadInv(b', u) {
      ClaimingThread(b, t, u);
    }
    assert DeliveryInv(b') by {
      assert DeliveryInv(b);
    }
  }

  lemma ReadingThread<T>(b: Buffer<T>, t: nat, u: nat)
    requires Inv(b) && b.At(t).PopReading?
    ensures Counters(Proceed(b, t)) && ThreadInv(Proceed(b, t), u)
  {
    var pos := b.At(t).pos;
    Laps(b);
    assert ThreadInv(b, t) && ThreadInv(b, u);
    assert Free(b, b.SlotOf(pos)) || Published(b, b.SlotOf(pos));
  }

  lemma ReadingInv<T>(b: Buffer<T>, t: nat)
    requires Inv(b) && b.At(t).PopReading?
    ensures Inv(Proceed(b, t))
  {
    var b' := Proceed(b, t);
    assert ThreadInv(b, t);
    forall i: nat | i < |b'.slots| ensures Free(b', i) || Published(b', i) {
      assert Free(b, i) || Published(b, i);
    }
    forall u: nat ensures ThreadInv(b', u) {
      ReadingThread(b, t, u);
    }
  }

  lemma ReleasingSlot<T>(b: Buffer<T>, t: nat, i: nat)
    requires Inv(b) && b.At(t).PopReleasing? && i < |b.slots|
    ensures var b' := Proceed(b, t); Counters(b') && (Free(b', i) || Published(b', i))
  {
    var pos := b.At(t).pos;
    Laps(b);
    NextLap(pos, |b.slots|);
    assert ThreadInv(b, t);
    assert Free(b, b.SlotOf(pos)) || Published(b, b.SlotOf(pos));
    assert Free(b, i) || Published(b, i);
  }

  lemma ReleasingThread<T>(b: Buffer<T>, t: nat, u: nat)
    requires Inv(b) && b.At(t).PopReleasing?
    ensures var b' := Proceed(b, t); Counters(b') && ThreadInv(b', u)
  {
    var pos := b.At(t).pos;
    Laps(b);
    assert ThreadInv(b, t) && ThreadInv(b, u);
    assert Free(b, b.SlotOf(pos)) || Published(b, b.SlotOf(pos));
  }

  /** The new delivery's ticket is its consumer's; its slot moves on to the next lap. */
  lemma ReleasingOthers<T>(b: Buffer<T>, t: nat)
    requires Inv(b) && b.At(t).PopReleasing?
    ensures var b', pos := Proceed(b, t), b.At(t).pos;
            && Counters(b')
            && pos < b.tail && b.At(t).out == b.pushed[pos]
            && (forall q: nat | b.SlotOf(q) != b.SlotOf(pos) :: b'.Sequence(q) == b.Sequence(q))
            && (forall q: nat | b.SlotOf(q) == b.SlotOf(pos) :: b'.Sequence(q) == pos + |b.slots|)
            && (forall k | 0 <= k < |b.delivered| :: b.delivered[k].ticket != pos)
            && b.Sequence(pos) == pos + 1
  {
    assert ThreadInv(b, t);
  }

  lemma SlotLater<T>(b: Buffer<T>, pos: nat, q: nat)
    requires |b.slots| > 0 && b.Sequence(pos) == pos + 1 && b.Sequence(q) >= q + |b.slots|
    ensures b.SlotOf(q) == b.SlotOf(pos) ==> pos >= q
  {
  }

  lemma SlotEarlier<T>(b: Buffer<T>, pos: nat, p: nat)
    requires |b.slots| >= 2 && b.Sequence(pos) == pos + 1 && p != pos
    ensures b.SlotOf(p) == b.SlotOf(pos) ==> b.Sequence(p) != p + 1
  {
  }

  /** Deliveries after consumer t of ticket pos released its slot. */
  lemma DeliveryAdded<T>(b: Buffer<T>, b': Buffer<T>, pos: nat, out: T)
    requires Counters(b) && DeliveryInv(b)
    requires b'.slots != [] && |b'.slots| == |b.slots| && b'.pushed == b.pushed && b'.head == b.head && b'.tail == b.tail
    requires b'.delivered == b.delivered + [Delivery(pos, out)]
    requires pos < b.tail && out == b.pushed[pos] && b.Sequence(pos) == pos + 1
    requires forall q: nat | b.SlotOf(q) != b.SlotOf(pos) :: b'.Sequence(q) == b.Sequence(q)
    requires forall q: nat | b.SlotOf(q) == b.SlotOf(pos) :: b'.Sequence(q) == pos + |b.slots|
    requires forall k | 0 <= k < |b.delivered| :: b.delivered[k].ticket != pos
    ensures DeliveryInv(b')
  {
    var last := |b.delivered|;
    assert b'.delivered[last] == Delivery(pos, out);
    forall k | 0 <= k < last
      ensures b'.delivered[k] == b.delivered[k] && b'.Sequence(b.delivered[k].ticket) >= b.delivered[k].ticket + |b.slots|
    {
      SlotLater(b, pos, b.delivered[k].ticket);
    }
    forall p: nat | p < b'.tail && b'.Sequence(p) != p + 1 ensures p in Tickets(b'.delivered) {
      if p == pos {
        assert b'.delivered[last].ticket == p;
      } else {
        SlotEarlier(b, pos, p);
        assert p in Tickets(b.delivered);
        var k :| 0 <= k < last && b.delivered[k].ticket == p;
        assert b'.delivered[k].ticket == p;
      }
    }
  }

  lemma ReleasingDelivery<T>(b: Buffer<T>, t: nat)
    requires Inv(b) && b.At(t).PopReleasing?
    ensures var b' := Proceed(b, t); Counters(b') && DeliveryInv(b')
  {
    ReleasingOthers(b, t);
    DeliveryAdded(b, Proceed(b, t), b.At(t).pos, b.At(t).out);
  }

  lemma ReleasingInv<T>(b: Buffer<T>, t: nat)
    requires Inv(b) && b.At(t).PopReleasing?
    ensures Inv(Proceed(b, t))
  {
    var b' := Proceed(b, t);
    ReleasingDelivery(b, t);
    assert ThreadInv(b, t);
    forall i: nat | i < |b'.slots| ensures Free(b', i) || Published(b', i) {
      ReleasingSlot(b, t, i);
    }
    forall u: nat ensures ThreadInv(b', u) {
      ReleasingThread(b, t, u);
    }
    forall p: nat | p < b'.head && b'.Sequence(p) <= p ensures b'.At(b'.producers[p]).Pushing(p) {
      Laps(b);
      assert Free(b, b.SlotOf(p)) || Published(b, b.SlotOf(p));
    }
  }

  lemma NextInv<T>(b: Buffer<T>, a: Action<T>)
    requires Inv(b)
    ensures Inv(Next(b, a))
  {
    var t := a.thread;
    assert ThreadInv(b, t);
    match a
    case BeginPush(_, item) => if b.At(t).Outside? { BeginPushInv(b, t, item); }
    case BeginPop(_) => if b.At(t).Outside? { PopMovesInv(b, t, PopChecking(b.tail)); }
    case SpuriousFailure(_) => if b.At(t).PopClaiming? { PopMovesInv(b, t, PopChecking(b.tail)); }
    case Advance(_) =>
      match b.At(t)
      case Outside =>
      case PushWaiting(_, _) => WaitingInv(b, t);
      case PushWriting(_, _) => WritingInv(b, t);
      case PushPublishing(_, _) => PublishingInv(b, t);
      case PopChecking(pos) =>
        if b.Sequence(pos) == pos + 1 { PopMovesInv(b, t, PopClaiming(pos)); }
        else if b.Sequence(pos) < pos + 1 { PopMovesInv(b, t, Outside); }
        else { PopMovesInv(b, t, PopChecking(b.tail)); }
      case PopClaiming(pos) =>
        if b.tail == pos { ClaimingInv(b, t); } else { PopMovesInv(b, t, PopChecking(b.tail)); }
      case PopReading(_) => ReadingInv(b, t);
      case PopReleasing(_, _) => ReleasingInv(b, t);
  }

  lemma {:induction false} RunInv<T>(b: Buffer<T>, actions: seq<Action<T>>)
    requires Inv(b)
    ensures Inv(Run(b, actions))
    decreases |actions|
  {
    if actions != [] {
      NextInv(b, actions[0]);
      RunInv(Next(b, actions[0]), actions[1..]);
    }
  }

  // ---------------------------------------------------------------- safety of every run

  /** No two threads are about to access the data of one slot. */
  ghost predicate Exclusive<T>(b: Buffer<T>)
    requires |b.slots| > 0
  {
    forall t: nat, u: nat | t != u && b.At(t).TouchesData() && b.At(u).TouchesData() ::
      b.SlotOf(b.At(t).pos) != b.SlotOf(b.At(u).pos)
  }

  /** Every pop() that returned true got the item pushed under its ticket, no ticket twice. */
  ghost predicate Faithful<T>(b: Buffer<T>) {
    && (forall k | 0 <= k < |b.delivered| ::
          b.delivered[k].ticket < |b.pushed| && b.delivered[k].value == b.pushed[b.delivered[k].ticket])
    && (forall j, k | 0 <= j < k < |b.delivered| :: b.delivered[j].ticket != b.delivered[k].ticket)
  }

  /** Where the item of every ticket taken from `head` is, at any moment. */
  ghost predicate Accounted<T>(b: Buffer<T>)
    requires |b.slots| > 0
  {
    && b.head == |b.pushed| == |b.producers|
    && b.tail == |b.consumers| <= b.head
    && (forall p: nat | p < b.tail ::
          p in Tickets(b.delivered) || b.At(b.consumers[p]).Consuming(p))
    && (forall p: nat | b.tail <= p < b.head ::
          || b.At(b.producers[p]).Pushing(p)
          || b.slots[b.SlotOf(p)] == Slot(b.pushed[p], p + 1))
  }

  lemma ExclusiveAccess<T>(b: Buffer<T>)
    requires Inv(b)
    ensures Exclusive(b)
  {
    forall t: nat, u: nat | t != u && b.At(t).TouchesData() && b.At(u).TouchesData()
      ensures b.SlotOf(b.At(t).pos) != b.SlotOf(b.At(u).pos)
    {
      assert ThreadInv(b, t) && ThreadInv(b, u);
      var p, q := b.At(t).pos, b.At(u).pos;
      if b.SlotOf(p) == b.SlotOf(q) {
        if p < q { SameSlot(p, q, |b.slots|); }
        if q < p { SameSlot(q, p, |b.slots|); }
      }
    }
  }

  lemma NothingLost<T>(b: Buffer<T>)
    requires Inv(b)
    ensures Accounted(b)
  {
    Laps(b);
    forall p: nat | p < b.tail
      ensures p in Tickets(b.delivered) || b.At(b.consumers[p]).Consuming(p)
    {
      if b.Sequence(p) == p + 1 {
        ReadyMeansPublished(b, p);
      }
    }
    forall p: nat | b.tail <= p < b.head
      ensures b.At(b.producers[p]).Pushing(p) || b.slots[b.SlotOf(p)] == Slot(b.pushed[p], p + 1)
    {
      assert Free(b, b.SlotOf(p)) || Published(b, b.SlotOf(p));
    }
  }

  /** Every interleaving of any number of producers and consumers, on two slots or more. */
  lemma EveryRunIsSafe<T>(memory: seq<T>, actions: seq<Action<T>>)
    requires |memory| >= 2
    ensures var b := Run(Init(memory), actions);
            Exclusive(b) && Faithful(b) && Accounted(b)
  {
    InitInv(memory);
    RunInv(Init(memory), actions);
    ExclusiveAccess(Run(Init(memory), actions));
    NothingLost(Run(Init(memory), actions));
  }

  // ---------------------------------------------------------------- one slot is not enough

  /** The capacity the constructor chooses: std::bit_ceil(requested). */
  function BitCeil(requested: nat): nat {
    Doubled(1, requested)
  }

  function Doubled(size: nat, requested: nat): (r: nat)
    requires size > 0
    ensures r >= size
    decreases requested - size
  {
    if size >= requested then size else Doubled(2 * size, requested)
  }

  ghost predicate PowerOfTwo(n: nat) {
    n == 1 || (n > 1 && n % 2 == 0 && PowerOfTwo(n / 2))
  }

  lemma {:induction false} DoubledCorrect(size: nat, requested: nat)
    requires PowerOfTwo(size) && (size == 1 || size / 2 < requested)
    ensures PowerOfTwo(Doubled(size, requested)) && Doubled(size, requested) >= requested
    ensures Doubled(size, requested) == 1 || Doubled(size, requested) / 2 < requested
    decreases requested - size
  {
    if size < requested {
      DoubledCorrect(2 * size, requested);
    }
  }

  /** bit_ceil is the least power of two that is large enough, so one slot is chosen exactly for
      a requested size of 0 or 1. */
  lemma BitCeilCorrect(requested: nat)
    ensures PowerOfTwo(BitCeil(requested)) && BitCeil(requested) >= requested
    ensures BitCeil(requested) == 1 || BitCeil(requested) / 2 < requested
    ensures BitCeil(requested) >= 2 <==> requested >= 2
  {
    DoubledCorrect(1, requested);
  }

  /** With one slot, "published" (pos + 1) equals "free for the next lap" (pos + Size): a second
      producer writes the slot while the consumer of the first ticket reads it. */
  function OneSlotRace(): seq<Action<int>> {
    [ BeginPush(0, 10), Advance(0), Advance(0), Advance(0),  // ticket 0 is published
      BeginPop(1), Advance(1),                               // a consumer sees it ready
      BeginPush(2, 20), Advance(2),                          // ticket 1 sees its turn, too
      Advance(1)]                                            // the consumer wins ticket 0
  }

  function OneSlot(sequence: nat, head: nat, threads: map<nat, Thread<int>>, pushed: seq<int>, producers: seq<nat>): Buffer<int> {
    Buffer([Slot(10, sequence)], head, 0, threads, pushed, producers, [], [])
  }

  /** Ticket 0 is published. */
  function Filled(): Buffer<int> {
    OneSlot(1, 1, map[0 := Outside], [10], [0])
  }

  /** A consumer is about to claim ticket 0, and the producer of ticket 1 has arrived. */
  function Contended(): Buffer<int> {
    OneSlot(1, 2, map[0 := Outside, 1 := PopClaiming(0), 2 := PushWaiting(1, 20)], [10, 20], [0, 2])
  }

  lemma OneSlotFills(memory: seq<int>)
    requires |memory| == 1
    ensures Run(Init(memory), OneSlotRace()) == Run(Filled(), OneSlotRace()[4..])
  {
    var a, b0 := OneSlotRace(), Init(memory);
    var b1 := Next(b0, BeginPush(0, 10));
    assert b1 == b0.(head := 1, pushed := [10], producers := [0], threads := map[0 := PushWaiting(0, 10)]);
    var b2 := Next(b1, Advance(0));
    assert b2 == b1.(threads := map[0 := PushWriting(0, 10)]);
    var b3 := Next(b2, Advance(0));
    assert b3 == OneSlot(0, 1, map[0 := PushPublishing(0, 10)], [10], [0]);
    assert Next(b3, Advance(0)) == Filled();
    RunStep(b0, a, 0); RunStep(b1, a, 1); RunStep(b2, a, 2); RunStep(b3, a, 3);
    assert a[0..] == a;
  }

  lemma OneSlotContends()
    ensures Run(Filled(), OneSlotRace()[4..]) == Run(Contended(), OneSlotRace()[7..])
  {
    var a, b4 := OneSlotRace(), Filled();
    var b5 := Next(b4, BeginPop(1));
    var b6 := Next(b5, Advance(1));
    assert b6.threads == map[0 := Outside, 1 := PopClaiming(0)];
    assert Next(b6, BeginPush(2, 20)) == Contended();
    RunStep(b4, a, 4); RunStep(b5, a, 5); RunStep(b6, a, 6);
  }

  lemma OneSlotClashes(b: Buffer<int>)
    requires |b.slots| == 1 && b.At(1).PopReading? && b.At(2).PushWriting?
    ensures !Exclusive(b)
  {
    assert b.SlotOf(b.At(1).pos) == b.SlotOf(b.At(2).pos);
  }

  lemma OneSlotEnds()
    ensures var b := Run(Contended(), OneSlotRace()[7..]);
            |b.slots| == 1 && b.At(1) == PopReading(0) && b.At(2) == PushWriting(1, 20)
  {
    var a, b7 := OneSlotRace(), Contended();
    var b8 := Next(b7, Advance(2));
    assert b8 == b7.(threads := b7.threads[2 := PushWriting(1, 20)]);
    var b9 := Next(b8, Advance(1));
    assert b9.threads == b8.threads[1 := PopReading(0)];
    RunStep(b7, a, 7); RunStep(b8, a, 8);
    assert a[9..] == [];
  }

  lemma OneSlotBreaks(memory: seq<int>)
    requires |memory| == 1
    ensures !Exclusive(Run(Init(memory), OneSlotRace()))
  {
    OneSlotFills(memory);
    OneSlotContends();
    OneSlotEnds();
    OneSlotClashes(Run(Contended(), OneSlotRace()[7..]));
  }

  lemma RunStep<T>(b: Buffer<T>, actions: seq<Action<T>>, k: nat)
    requires |b.slots| > 0 && k < |actions|
    ensures Run(b, actions[k..]) == Run(Next(b, actions[k]), actions[k + 1..])
  {
    assert actions[k..][1..] == actions[k + 1..];
  }

  /** The buffer is safe in every run exactly when it was asked for two items or more. */
  lemma SafeExactlyFromTwo(requested: nat)
    ensures requested >= 2 <==>
            forall memory: seq<int>, actions: seq<Action<int>> | |memory| == BitCeil(requested) ::
              Exclusive(Run(Init(memory), actions))
  {
    BitCeilCorrect(requested);
    if requested >= 2 {
      forall memory: seq<int>, actions: seq<Action<int>> | |memory| == BitCeil(requested)
        ensures Exclusive(Run(Init(memory), actions))
      {
        EveryRunIsSafe(memory, actions);
      }
    } else {
      OneSlotBreaks([0]);
      assert |[0]| == BitCeil(requested);
    }
  }

  // ---------------------------------------------------------------- pop() reporting false

  /** Every access of a pop() without a ticket, whether its exchange fails without cause or not: it
      reports false only while the tail ticket is not published; it wins exactly the tail ticket, by an
      exchange that finds its position still the tail; and it tries again, at the current tail, only
      after another consumer moved the tail past it, or the exchange failed without cause. */
  lemma PopRetries<T>(b: Buffer<T>, t: nat, a: Action<T>)
    requires Inv(b) && (a == Advance(t) || a == SpuriousFailure(t))
    requires b.At(t).PopChecking? || b.At(t).PopClaiming?
    ensures var c := Next(b, a);
            && (c.At(t).Outside? ==> b.At(t) == PopChecking(b.tail) && b.Sequence(b.tail) <= b.tail && c.Sequence(c.tail) <= c.tail)
            && (c.At(t).PopReading? <==> a.Advance? && b.At(t) == PopClaiming(b.tail))
            && (c.At(t).PopReading? ==> c.At(t).pos == b.tail && c.tail == b.tail + 1 && b.Sequence(b.tail) == b.tail + 1)
            && (!c.At(t).PopReading? ==> c.tail == b.tail && c.consumers == b.consumers)
            && (c.At(t).PopClaiming? ==> c.At(t).pos == b.At(t).pos)
            && (c.At(t).PopChecking? ==> c.At(t).pos == b.tail || c == b)
            && (c.At(t).PopChecking? && a.Advance? ==> b.At(t).pos < b.tail)
  {
    var pos := b.At(t).pos;
    assert ThreadInv(b, t);
    Laps(b);
    assert Free(b, b.SlotOf(pos)) || Published(b, b.SlotOf(pos));
  }

  /** pop() gives up exactly when, at the moment it loads the sequence, its possibly stale
      position is still the tail and that ticket is not published. */
  lemma PopGivesUp<T>(b: Buffer<T>, t: nat)
    requires Inv(b) && b.At(t).PopChecking?
    ensures var pos := b.At(t).pos;
            Next(b, Advance(t)).At(t).Outside? <==> pos == b.tail && b.Sequence(b.tail) <= b.tail
    ensures Next(b, Advance(t)).At(t).Outside? && b.tail < b.head ==>
              b.At(b.producers[b.tail]).Pushing(b.tail)
  {
    var pos := b.At(t).pos;
    assert ThreadInv(b, t);
    Laps(b);
    assert Free(b, b.SlotOf(pos)) || Published(b, b.SlotOf(pos));
  }

  // ---------------------------------------------------------------- a bounded FIFO queue

  ghost predicate Quiescent<T>(b: Buffer<T>) {
    forall t: nat :: b.At(t).Outside?
  }

  function Contents<T>(b: Buffer<T>): seq<T>
    requires b.tail <= b.head == |b.pushed|
  {
    b.pushed[b.tail..]
  }

  /** empty() */
  predicate Empty<T>(b: Buffer<T>) {
    b.head == b.tail
  }

  function Values<T>(delivered: seq<Delivery<T>>): seq<T> {
    seq(|delivered|, k requires 0 <= k < |delivered| => delivered[k].value)
  }

  ghost predicate OncePerTicket<T>(delivered: seq<Delivery<T>>, items: seq<T>) {
    && (forall k | 0 <= k < |delivered| ::
          delivered[k].ticket < |items| && delivered[k].value == items[delivered[k].ticket])
    && (forall j, k | 0 <= j < k < |delivered| :: delivered[j].ticket != delivered[k].ticket)
    && (forall p: nat | p < |items| :: p in Tickets(delivered))
  }

  lemma WithoutLast<T>(delivered: seq<Delivery<T>>, items: seq<T>, k: nat)
    requires OncePerTicket(delivered, items) && items != []
    requires k < |delivered| && delivered[k].ticket == |items| - 1
    ensures OncePerTicket(delivered[..k] + delivered[k + 1..], items[..|items| - 1])
  {
    var rest := delivered[..k] + delivered[k + 1..];
    forall m | 0 <= m < |rest| ensures rest[m] == delivered[if m < k then m else m + 1] {}
    forall p: nat | p < |items| - 1 ensures p in Tickets(rest) {
      assert p in Tickets(delivered);
      var j :| 0 <= j < |delivered| && delivered[j].ticket == p;
      assert rest[if j < k then j else j - 1].ticket == p;
    }
  }

  lemma RemoveOne<T>(v: seq<T>, k: nat)
    requires k < |v|
    ensures multiset(v) == multiset(v[..k] + v[k + 1..]) + multiset{v[k]}
  {
    assert v == v[..k] + [v[k]] + v[k + 1..];
  }

  lemma {:induction false} ValuesAreTheItems<T>(delivered: seq<Delivery<T>>, items: seq<T>)
    requires OncePerTicket(delivered, items)
    ensures multiset(Values(delivered)) == multiset(items)
    decreases |delivered|
  {
    if delivered == [] {
      assert items == [] by {
        assert items != [] ==> 0 in Tickets(delivered);
      }
    } else {
      var last := |items| - 1;
      assert delivered[0].ticket < |items|;
      assert last in Tickets(delivered);
      var k :| 0 <= k < |delivered| && delivered[k].ticket == last;
      var rest := delivered[..k] + delivered[k + 1..];
      WithoutLast(delivered, items, k);
      ValuesAreTheItems(rest, items[..last]);
      RemoveOne(items, last);
      assert items[..last] + items[last + 1..] == items[..last];
      RemoveOne(Values(delivered), k);
      assert Values(rest) == Values(delivered)[..k] + Values(delivered)[k + 1..];
    }
  }

  lemma QuiescentSlot<T>(b: Buffer<T>, p: nat)
    requires Inv(b) && Quiescent(b) && b.tail <= p < b.head
    ensures p < b.tail + |b.slots| && b.slots[b.SlotOf(p)] == Slot(b.pushed[p], p + 1)
  {
    NothingLost(b);
    assert !b.At(b.producers[p]).Pushing(p);
    ReadyMeansPublished(b, p);
  }

  /** With no operation in flight the buffer is a queue of at most Size items: the tickets
      [tail, head), in order, each in its slot. All the others were delivered, each once. */
  lemma QuiescentQueue<T>(b: Buffer<T>)
    requires Inv(b) && Quiescent(b)
    ensures |Contents(b)| <= |b.slots|
    ensures forall k: nat | k < |Contents(b)| ::
              b.slots[b.SlotOf(b.tail + k)] == Slot(Contents(b)[k], b.tail + k + 1)
    ensures Empty(b) <==> Contents(b) == []
    ensures multiset(b.pushed) == multiset(Values(b.delivered)) + multiset(Contents(b))
  {
    forall k: nat | k < |Contents(b)|
      ensures b.slots[b.SlotOf(b.tail + k)] == Slot(Contents(b)[k], b.tail + k + 1)
    {
      QuiescentSlot(b, b.tail + k);
    }
    if b.tail < b.head {
      QuiescentSlot(b, b.head - 1);
    }
    QuiescentDeliveries(b);
  }

  lemma QuiescentDeliveries<T>(b: Buffer<T>)
    requires Inv(b) && Quiescent(b)
    ensures multiset(b.pushed) == multiset(Values(b.delivered)) + multiset(Contents(b))
  {
    NothingLost(b);
    forall p: nat | p < b.tail ensures p in Tickets(b.delivered) {
      assert !b.At(b.consumers[p]).Consuming(p);
    }
    ValuesAreTheItems(b.delivered, b.pushed[..b.tail]);
    assert b.pushed == b.pushed[..b.tail] + Contents(b);
  }

  function Advances<T>(t: nat, n: nat): seq<Action<T>> {
    if n == 0 then [] else [Advance(t)] + Advances(t, n - 1)
  }

  lemma RunSteps<T>(b: Buffer<T>, first: Action<T>, rest: seq<Action<T>>)
    requires |b.slots| > 0
    ensures Run(b, [first] + rest) == Run(Next(b, first), rest)
  {
    assert ([first] + rest)[1..] == rest;
  }

  /** The four accesses of an unhindered push(). */
  lemma PushAccesses<T>(b: Buffer<T>, t: nat, item: T)
    requires |b.slots| > 0 && b.At(t).Outside? && b.Sequence(b.head) == b.head
    ensures Run(b, [BeginPush(t, item)] + Advances(t, 3))
         == b.(head := b.head + 1, pushed := b.pushed + [item], producers := b.producers + [t],
               threads := b.threads[t := Outside],
               slots := b.slots[b.SlotOf(b.head) := Slot(item, b.head + 1)])
  {
    var b1 := Next(b, BeginPush(t, item));
    var b2 := Next(b1, Advance(t));
    var b3 := Next(b2, Advance(t));
    var b4 := Next(b3, Advance(t));
    RunSteps(b, BeginPush(t, item), Advances(t, 3));
    RunSteps(b1, Advance(t), Advances(t, 2));
    RunSteps(b2, Advance(t), Advances(t, 1));
    RunSteps(b3, Advance(t), Advances(t, 0));
    assert b2 == b1.Move(t, PushWriting(b.head, item));
    assert b3.At(t) == PushPublishing(b.head, item);
    assert b4.threads == b.threads[t := Outside];
  }

  lemma PopTakes<T>(b: Buffer<T>, t: nat)
    requires |b.slots| > 0 && b.At(t).Outside? && b.Sequence(b.tail) == b.tail + 1
    ensures Next(Next(Next(b, BeginPop(t)), Advance(t)), Advance(t))
         == b.(tail := b.tail + 1, consumers := b.consumers + [t], threads := b.threads[t := PopReading(b.tail)])
  {
    var b2 := Next(Next(b, BeginPop(t)), Advance(t));
    assert b2.threads == b.threads[t := PopClaiming(b.tail)];
    assert Next(b2, Advance(t)).threads == b.threads[t := PopReading(b.tail)];
  }

  lemma PopGivesBack<T>(b: Buffer<T>, t: nat)
    requires |b.slots| > 0 && b.At(t).PopReading?
    ensures Next(Next(b, Advance(t)), Advance(t))
         == b.(delivered := b.delivered + [Delivery(b.At(t).pos, b.slots[b.SlotOf(b.At(t).pos)].data)],
               threads := b.threads[t := Outside]).StoreSequence(b.At(t).pos, b.At(t).pos + |b.slots|)
  {
    var pos := b.At(t).pos;
    var b1 := Next(b, Advance(t));
    assert b1.At(t) == PopReleasing(pos, b.slots[b.SlotOf(pos)].data);
    assert Next(b1, Advance(t)).threads == b.threads[t := Outside];
  }

  /** The five accesses of an unhindered pop(). */
  lemma PopAccesses<T>(b: Buffer<T>, t: nat)
    requires |b.slots| > 0 && b.At(t).Outside? && b.Sequence(b.tail) == b.tail + 1
    ensures Run(b, [BeginPop(t)] + Advances(t, 4))
         == b.(tail := b.tail + 1, consumers := b.consumers + [t],
               delivered := b.delivered + [Delivery(b.tail, b.slots[b.SlotOf(b.tail)].data)],
               threads := b.threads[t := Outside]).StoreSequence(b.tail, b.tail + |b.slots|)
  {
    var b1 := Next(b, BeginPop(t));
    var b2 := Next(b1, Advance(t));
    var b3 := Next(b2, Advance(t));
    var b4 := Next(b3, Advance(t));
    RunSteps(b, BeginPop(t), Advances(t, 4));
    RunSteps(b1, Advance(t), Advances(t, 3));
    RunSteps(b2, Advance(t), Advances(t, 2));
    RunSteps(b3, Advance(t), Advances(t, 1));
    RunSteps(b4, Advance(t), Advances(t, 0));
    PopTakes(b, t);
    PopGivesBack(b3, t);
    assert b3.threads[t := Outside] == b.threads[t := Outside];
  }

  lemma RoomMeansFree<T>(b: Buffer<T>)
    requires Inv(b) && Quiescent(b) && |Contents(b)| < |b.slots|
    ensures b.Sequence(b.head) == b.head
  {
    Laps(b);
    assert Free(b, b.SlotOf(b.head)) || Published(b, b.SlotOf(b.head));
  }

  ghost predicate Enqueued<T>(b: Buffer<T>, r: Buffer<T>, item: T)
    requires b.tail <= b.head == |b.pushed|
  {
    && Quiescent(r) && r.tail <= r.head == |r.pushed|
    && Contents(r) == Contents(b) + [item] && r.delivered == b.delivered
  }

  ghost predicate Dequeued<T>(b: Buffer<T>, r: Buffer<T>)
    requires b.tail < b.head == |b.pushed|
  {
    && Quiescent(r) && r.tail <= r.head == |r.pushed|
    && Contents(r) == Contents(b)[1..]
    && r.delivered == b.delivered + [Delivery(b.tail, Contents(b)[0])]
  }

  lemma StaysQuiescent<T>(b: Buffer<T>, r: Buffer<T>, t: nat)
    requires Quiescent(b) && r.threads == b.threads[t := Outside]
    ensures Quiescent(r)
  {
    forall u: nat ensures r.At(u).Outside? {
      assert b.At(u).Outside?;
    }
  }

  lemma PushEffect<T>(b: Buffer<T>, t: nat, item: T)
    requires |b.slots| > 0 && Quiescent(b) && b.tail <= b.head == |b.pushed| && b.Sequence(b.head) == b.head
    ensures Enqueued(b, Run(b, [BeginPush(t, item)] + Advances(t, 3)), item)
  {
    PushAccesses(b, t, item);
    StaysQuiescent(b, Run(b, [BeginPush(t, item)] + Advances(t, 3)), t);
  }

  lemma PopEffect<T>(b: Buffer<T>, t: nat)
    requires |b.slots| > 0 && Quiescent(b) && b.tail < b.head == |b.pushed|
    requires b.slots[b.SlotOf(b.tail)] == Slot(b.pushed[b.tail], b.tail + 1)
    ensures Dequeued(b, Run(b, [BeginPop(t)] + Advances(t, 4)))
  {
    PopAccesses(b, t);
    StaysQuiescent(b, Run(b, [BeginPop(t)] + Advances(t, 4)), t);
  }

  lemma EmptyPopEffect<T>(b: Buffer<T>, t: nat)
    requires |b.slots| > 0 && Quiescent(b) && b.Sequence(b.tail) <= b.tail
    ensures var r := Run(b, [BeginPop(t)] + Advances(t, 1));
            Quiescent(r) && r == b.(threads := b.threads[t := Outside])
  {
    var b1 := Next(b, BeginPop(t));
    RunSteps(b, BeginPop(t), Advances(t, 1));
    RunSteps(b1, Advance(t), Advances(t, 0));
    assert Next(b1, Advance(t)).threads == b.threads[t := Outside];
    StaysQuiescent(b, Next(b1, Advance(t)), t);
  }

  /** push() alone on a buffer with room is an enqueue. */
  lemma SoloPush<T>(b: Buffer<T>, t: nat, item: T)
    requires Inv(b) && Quiescent(b) && |Contents(b)| < |b.slots|
    ensures var r := Run(b, [BeginPush(t, item)] + Advances(t, 3));
            Inv(r) && Enqueued(b, r, item)
  {
    RoomMeansFree(b);
    PushEffect(b, t, item);
    RunInv(b, [BeginPush(t, item)] + Advances(t, 3));
  }

  /** pop() alone on a non-empty buffer is a dequeue of the oldest item. */
  lemma SoloPop<T>(b: Buffer<T>, t: nat)
    requires Inv(b) && Quiescent(b) && !Empty(b)
    ensures var r := Run(b, [BeginPop(t)] + Advances(t, 4));
            Inv(r) && Dequeued(b, r)
  {
    QuiescentQueue(b);
    assert b.slots[b.SlotOf(b.tail + 0)] == Slot(Contents(b)[0], b.tail + 1);
    PopEffect(b, t);
    RunInv(b, [BeginPop(t)] + Advances(t, 4));
  }

  /** pop() alone on an empty buffer reports false and changes nothing. */
  lemma SoloEmptyPop<T>(b: Buffer<T>, t: nat)
    requires Inv(b) && Quiescent(b) && Empty(b)
    ensures var r := Run(b, [BeginPop(t)] + Advances(t, 1));
            Inv(r) && Quiescent(r) && r == b.(threads := b.threads[t := Outside])
  {
    RoomMeansFree(b);
    EmptyPopEffect(b, t);
    RunInv(b, [BeginPop(t)] + Advances(t, 1));
  }

  /** The stages of an unhindered, successful pop(). */
  lemma PopStages<T>(b: Buffer<T>, t: nat)
    requires |b.slots| > 0 && b.At(t).Outside? && b.Sequence(b.tail) == b.tail + 1
    ensures var c1 := Run(Next(b, BeginPop(t)), Advances(t, 1));
            var c3 := Run(c1, Advances(t, 2));
            && c1.At(t) == PopClaiming(b.tail)
            && c3.At(t) == PopReleasing(b.tail, b.slots[b.SlotOf(b.tail)].data)
            && Run(c3, Advances(t, 1)) == Run(b, [BeginPop(t)] + Advances(t, 4))
  {
    var c := Next(b, BeginPop(t));
    RunSteps(b, BeginPop(t), Advances(t, 4));
    RunSteps(c, Advance(t), Advances(t, 0));
    RunSteps(c, Advance(t), Advances(t, 3));
    var c1 := Next(c, Advance(t));
    RunSteps(c1, Advance(t), Advances(t, 1));
    RunSteps(c1, Advance(t), Advances(t, 2));
    var c2 := Next(c1, Advance(t));
    RunSteps(c2, Advance(t), Advances(t, 0));
    RunSteps(c2, Advance(t), Advances(t, 1));
    assert c2.At(t) == PopReading(b.tail);
  }

  lemma PopOutcome<T>(b: Buffer<T>, t: nat)
    requires Inv(b) && Quiescent(b)
    ensures Run(Next(b, BeginPop(t)), Advances(t, 1)).At(t).Outside? <==> Empty(b)
    ensures Empty(b) ==>
              var r := Run(Next(b, BeginPop(t)), Advances(t, 1));
              Inv(r) && Quiescent(r) && Contents(r) == Contents(b) && r.delivered == b.delivered
    ensures !Empty(b) ==>
              var c3 := Run(Run(Next(b, BeginPop(t)), Advances(t, 1)), Advances(t, 2));
              var r := Run(c3, Advances(t, 1));
              c3.At(t) == PopReleasing(b.tail, Contents(b)[0]) && Inv(r) && Dequeued(b, r)
  {
    RunSteps(b, BeginPop(t), Advances(t, 1));
    if Empty(b) {
      SoloEmptyPop(b, t);
    } else {
      QuiescentQueue(b);
      assert b.slots[b.SlotOf(b.tail + 0)] == Slot(Contents(b)[0], b.tail + 1);
      PopStages(b, t);
      SoloPop(b, t);
    }
  }
}

/** The buffer in memory. The threads' positions are part of the object, since the steps of
    different threads interleave on it; `state` is the protocol state it implements. */
module RingBufferMemory {
  import opened RingBufferProtocol
  import opened RingBufferCalls

  class RingBuffer<T(0)> {
    const size: nat
    const data: array<T>
    const sequence: array<nat>
    var head: nat
    var tail: nat
    var threads: map<nat, Thread<T>>
    ghost var state: Buffer<T>

    ghost predicate Valid()
      reads this, data, sequence
    {
      && size == data.Length == sequence.Length == |state.slots| > 0
      && data as object != sequence as object
      && head == state.head && tail == state.tail && threads == state.threads
      && (forall i | 0 <= i < size :: state.slots[i] == Slot(data[i], sequence[i]))
    }

    /** RingBuffer(req_size): whatever the memory holds, slot i starts with sequence i. */
    constructor (requested: nat)
      ensures Valid() && fresh(data) && fresh(sequence)
      ensures size == BitCeil(requested)
      ensures state == Init(data[..])
    {
      var n := BitCeil(requested);
      var d, s := new T[n], new nat[n];
      for i := 0 to n
        invariant forall j | 0 <= j < i :: s[j] == j
      {
        s[i] := i;
      }
      size, data, sequence, head, tail, threads := n, d, s, 0, 0, map[];
      state := Init(d[..]);
    }

    /** empty() */
    method IsEmpty() returns (r: bool)
      requires Valid()
      ensures r == Empty(state)
    {
      r := head == tail;
    }

    /** push(): head.fetch_add(1). */
    method TakeTicket(t: nat, item: T) returns (pos: nat)
      requires Valid() && state.At(t).Outside?
      modifies this`head, this`threads, this`state
      ensures Valid() && state == Next(old(state), BeginPush(t, item)) && pos == old(head)
    {
      pos := head;
      head := head + 1;
      threads := threads[t := PushWaiting(pos, item)];
      state := Next(state, BeginPush(t, item));
    }

    /** pop(): tail.load(). */
    method LoadTail(t: nat) returns (pos: nat)
      requires Valid() && state.At(t).Outside?
      modifies this`threads, this`state
      ensures Valid() && state == Next(old(state), BeginPop(t)) && pos == old(tail)
    {
      pos := tail;
      threads := threads[t := PopChecking(pos)];
      state := Next(state, BeginPop(t));
    }

    /** The next access of thread t, in place. */
    method Access(t: nat)
      requires Valid() && t in threads
      modifies this`tail, this`threads, this`state, data, sequence
      ensures Valid() && t in threads && state == Next(old(state), Advance(t))
    {
      state := Next(state, Advance(t));
      match threads[t] {
        case Outside =>
        case PushWaiting(pos, item) =>
          if sequence[pos % size] == pos {
            threads := threads[t := PushWriting(pos, item)];
          }
        case PushWriting(pos, item) =>
          data[pos % size] := item;
          threads := threads[t := PushPublishing(pos, item)];
        case PushPublishing(pos, item) =>
          sequence[pos % size] := pos + 1;
          threads := threads[t := Outside];
        case PopChecking(pos) =>
          var diff := sequence[pos % size] - (pos + 1);
          threads := threads[t := if diff == 0 then PopClaiming(pos) else if diff < 0 then Outside else PopChecking(tail)];
        case PopClaiming(pos) =>
          if tail == pos {
            tail := pos + 1;
            threads := threads[t := PopReading(pos)];
          } else {
            threads := threads[t := PopChecking(tail)];
          }
        case PopReading(pos) =>
          threads := threads[t := PopReleasing(pos, data[pos % size])];
        case PopReleasing(pos, out) =>
          sequence[pos % size] := pos + size;
          threads := threads[t := Outside];
      }
    }

    /** Any step of any thread. */
    method Step(a: Action<T>)
      requires Valid()
      modifies this, data, sequence
      ensures Valid() && state == Next(old(state), a)
    {
      var t := a.thread;
      var at := if t in threads then threads[t] else Outside;
      match a {
        case BeginPush(_, item) =>
          if at.Outside? {
            var _ := TakeTicket(t, item);
          }
        case BeginPop(_) =>
          if at.Outside? {
            var _ := LoadTail(t);
          }
        case Advance(_) =>
          if t in threads {
            Access(t);
          }
        case SpuriousFailure(_) =>
          state := Next(state, a);
          if at.PopClaiming? {
            threads := threads[t := PopChecking(tail)];
          }
      }
    }

    /** Any steps of any threads: what the memory goes through is a run of the protocol. */
    method Steps(actions: seq<Action<T>>)
      requires Valid()
      modifies this, data, sequence
      ensures Valid() && state == Run(old(state), actions)
    {
      ghost var before := state;
      for i := 0 to |actions|
        invariant Valid() && Run(before, actions) == Run(state, actions[i..])
      {
        assert actions[i..][1..] == actions[i + 1..];
        Step(actions[i]);
      }
    }

    /** push() among other threads; others[i] is what those do before its (i + 1)-th access after the
        fetch_add. It is done when its thread is outside again, and then its item was handed over; if
        the list of what others do ends before, it still waits for its turn. */
    method Push(t: nat, item: T, others: seq<seq<Action<T>>>) returns (done: bool, ghost trace: seq<Action<T>>)
      requires Valid() && Inv(state) && state.At(t).Outside?
      requires forall i | 0 <= i < |others| :: NotBy(others[i], t)
      modifies this, data, sequence
      ensures Valid() && Inv(state) && state == Run(old(state), trace)
      ensures var pos := old(head); pos < state.head && state.pushed[pos] == item && state.producers[pos] == t
      ensures done ==> state.At(t).Outside? && HandedOver(state, old(head), item)
      ensures !done ==> state.At(t).Pushing(old(head))
    {
      ghost var before := state;
      PushStarts(state, t, item);
      RunInv(state, [BeginPush(t, item)]);
      trace := [BeginPush(t, item)];
      RunOneMore(before, [], BeginPush(t, item));
      assert [] + trace == trace;
      var pos := TakeTicket(t, item);
      done := false;
      var i := 0;
      while !done && i < |others|
        invariant 0 <= i <= |others|
        invariant Valid() && Inv(state) && |state.slots| == |before.slots| && state == Run(before, trace)
        invariant pos < state.head && state.pushed[pos] == item && state.producers[pos] == t
        invariant if done then state.At(t).Outside? && HandedOver(state, pos, item) else InPush(state, t, pos, item)
        decreases |others| - i
      {
        PushMeanwhile(state, others[i], t, pos, item);
        RunInv(state, others[i]);
        RunBoth(before, trace, others[i]);
        Steps(others[i]);
        trace := trace + others[i];
        PushAdvances(state, t, pos, item);
        NextInv(state, Advance(t));
        RunOneMore(before, trace, Advance(t));
        Access(t);
        trace := trace + [Advance(t)];
        if threads[t].Outside? {
          PushDone(state, t, pos, item);
          done := true;
        }
        i := i + 1;
      }
    }

    /** pop() among other threads, as for push(), whose exchange may also fail without cause. When it is
        done it returned the item pushed under a ticket that it alone won during the call, or false, and
        then it won none and no item is published at the tail. */
    method Pop(t: nat, rounds: seq<Round<T>>) returns (done: bool, ok: bool, out: T, ghost trace: seq<Action<T>>)
      requires Valid() && Inv(state) && state.At(t).Outside?
      requires forall i | 0 <= i < |rounds| :: NotBy(rounds[i].others, t)
      modifies this, data, sequence
      ensures Valid() && Inv(state) && state == Run(old(state), trace)
      ensures Later(old(state), state) && PopAt(old(state), state, t, done, ok, out)
    {
      ghost var before := state;
      NextInv(state, BeginPop(t));
      trace := [BeginPop(t)];
      RunOneMore(before, [], BeginPop(t));
      assert [] + trace == trace;
      done, ok, out := false, false, data[0];
      PopStarts(state, t, out);
      var _ := LoadTail(t);
      var i := 0;
      while !done && i < |rounds|
        invariant 0 <= i <= |rounds|
        invariant Valid() && Inv(state) && Later(before, state) && state == Run(before, trace)
        invariant PopAt(before, state, t, done, ok, out)
        decreases |rounds| - i
      {
        PopGoesOn(before, state, rounds[i], t, ok, out);
        RunRound(before, trace, rounds[i].others, Own(t, rounds[i].spurious));
        Steps(rounds[i].others);
        done, ok, out := PopRound(t, rounds[i].spurious, out);
        trace := trace + rounds[i].others + [Own(t, rounds[i].spurious)];
        i := i + 1;
      }
    }

    /** The next access of a pop(), and what it returns if that was its last. */
    method PopRound(t: nat, spurious: bool, before: T) returns (done: bool, ok: bool, out: T)
      requires Valid() && Inv(state) && !state.At(t).Outside?
      modifies this, data, sequence
      ensures Valid() && Inv(state) && state == Next(old(state), Own(t, spurious))
      ensures done == state.At(t).Outside? && ok == Releases(old(state), t, spurious)
      ensures out == if ok then old(state).At(t).out else before
    {
      var at := threads[t];
      NextInv(state, Own(t, spurious));
      Step(Own(t, spurious));
      done, ok := threads[t].Outside?, at.PopReleasing? && !spurious;
      out := if ok then at.out else before;
    }

    /** The next n accesses of thread t, with no other thread between them. */
    method Drive(t: nat, n: nat)
      requires Valid() && t in threads
      modifies this`tail, this`threads, this`state, data, sequence
      ensures Valid() && t in threads && state == Run(old(state), Advances(t, n))
      decreases n
    {
      if n > 0 {
        ghost var start := state;
        Access(t);
        RunSteps(start, Advance(t), Advances(t, n - 1));
        Drive(t, n - 1);
        assert state == Run(Next(start, Advance(t)), Advances(t, n - 1));
      }
    }

    /** push() while no other thread is inside: the bounded queue's enqueue. */
    method PushAlone(t: nat, item: T)
      requires Valid() && Inv(state) && Quiescent(state) && |Contents(state)| < size
      modifies this, data, sequence
      ensures Valid() && Inv(state) && Enqueued(old(state), state, item)
    {
      SoloPush(state, t, item);
      RunSteps(state, BeginPush(t, item), Advances(t, 3));
      var pos := TakeTicket(t, item);
      Drive(t, 3);
    }

    /** pop() while no other thread is inside: the bounded queue's dequeue. */
    method PopAlone(t: nat) returns (ok: bool, out: T)
      requires Valid() && Inv(state) && Quiescent(state)
      modifies this, data, sequence
      ensures Valid() && Inv(state) && Quiescent(state)
      ensures ok <==> !Empty(old(state))
      ensures ok ==> Dequeued(old(state), state) && out == Contents(old(state))[0]
      ensures !ok ==> Contents(state) == Contents(old(state)) && state.delivered == old(state.delivered)
    {
      ghost var before := state;
      PopOutcome(before, t);
      out := data[0];
      var pos := LoadTail(t);
      Drive(t, 1);
      ok := !threads[t].Outside?;
      if ok {
        Drive(t, 2);
        out := threads[t].out;
        Drive(t, 1);
      }
    }
  }
}
