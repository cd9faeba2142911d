/** One whole push() or pop() among other threads (include/cppgate/RingBuffer.h:76-123): what it may rely
    on while any number of others take any steps between its own accesses. */
module RingBufferCalls {
  import opened RingBufferProtocol

  /** Histories only grow. */
  ghost predicate Later<T>(b: Buffer<T>, r: Buffer<T>) {
    && b.pushed <= r.pushed && b.producers <= r.producers
    && b.consumers <= r.consumers && b.delivered <= r.delivered
    && |r.slots| == |b.slots|
  }

  /** Thread t won no ticket between b and r. */
  ghost predicate WonNothing<T>(b: Buffer<T>, r: Buffer<T>, t: nat) {
    forall p | |b.consumers| <= p < |r.consumers| :: r.consumers[p] != t
  }

  ghost predicate NotBy<T>(actions: seq<Action<T>>, t: nat) {
    forall i | 0 <= i < |actions| :: actions[i].thread != t
  }

  lemma StepLater<T>(b: Buffer<T>, a: Action<T>)
    requires |b.slots| > 0
    ensures Later(b, Next(b, a))
  {
  }

  lemma OtherStep<T>(b: Buffer<T>, a: Action<T>, t: nat)
    requires |b.slots| > 0 && a.thread != t
    ensures Next(b, a).At(t) == b.At(t) && WonNothing(b, Next(b, a), t)
  {
  }

  lemma {:induction false} Meanwhile<T>(b: Buffer<T>, actions: seq<Action<T>>, t: nat)
    requires |b.slots| > 0 && NotBy(actions, t)
    ensures var r := Run(b, actions); Later(b, r) && r.At(t) == b.At(t) && WonNothing(b, r, t)
    decreases |actions|
  {
    if actions != [] {
      var c := Next(b, actions[0]);
      StepLater(b, actions[0]);
      OtherStep(b, actions[0], t);
      Meanwhile(c, actions[1..], t);
    }
  }

  lemma {:induction false} RunBoth<T>(b: Buffer<T>, first: seq<Action<T>>, second: seq<Action<T>>)
    requires |b.slots| > 0
    ensures Run(b, first + second) == Run(Run(b, first), second)
    decreases |first|
  {
    if first == [] {
      assert first + second == second;
    } else {
      assert (first + second)[1..] == first[1..] + second;
      RunBoth(Next(b, first[0]), first[1..], second);
    }
  }

  lemma RunOneMore<T>(b: Buffer<T>, actions: seq<Action<T>>, a: Action<T>)
    requires |b.slots| > 0
    ensures Run(b, actions + [a]) == Next(Run(b, actions), a)
  {
    RunBoth(b, actions, [a]);
    assert [a][1..] == [];
  }

  lemma RunRound<T>(b: Buffer<T>, trace: seq<Action<T>>, actions: seq<Action<T>>, a: Action<T>)
    requires |b.slots| > 0
    ensures Run(b, trace + actions + [a]) == Next(Run(Run(b, trace), actions), a)
  {
    RunBoth(b, trace, actions);
    RunOneMore(b, trace + actions, a);
  }

  // ---------------------------------------------------------------- push()

  /** Thread t is inside push(item) with ticket pos. */
  ghost predicate InPush<T>(b: Buffer<T>, t: nat, pos: nat, item: T) {
    && b.At(t).Pushing(pos) && b.At(t).item == item
    && pos < |b.pushed| && b.pushed[pos] == item && pos < |b.producers| && b.producers[pos] == t
  }

  /** The item of ticket pos is in its slot, in the hands of its one consumer, or was returned. */
  ghost predicate HandedOver<T>(b: Buffer<T>, pos: nat, item: T)
    requires |b.slots| > 0
  {
    || b.slots[b.SlotOf(pos)] == Slot(item, pos + 1)
    || (pos < |b.consumers| && b.At(b.consumers[pos]).Consuming(pos))
    || Delivery(pos, item) in b.delivered
  }

  lemma PushStarts<T>(b: Buffer<T>, t: nat, item: T)
    requires Inv(b) && b.At(t).Outside?
    ensures InPush(Next(b, BeginPush(t, item)), t, b.head, item)
  {
  }

  lemma PushAdvances<T>(b: Buffer<T>, t: nat, pos: nat, item: T)
    requires |b.slots| > 0 && InPush(b, t, pos, item)
    ensures var c := Next(b, Advance(t));
            && pos < |c.pushed| && c.pushed[pos] == item && pos < |c.producers| && c.producers[pos] == t
            && (c.At(t).Outside? || InPush(c, t, pos, item))
  {
  }

  lemma PushMeanwhile<T>(b: Buffer<T>, actions: seq<Action<T>>, t: nat, pos: nat, item: T)
    requires |b.slots| > 0 && NotBy(actions, t) && InPush(b, t, pos, item)
    ensures InPush(Run(b, actions), t, pos, item)
  {
    Meanwhile(b, actions, t);
  }

  lemma PushDone<T>(b: Buffer<T>, t: nat, pos: nat, item: T)
    requires Inv(b) && b.At(t).Outside? && pos < b.head && b.pushed[pos] == item && b.producers[pos] == t
    ensures HandedOver(b, pos, item)
  {
    NothingLost(b);
    if pos in Tickets(b.delivered) {
      var k :| 0 <= k < |b.delivered| && b.delivered[k].ticket == pos;
      assert b.delivered[k] == Delivery(pos, item);
    }
  }

  // ---------------------------------------------------------------- pop()

  /** Thread t is inside pop(), since b, without a ticket, or with ticket pos won since. */
  ghost predicate Searching<T>(b: Buffer<T>, r: Buffer<T>, t: nat) {
    (r.At(t).PopChecking? || r.At(t).PopClaiming?) && WonNothing(b, r, t)
  }

  ghost predicate Holding<T>(b: Buffer<T>, r: Buffer<T>, t: nat, pos: nat) {
    && (r.At(t).PopReading? || r.At(t).PopReleasing?) && r.At(t).pos == pos
    && |b.consumers| <= pos < |r.consumers| && r.consumers[pos] == t
  }

  /** It returned the item pushed under ticket pos, which it won since b. */
  ghost predicate Popped<T>(b: Buffer<T>, r: Buffer<T>, t: nat, pos: nat, out: T) {
    && |b.consumers| <= pos < |r.consumers| && r.consumers[pos] == t
    && |b.delivered| < |r.delivered| && Delivery(pos, out) in r.delivered[|b.delivered|..]
    && pos < |r.pushed| && r.pushed[pos] == out
  }

  /** The next access of thread t, whose exchange may fail without cause. */
  function Own<T>(t: nat, spurious: bool): Action<T> {
    if spurious then SpuriousFailure(t) else Advance(t)
  }

  /** What others do before an access, and whether the exchange then fails without cause. */
  datatype Round<T> = Round(others: seq<Action<T>>, spurious: bool)

  lemma SearchAdvances<T>(b: Buffer<T>, r: Buffer<T>, t: nat, spurious: bool)
    requires Inv(r) && Later(b, r) && Searching(b, r, t)
    ensures var c := Next(r, Own(t, spurious));
            || (c.At(t).Outside? && WonNothing(b, c, t) && c.Sequence(c.tail) <= c.tail)
            || Searching(b, c, t)
            || Holding(b, c, t, r.At(t).pos)
  {
    PopRetries(r, t, Own(t, spurious));
  }

  lemma HoldAdvances<T>(b: Buffer<T>, r: Buffer<T>, t: nat, pos: nat, spurious: bool)
    requires Inv(r) && Later(b, r) && Holding(b, r, t, pos)
    ensures var c := Next(r, Own(t, spurious));
            if spurious then c == r else if r.At(t).PopReleasing? then c.At(t).Outside? && Popped(b, c, t, pos, r.At(t).out)
            else Holding(b, c, t, pos)
  {
    var c := Next(r, Own(t, spurious));
    assert ThreadInv(r, t);
    if r.At(t).PopReleasing? && !spurious {
      assert c.delivered[|r.delivered|] == Delivery(pos, r.At(t).out);
      assert c.delivered[|b.delivered|..][|r.delivered| - |b.delivered|] == Delivery(pos, r.At(t).out);
    }
  }

  /** Where a pop() that began at b is in r: on its way, or done with a result. False means that it won
      nothing and that the tail ticket is not published at that moment. */
  ghost predicate PopAt<T>(b: Buffer<T>, r: Buffer<T>, t: nat, done: bool, ok: bool, out: T)
    requires |r.slots| > 0
  {
    if !done then Searching(b, r, t) || exists pos :: Holding(b, r, t, pos)
    else
      && r.At(t).Outside?
      && if ok then exists pos :: Popped(b, r, t, pos, out) else WonNothing(b, r, t) && r.Sequence(r.tail) <= r.tail
  }

  lemma PopStarts<T>(b: Buffer<T>, t: nat, out: T)
    requires Inv(b) && b.At(t).Outside?
    ensures Later(b, Next(b, BeginPop(t))) && PopAt(b, Next(b, BeginPop(t)), t, false, false, out)
  {
  }

  predicate Releases<T>(r: Buffer<T>, t: nat, spurious: bool) {
    r.At(t).PopReleasing? && !spurious
  }

  lemma PopAdvances<T>(b: Buffer<T>, r: Buffer<T>, t: nat, spurious: bool, out: T)
    requires Inv(r) && Later(b, r) && PopAt(b, r, t, false, false, out)
    ensures var c := Next(r, Own(t, spurious));
            && Later(b, c)
            && PopAt(b, c, t, c.At(t).Outside?, Releases(r, t, spurious), if Releases(r, t, spurious) then r.At(t).out else out)
  {
    StepLater(r, Own(t, spurious));
    if Searching(b, r, t) {
      SearchAdvances(b, r, t, spurious);
    } else {
      var pos :| Holding(b, r, t, pos);
      HoldAdvances(b, r, t, pos, spurious);
    }
  }

  lemma PopMeanwhile<T>(b: Buffer<T>, r: Buffer<T>, actions: seq<Action<T>>, t: nat, out: T)
    requires |r.slots| > 0 && Later(b, r) && NotBy(actions, t) && PopAt(b, r, t, false, false, out)
    ensures Later(b, Run(r, actions)) && PopAt(b, Run(r, actions), t, false, false, out)
  {
    Meanwhile(r, actions, t);
    if !Searching(b, r, t) {
      var pos :| Holding(b, r, t, pos);
      assert Holding(b, Run(r, actions), t, pos);
    }
  }

  /** One round of a pop(): the others' steps, then its own next access. */
  lemma PopGoesOn<T>(b: Buffer<T>, r: Buffer<T>, round: Round<T>, t: nat, ok: bool, out: T)
    requires Inv(r) && Later(b, r) && NotBy(round.others, t) && PopAt(b, r, t, false, ok, out)
    ensures var m := Run(r, round.others);
            var c := Next(m, Own(t, round.spurious));
            var won := Releases(m, t, round.spurious);
            && Inv(m) && !m.At(t).Outside? && Later(b, c)
            && PopAt(b, c, t, c.At(t).Outside?, won, if won then m.At(t).out else out)
  {
    RunInv(r, round.others);
    PopMeanwhile(b, r, round.others, t, out);
    PopAdvances(b, Run(r, round.others), t, round.spurious, out);
  }
}
