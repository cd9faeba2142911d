/** Idle expiry and min_size (include/cppgate/ConnectionPool.h:37 and 262, README.md:400): connections up
    to min_size are not to be closed for having been idle too long. `above_min` is read under the lock
    when an idle connection is taken out, and used later, so other threads can come in between. */
module IdleExpiry {
  import opened Optional
  import opened ConnectionPoolProtocol

  /** An expiry by call id: the check finds the connection too old, and its slot is given up. */
  function Expire(p: Pool, id: nat): Pool {
    Next(Next(p, Checked(id, Expired)), Proceed(id))
  }

  /** The call is checking a connection out and may let it expire. */
  predicate MayExpire(p: Pool, id: nat) {
    !p.closed && id in p.calls && p.calls[id].CheckingOut? && p.calls[id].aboveMin
  }

  /** What the documentation promises, for a run: no expiry takes an open pool below min_size. */
  ghost predicate ExpiryKeepsMinSize(p: Pool) {
    forall id | MayExpire(p, id) :: Expire(p, id).open >= p.minSize
  }

  // ---------------------------------------------------------------- where it holds

  /** With min_size == max_size no call ever finds the pool above min_size. */
  ghost predicate NoneMayExpire(p: Pool) {
    forall id | id in p.calls && p.calls[id].CheckingOut? :: !p.calls[id].aboveMin
  }

  /** Only a round of acquire() starts a checkout, and it compares open with min_size then. */
  ghost predicate CheckOutsFrom(p: Pool, q: Pool, taker: Option<nat>) {
    forall id | id in q.calls && q.calls[id].CheckingOut? ::
      || (id in p.calls && q.calls[id] == p.calls[id])
      || (taker == Some(id) && q.calls[id].aboveMin == (p.open > p.minSize))
  }

  lemma ServeStartsNone(p: Pool, connection: Option<Conn>)
    requires CanServe(p)
    ensures CheckOutsFrom(p, ServeFirst(p, connection), None)
  {
  }

  lemma LockedCheckOuts(p: Pool, id: nat)
    ensures CheckOutsFrom(p, Locked(p, id), Some(id))
  {
    if id in p.calls && (p.calls[id].GivingBack? || p.calls[id].Dropping?) && CanServe(p) {
      ServeStartsNone(p, if p.calls[id].GivingBack? then Some(p.calls[id].conn) else None);
    }
  }

  lemma OtherCheckOuts(p: Pool, a: Action)
    requires !a.Proceed?
    ensures CheckOutsFrom(p, Next(p, a), None)
  {
  }

  lemma NoneMayExpireNext(p: Pool, a: Action)
    requires Inv(p) && p.minSize == p.maxSize && NoneMayExpire(p)
    ensures NoneMayExpire(Next(p, a))
  {
    if a.Proceed? {
      LockedCheckOuts(p, a.id);
    } else {
      OtherCheckOuts(p, a);
    }
  }

  lemma {:induction false} NoneMayExpireRun(p: Pool, actions: seq<Action>)
    requires Inv(p) && p.minSize == p.maxSize && NoneMayExpire(p)
    ensures NoneMayExpire(Run(p, actions))
    decreases |actions|
  {
    if actions != [] {
      NextInv(p, actions[0]);
      NoneMayExpireNext(p, actions[0]);
      SizesKept(p, actions[0]);
      NoneMayExpireRun(Next(p, actions[0]), actions[1..]);
    }
  }

  lemma HoldsAtTheEnds(minSize: nat, maxSize: nat, actions: seq<Action>)
    requires minSize <= maxSize && 0 < maxSize && (minSize == 0 || minSize == maxSize)
    ensures ExpiryKeepsMinSize(Run(Init(minSize, maxSize), actions))
  {
    var p := Run(Init(minSize, maxSize), actions);
    InitInv(minSize, maxSize);
    RunInv(Init(minSize, maxSize), actions);
    RunSizes(Init(minSize, maxSize), actions);
    if minSize == 0 {
      forall id | MayExpire(p, id) ensures Expire(p, id).open >= p.minSize {
        NextInv(p, Checked(id, Expired));
        NextInv(Next(p, Checked(id, Expired)), Proceed(id));
      }
    } else {
      NoneMayExpireRun(Init(minSize, maxSize), actions);
    }
  }

  // ---------------------------------------------------------------- where it fails

  /** n connections opened by acquire(), each by its own thread, and held. */
  function Open(n: nat): seq<Action> {
    if n == 0 then [] else Open(n - 1) + [BeginAcquire(n - 1), Proceed(n - 1), FactoryReturns(n - 1, true)]
  }

  function Handles(n: nat): map<nat, Conn> {
    if n == 0 then map[] else Handles(n - 1)[n - 1 := n - 1]
  }

  lemma {:induction false} HandlesAre(n: nat)
    ensures forall i: nat :: i in Handles(n) <==> i < n
    ensures forall i: nat | i < n :: Handles(n)[i] == i
  {
    if n > 0 {
      HandlesAre(n - 1);
    }
  }

  function Held(minSize: nat, maxSize: nat, n: nat): Pool {
    Init(minSize, maxSize).(open := n, handles := Handles(n), created := n)
  }

  lemma OpenOne(minSize: nat, maxSize: nat, n: nat)
    requires n < maxSize
    ensures Run(Held(minSize, maxSize, n), [BeginAcquire(n), Proceed(n), FactoryReturns(n, true)]) == Held(minSize, maxSize, n + 1)
  {
    var p := Held(minSize, maxSize, n);
    HandlesAre(n);
    RunThree(p, BeginAcquire(n), Proceed(n), FactoryReturns(n, true));
    var p1 := Next(p, BeginAcquire(n));
    assert p1.calls == map[n := Trying];
    var p2 := Next(p1, Proceed(n));
    assert p2.calls == map[n := Opening(true)];
    var p3 := Next(p2, FactoryReturns(n, true));
    assert p3.calls == map[];
  }

  lemma {:induction false} OpenAll(minSize: nat, maxSize: nat, n: nat)
    requires n <= maxSize
    ensures Run(Init(minSize, maxSize), Open(n)) == Held(minSize, maxSize, n)
  {
    if n == 0 {
      assert Handles(0) == map[];
    } else {
      OpenAll(minSize, maxSize, n - 1);
      OpenOne(minSize, maxSize, n - 1);
      RunSplit(Init(minSize, maxSize), Open(n - 1), [BeginAcquire(n - 1), Proceed(n - 1), FactoryReturns(n - 1, true)]);
    }
  }

  /** With n connections held, the first two are released: they are idle. */
  function TwoIdle(minSize: nat, maxSize: nat, n: nat): Pool {
    Held(minSize, maxSize, n).(idle := [0, 1], handles := Handles(n) - {0} - {1})
  }

  lemma ReleaseTwo(minSize: nat, maxSize: nat, n: nat)
    requires n > 1
    ensures Run(Held(minSize, maxSize, n), [Release(0, n), Proceed(n)] + [Release(1, n), Proceed(n)]) == TwoIdle(minSize, maxSize, n)
  {
    var p := Held(minSize, maxSize, n);
    HandlesAre(n);
    var p1 := Next(p, Release(0, n));
    assert p1.calls == map[n := GivingBack(0, false)];
    var p2 := Next(p1, Proceed(n));
    assert p2 == p.(idle := [0], handles := Handles(n) - {0});
    var p3 := Next(p2, Release(1, n));
    assert p3.calls == map[n := GivingBack(1, false)];
    assert Next(p3, Proceed(n)) == TwoIdle(minSize, maxSize, n);
    RunTwo(p, Release(0, n), Proceed(n));
    RunTwo(p2, Release(1, n), Proceed(n));
    RunSplit(p, [Release(0, n), Proceed(n)], [Release(1, n), Proceed(n)]);
  }

  /** Threads n and n + 1 take them, each while n connections are open. */
  function TwoTaken(minSize: nat, maxSize: nat, n: nat): Pool {
    TwoIdle(minSize, maxSize, n).(idle := [], calls := map[n := CheckingOut(1, n > minSize), n + 1 := CheckingOut(0, n > minSize)])
  }

  function OneTaken(minSize: nat, maxSize: nat, n: nat): Pool {
    TwoIdle(minSize, maxSize, n).(idle := [0], calls := map[n := CheckingOut(1, n > minSize)])
  }

  lemma TakeFirst(minSize: nat, maxSize: nat, n: nat)
    requires n > 1
    ensures Run(TwoIdle(minSize, maxSize, n), [BeginAcquire(n), Proceed(n)]) == OneTaken(minSize, maxSize, n)
  {
    var p := TwoIdle(minSize, maxSize, n);
    HandlesAre(n);
    assert Next(p, BeginAcquire(n)).calls == map[n := Trying];
    RunTwo(p, BeginAcquire(n), Proceed(n));
  }

  lemma TakeSecond(minSize: nat, maxSize: nat, n: nat)
    requires n > 1
    ensures Run(OneTaken(minSize, maxSize, n), [BeginAcquire(n + 1), Proceed(n + 1)]) == TwoTaken(minSize, maxSize, n)
  {
    var p := OneTaken(minSize, maxSize, n);
    HandlesAre(n);
    assert Next(p, BeginAcquire(n + 1)).calls == map[n := CheckingOut(1, n > minSize), n + 1 := Trying];
    RunTwo(p, BeginAcquire(n + 1), Proceed(n + 1));
  }

  /** One of the two expires. */
  lemma ExpireOne(minSize: nat, maxSize: nat, n: nat)
    requires n > minSize
    ensures var p := TwoTaken(minSize, maxSize, n);
            && Run(p, [Checked(n, Expired), Proceed(n)]) == Expire(p, n)
            && Expire(p, n) == p.(open := n - 1, calls := map[n := Trying, n + 1 := CheckingOut(0, true)])
  {
    var p := TwoTaken(minSize, maxSize, n);
    assert Next(p, Checked(n, Expired)).calls == map[n := Dropping(true), n + 1 := CheckingOut(0, true)];
    RunTwo(p, Checked(n, Expired), Proceed(n));
  }

  lemma RunTwo(p: Pool, a: Action, b: Action)
    ensures Run(p, [a, b]) == Next(Next(p, a), b)
  {
    assert [a, b][1..] == [b] && [b][1..] == [];
    assert Run(Next(p, a), [b]) == Next(Next(p, a), b);
  }

  /** The run that breaks the promise: min_size + 1 connections are opened, two of them are released and
      taken again by two threads, and both threads find theirs too old. */
  function Overlap(minSize: nat): seq<Action> {
    var n := minSize + 1;
    Open(n) + (([Release(0, n), Proceed(n)] + [Release(1, n), Proceed(n)])
            + (([BeginAcquire(n), Proceed(n)] + [BeginAcquire(n + 1), Proceed(n + 1)])
             + [Checked(n, Expired), Proceed(n)]))
  }

  lemma OverlapRun(minSize: nat, maxSize: nat)
    requires 0 < minSize < maxSize
    ensures var p := Run(Init(minSize, maxSize), Overlap(minSize));
            p == TwoTaken(minSize, maxSize, minSize + 1).(open := minSize, calls := map[minSize + 1 := Trying, minSize + 2 := CheckingOut(0, true)])
  {
    var n := minSize + 1;
    var release := [Release(0, n), Proceed(n)] + [Release(1, n), Proceed(n)];
    var take := [BeginAcquire(n), Proceed(n)] + [BeginAcquire(n + 1), Proceed(n + 1)];
    var expire := [Checked(n, Expired), Proceed(n)];
    RunSplit(Init(minSize, maxSize), Open(n), release + (take + expire));
    OpenAll(minSize, maxSize, n);
    RunSplit(Held(minSize, maxSize, n), release, take + expire);
    ReleaseTwo(minSize, maxSize, n);
    RunSplit(TwoIdle(minSize, maxSize, n), take, expire);
    RunSplit(TwoIdle(minSize, maxSize, n), [BeginAcquire(n), Proceed(n)], [BeginAcquire(n + 1), Proceed(n + 1)]);
    TakeFirst(minSize, maxSize, n);
    TakeSecond(minSize, maxSize, n);
    ExpireOne(minSize, maxSize, n);
  }

  /** For all sizes in between: a run of nothing but acquire(), release and expiry, at the end of which
      a connection may still expire although only min_size are open. */
  lemma ExpiryGoesBelowMinSize(minSize: nat, maxSize: nat)
    requires 0 < minSize < maxSize
    ensures var p := Run(Init(minSize, maxSize), Overlap(minSize));
            MayExpire(p, minSize + 2) && Expire(p, minSize + 2).open == minSize - 1 < p.minSize
  {
    OverlapRun(minSize, maxSize);
    var p := Run(Init(minSize, maxSize), Overlap(minSize));
    assert Next(p, Checked(minSize + 2, Expired)).calls[minSize + 2] == Dropping(true);
  }

  // ---------------------------------------------------------------- exactly when

  /** Idle expiry keeps min_size in every run if and only if the pool was made with a min_size of 0 or
      with min_size equal to max_size, that is, if no connection can ever expire or none must be kept. */
  lemma ExpiryKeepsMinSizeExactly(minSize: nat, maxSize: nat)
    requires minSize <= maxSize && 0 < maxSize
    ensures (forall actions :: ExpiryKeepsMinSize(Run(Init(minSize, maxSize), actions))) <==> minSize == 0 || minSize == maxSize
  {
    if minSize == 0 || minSize == maxSize {
      forall actions ensures ExpiryKeepsMinSize(Run(Init(minSize, maxSize), actions)) {
        HoldsAtTheEnds(minSize, maxSize, actions);
      }
    } else {
      ExpiryGoesBelowMinSize(minSize, maxSize);
      assert !ExpiryKeepsMinSize(Run(Init(minSize, maxSize), Overlap(minSize)));
    }
  }

  /** For a single drop, of any kind: it keeps min_size exactly when there is one connection more at that
      moment, or a waiter who opens another in the slot. */
  lemma DropKeepsMinSize(p: Pool, id: nat)
    requires Inv(p) && !p.closed && id in p.calls && p.calls[id].Dropping?
    ensures Next(p, Proceed(id)).open >= p.minSize <==> p.open > p.minSize || p.waiters != []
  {
    assert p.waiters != [] ==> p.waiters[0] in p.waiters && Queued(p, p.waiters[0]);
  }
}
