/** The delay before a retry: doubling from initial_delay, capped at max_delay, plus or minus 20%. */
module Backoff {

  function Pow2(n: nat): nat {
    if n == 0 then 1 else 2 * Pow2(n - 1)
  }

  /** x doubled n times. */
  function Doubled(x: int, n: nat): int {
    if n == 0 then x else 2 * Doubled(x, n - 1)
  }

  lemma {:induction false} DoubledIsTimesPow2(x: int, n: nat)
    ensures Doubled(x, n) == x * Pow2(n)
  {
    if n > 0 {
      DoubledIsTimesPow2(x, n - 1);
    }
  }

  function Min(a: int, b: int): int {
    if a < b then a else b
  }

  function Max(a: int, b: int): int {
    if a < b then b else a
  }

  /** The documented delay before retry n = 1, 2, ...: min(initial * 2^(n-1), cap). */
  function Capped(initial: int, cap: int, n: nat): int
    requires n >= 1
  {
    Min(initial * Pow2(n - 1), cap)
  }

  /** What the loop computes, for every input (milliseconds, in exact arithmetic). */
  function Delay(initial: int, cap: int, attempt: nat): int {
    if initial >= cap || attempt <= 1 then Min(initial, cap) else Min(Doubled(initial, attempt - 1), cap)
  }

  lemma {:induction false} Growing(x: int, n: nat, m: nat)
    requires n <= m
    ensures x >= 0 ==> x <= Doubled(x, n) <= Doubled(x, m)
    ensures x < 0 ==> x >= Doubled(x, n) >= Doubled(x, m) && Doubled(x, m) <= -1
    decreases m
  {
    if n < m {
      Growing(x, n, m - 1);
    } else if m > 0 {
      Growing(x, m - 1, m - 1);
    }
  }

  /** The loop of retryDelay(), without the jitter: what it returns, and how far its variable goes. */
  method Unjittered(initial: int, cap: int, attempt: nat) returns (delay: int, ghost peak: int)
    ensures delay == Delay(initial, cap, attempt)
    ensures Max(initial, cap) > 0 ==> peak < 2 * Max(initial, cap)
    ensures peak >= delay
  {
    delay := initial;
    peak := initial;
    var i := 1;
    while i < attempt && delay < cap
      invariant 1 <= i <= Max(attempt, 1)
      invariant delay == Doubled(initial, i - 1)
      invariant i > 1 ==> initial < cap && Doubled(initial, i - 2) < cap
      invariant peak >= delay
      invariant Max(initial, cap) > 0 ==> peak < 2 * Max(initial, cap)
      decreases attempt - i
    {
      delay := delay * 2;
      peak := Max(peak, delay);
      i := i + 1;
    }
    if i < attempt {
      Growing(initial, i - 1, attempt - 1);
      Growing(initial, 0, i - 1);
    }
    delay := Min(delay, cap);
  }

  /** The delay is the documented one exactly when the configuration makes sense: unless the first
      delay is negative, not below the cap, and doubling brings it below. */
  lemma DelayIsCappedDoubling(initial: int, cap: int, n: nat)
    requires n >= 1
    ensures Delay(initial, cap, n) == Capped(initial, cap, n) <==>
            initial >= 0 || initial < cap || initial * Pow2(n - 1) >= cap
  {
    DoubledIsTimesPow2(initial, n - 1);
    Growing(initial, 0, n - 1);
  }

  lemma {:induction false} Pow2Large(n: nat)
    ensures Pow2(n) >= n + 1
  {
    if n > 0 {
      Pow2Large(n - 1);
    }
  }

  /** Every retry waits as documented exactly when the first delay is not negative or is below the cap. */
  lemma EveryDelayIsCappedDoubling(initial: int, cap: int)
    ensures (forall n: nat | n >= 1 :: Delay(initial, cap, n) == Capped(initial, cap, n)) <==> initial >= 0 || initial < cap
  {
    if initial >= 0 || initial < cap {
      forall n: nat | n >= 1 ensures Delay(initial, cap, n) == Capped(initial, cap, n) {
        DelayIsCappedDoubling(initial, cap, n);
      }
    } else {
      var n := 1 - cap;
      Pow2Large(n);
      NegativeTimes(initial, Pow2(n));
      assert Capped(initial, cap, n + 1) < cap == Delay(initial, cap, n + 1);
    }
  }

  lemma {:induction false} NegativeTimes(x: int, y: nat)
    requires x < 0
    ensures x * y + y <= 0
    decreases y
  {
    if y > 0 {
      NegativeTimes(x, y - 1);
      assert x * y == x * (y - 1) + x;
    }
  }

  /** Later retries never wait less, for all retries, exactly when the first delay is not negative
      or not below the cap. */
  lemma MonotoneExactly(initial: int, cap: int)
    ensures initial >= 0 || initial >= cap <==>
            forall n: nat, m: nat | n <= m :: Delay(initial, cap, n) <= Delay(initial, cap, m)
  {
    if initial >= 0 || initial >= cap {
      forall n: nat, m: nat | n <= m ensures Delay(initial, cap, n) <= Delay(initial, cap, m) {
        Growing(initial, if n == 0 then 0 else n - 1, if m == 0 then 0 else m - 1);
      }
    } else {
      assert Delay(initial, cap, 1) == initial;
      assert Delay(initial, cap, 2) == Min(Doubled(initial, 1), cap) == 2 * initial;
    }
  }

  /** A configuration for which the loop does not give the documented delay. */
  lemma NegativeDelaysDiffer()
    ensures Delay(-1, -3, 3) == -3 && Capped(-1, -3, 3) == -4
  {
    assert Pow2(2) == 2 * Pow2(1);
  }

  /** The cast to whole milliseconds truncates toward zero. */
  function Truncate(x: real): int {
    if x >= 0.0 then x.Floor else -((-x).Floor)
  }

  lemma Product(x: real, y: real)
    requires x >= 0.0 && y >= 0.0
    ensures x * y >= 0.0
  {
  }

  lemma Factor(d: real, jitter: real, x: real)
    requires 0.8 <= jitter <= 1.2 && x == d * jitter
    ensures d >= 0.0 ==> 0.8 * d <= x <= 1.2 * d
    ensures d <= 0.0 ==> 1.2 * d <= x <= 0.8 * d
  {
    var size := if d >= 0.0 then d else -d;
    Product(size, jitter - 0.8);
    Product(size, 1.2 - jitter);
    assert size * (jitter - 0.8) == size * jitter - 0.8 * size;
    assert size * (1.2 - jitter) == 1.2 * size - size * jitter;
    assert d < 0.0 ==> d * jitter == -(size * jitter);
  }

  lemma TruncatesTowardZero(x: real)
    ensures x >= 0.0 ==> 0 <= Truncate(x) && x - 1.0 < Truncate(x) as real <= x
    ensures x <= 0.0 ==> Truncate(x) <= 0 && x <= Truncate(x) as real < x + 1.0
  {
  }

  ghost predicate Within(d: real, r: real) {
    && (d >= 0.0 ==> 0.0 <= r && 0.8 * d - 1.0 < r <= 1.2 * d)
    && (d <= 0.0 ==> r <= 0.0 && 1.2 * d <= r < 0.8 * d + 1.0)
  }

  lemma StaysWithin(d: real, x: real)
    requires d >= 0.0 ==> 0.8 * d <= x <= 1.2 * d
    requires d <= 0.0 ==> 1.2 * d <= x <= 0.8 * d
    ensures Within(d, Truncate(x) as real)
  {
    TruncatesTowardZero(x);
  }

  /** retryDelay() with its random factor: within 20% of the delay, and less than a millisecond is
      lost to the cast, always toward zero. */
  method RetryDelay(initial: int, cap: int, attempt: nat, jitter: real) returns (r: int)
    requires 0.8 <= jitter <= 1.2
    ensures Within(Delay(initial, cap, attempt) as real, r as real)
  {
    var delay, _ := Unjittered(initial, cap, attempt);
    var d := delay as real;
    var jittered := d * jitter;
    Factor(d, jitter, jittered);
    StaysWithin(d, jittered);
    r := Truncate(jittered);
  }
}
