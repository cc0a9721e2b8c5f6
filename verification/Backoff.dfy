/** The reconnect delay of `fail_remote`: capped exponential backoff. */
module Backoff {
  type U64 = n: int | 0 <= n < 0x1_0000_0000_0000_0000

  /** Half a second, in microseconds. */
  const UNIT: int := 500_000

  function Pow2(n: nat): (p: nat)
    ensures p > 0
  {
    if n == 0 then 1 else 2 * Pow2(n - 1)
  }

  function Min(a: nat, b: nat): nat {
    if a <= b then a else b
  }

  /** Half a second, one, two, four... and never more than the configured maximum, over unbounded
      integers and for any number of failures. */
  function Delay(failcount: int, maxInterval: nat): (d: nat)
    ensures d <= maxInterval
  {
    if failcount < 1 then 0 else UNIT * Min(Pow2(failcount - 1), maxInterval / UNIT)
  }

  lemma {:induction false} Pow2Mono(a: nat, b: nat)
    requires a <= b
    ensures Pow2(a) <= Pow2(b)
    decreases b
  {
    if a < b {
      Pow2Mono(a, b - 1);
    }
  }

  lemma {:induction false} Pow2Add(a: nat, b: nat)
    ensures Pow2(a + b) == Pow2(a) * Pow2(b)
  {
    if b > 0 {
      Pow2Add(a, b - 1);
      assert Pow2(a) * (2 * Pow2(b - 1)) == 2 * (Pow2(a) * Pow2(b - 1));
    }
  }

  lemma Pow2Of63()
    ensures Pow2(63) == 0x8000_0000_0000_0000
  {
    assert Pow2(7) == 128;
    Pow2Add(7, 7);
    Pow2Add(14, 7);
    Pow2Add(21, 21);
    Pow2Add(42, 21);
  }

  /** The delay never shrinks as failures accumulate. */
  lemma DelayMono(a: int, b: int, maxInterval: nat)
    requires a <= b
    ensures Delay(a, maxInterval) <= Delay(b, maxInterval)
  {
    if a >= 1 {
      Pow2Mono(a - 1, b - 1);
    }
  }

  /** The first delay is half a second, and each failure doubles it until it reaches the cap, rounded
      down to half seconds. */
  lemma DelayDoubles(n: int, maxInterval: nat)
    requires n >= 1
    ensures Delay(1, maxInterval) == if maxInterval < UNIT then 0 else UNIT
    ensures Delay(n + 1, maxInterval) == Min(2 * Delay(n, maxInterval), maxInterval - maxInterval % UNIT)
  {
    var p, q := Pow2(n - 1), maxInterval / UNIT;
    assert Pow2(0) == 1;
    assert Pow2(n) == 2 * p;
    assert UNIT * q == maxInterval - maxInterval % UNIT;
    assert UNIT * Min(2 * p, q) == Min(2 * (UNIT * Min(p, q)), UNIT * q);
  }

  /** The computation as the machine does it.  Every intermediate value has type U64, so nothing
      overflows; clamping the shift at 63 loses nothing because the cap is far below. */
  method NextReconnectDelay(failcount: int, maxInterval: U64) returns (delay: U64)
    requires 1 <= failcount < 0x8000_0000
    ensures delay == Delay(failcount, maxInterval)
  {
    Pow2Of63();
    var lshift: U64 := failcount - 1;
    if lshift > 63 {
      Pow2Mono(63, lshift);
      lshift := 63;
    }
    Pow2Mono(lshift, 63);
    var tmp: U64 := Pow2(lshift);
    if tmp > maxInterval / UNIT {
      tmp := maxInterval / UNIT;
    }
    delay := tmp * UNIT;
  }
}
