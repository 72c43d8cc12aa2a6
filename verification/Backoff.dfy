/** The agent's reconnect backoff (agent/client/ws.go): a shifted int64 that wraps, a cap, and jitter.
    Durations are nanoseconds; the jitter is computed over the reals. */
module Backoff {
  import opened Util

  const BACKOFF_MIN: int := 1_000_000_000
  const BACKOFF_MAX: int := 30_000_000_000
  const JITTER: real := 0.2
  const TWO_64: int := 0x1_0000_0000_0000_0000
  const TWO_63: int := 0x8000_0000_0000_0000

  function Pow2(k: nat): (p: nat)
    ensures p > 0
  {
    if k == 0 then 1 else 2 * Pow2(k - 1)
  }

  /** An integer as int64 arithmetic leaves it. */
  function Wrap(n: int): (w: int)
    ensures -TWO_63 <= w < TWO_63
  {
    (n + TWO_63) % TWO_64 - TWO_63
  }

  function Shift(d: int, k: nat): int {
    Wrap(d * Pow2(k))
  }

  /** The delay before jitter. */
  function Base(attempt: int): int {
    var base := Shift(BACKOFF_MIN, if attempt < 1 then 0 else attempt - 1);
    if base > BACKOFF_MAX || base <= 0 then BACKOFF_MAX else base
  }

  function NextBackoff(attempt: int, random: real): int
    requires 0.0 <= random < 1.0
  {
    var d := Times(Base(attempt) as real, JitterFactor(random)).Floor;
    if d < 0 then 0 else d
  }

  /** The product, under a name that keeps proofs about it linear. */
  function Times(x: real, y: real): real {
    x * y
  }

  function JitterFactor(random: real): real {
    var jitter := (random * 2.0 - 1.0) * JITTER;
    1.0 + jitter
  }

  lemma {:induction false} Pow2Adds(a: nat, b: nat)
    ensures Pow2(a + b) == Pow2(a) * Pow2(b)
  {
    if a > 0 {
      Pow2Adds(a - 1, b);
      assert Pow2(a + b) == 2 * (Pow2(a - 1) * Pow2(b));
    }
  }

  lemma {:induction false} Pow2Monotone(a: nat, b: nat)
    requires a <= b
    ensures Pow2(a) <= Pow2(b)
  {
    if a < b {
      Pow2Monotone(a, b - 1);
    }
  }

  lemma Pow2Of5And33()
    ensures Pow2(5) == 32 && Pow2(33) == 0x2_0000_0000 && Pow2(34) == 0x4_0000_0000
  {
    assert Pow2(5) == 32;
    assert Pow2(8) == 256;
    Pow2Adds(8, 8);
    Pow2Adds(16, 16);
    assert Pow2(33) == 2 * Pow2(32);
    assert Pow2(34) == 2 * Pow2(33);
  }

  lemma WrapSmall(n: int)
    requires 0 <= n < TWO_63
    ensures Wrap(n) == n
  {
  }

  /** A multiple of 2^43 is still one after wrapping, so it is not positive, or above the cap. */
  lemma WrappedMultipleIsCapped(c: int)
    ensures Wrap(c * 0x800_0000_0000) % 0x800_0000_0000 == 0
    ensures Wrap(c * 0x800_0000_0000) <= 0 || Wrap(c * 0x800_0000_0000) > BACKOFF_MAX
  {
    var n := c * 0x800_0000_0000;
    var q := (n + TWO_63) / TWO_64;
    assert Wrap(n) == n - q * TWO_64;
    assert Wrap(n) == (c - q * 0x20_0000) * 0x800_0000_0000;
  }

  /** From the 35th attempt on the shift overflows, and the cap applies. */
  lemma OverflowIsCapped(k: nat)
    requires k >= 34
    ensures Shift(BACKOFF_MIN, k) <= 0 || Shift(BACKOFF_MIN, k) > BACKOFF_MAX
  {
    Pow2Adds(34, k - 34);
    Pow2Of5And33();
    assert BACKOFF_MIN * 0x4_0000_0000 == 1_953_125 * 0x800_0000_0000;
    var c := 1_953_125 * Pow2(k - 34);
    assert BACKOFF_MIN * Pow2(k) == c * 0x800_0000_0000;
    WrappedMultipleIsCapped(c);
  }

  /** For every attempt the base is 1s, 2s, 4s, 8s, 16s and then the cap: wrapping never shows. */
  lemma BaseIsCappedDoubling(attempt: int)
    ensures Base(attempt) == Min(1_000_000_000 * Pow2(if attempt < 1 then 0 else attempt - 1), 30_000_000_000)
  {
    var k: nat := if attempt < 1 then 0 else attempt - 1;
    Pow2Of5And33();
    if k <= 33 {
      Pow2Monotone(k, 33);
      WrapSmall(BACKOFF_MIN * Pow2(k));
    } else {
      Pow2Monotone(34, k);
      OverflowIsCapped(k);
    }
  }

  lemma BaseMonotone(attempt: int, later: int)
    requires attempt <= later
    ensures 0 < Base(attempt) <= Base(later) <= BACKOFF_MAX
  {
    BaseIsCappedDoubling(attempt);
    BaseIsCappedDoubling(later);
    Pow2Monotone(if attempt < 1 then 0 else attempt - 1, if later < 1 then 0 else later - 1);
  }

  /** The delay stays within 20% of the base, for every random number in [0, 1). */
  lemma JitterBounded(attempt: int, random: real)
    requires 0.0 <= random < 1.0
    ensures 4 * Base(attempt) <= 5 * NextBackoff(attempt, random) <= 6 * Base(attempt)
  {
    BaseMonotone(attempt, attempt);
    BaseDividesByFive(attempt);
    var fifth, factor := Base(attempt) / 5, JitterFactor(random);
    assert fifth * 5 == Base(attempt);
    FactorRange(random);
    Scaled(fifth, factor);
    assert NextBackoff(attempt, random) == Times((fifth * 5) as real, factor).Floor;
  }

  /** And it spreads: it grows with the random number, from 20% below the base at 0, through the base in
      the middle. */
  lemma JitterSpreads(attempt: int, random: real, more: real)
    requires 0.0 <= random <= more < 1.0
    ensures NextBackoff(attempt, random) <= NextBackoff(attempt, more)
    ensures 5 * NextBackoff(attempt, 0.0) == 4 * Base(attempt)
    ensures NextBackoff(attempt, 0.5) == Base(attempt)
  {
    BaseMonotone(attempt, attempt);
    BaseDividesByFive(attempt);
    var base, fifth := Base(attempt) as real, Base(attempt) / 5;
    JitterBounded(attempt, random);
    JitterBounded(attempt, more);
    JitterBounded(attempt, 0.0);
    Scale(base, JitterFactor(random), JitterFactor(more));
    FloorMonotone(Times(base, JitterFactor(random)), Times(base, JitterFactor(more)));
    assert JitterFactor(0.0) == 0.8 && JitterFactor(0.5) == 1.0;
    assert fifth * 5 == Base(attempt);
    Fifths(fifth);
    FloorOf(4 * fifth);
    FloorOf(Base(attempt));
    assert Times(base, 1.0) == base;
  }

  lemma FloorOf(n: int)
    ensures (n as real).Floor == n
  {
  }

  lemma FloorMonotone(x: real, y: real)
    requires x <= y
    ensures x.Floor <= y.Floor
  {
  }

  lemma FactorRange(random: real)
    requires 0.0 <= random < 1.0
    ensures 0.8 <= JitterFactor(random) <= 1.2
  {
  }

  lemma Scaled(fifth: int, factor: real)
    requires fifth >= 0 && 0.8 <= factor <= 1.2
    ensures 4 * fifth <= Times((fifth * 5) as real, factor).Floor <= 6 * fifth
  {
    var x := (fifth * 5) as real;
    Scale(x, 0.8, factor);
    Scale(x, factor, 1.2);
    Fifths(fifth);
    FloorBetween(Times(x, factor), 4 * fifth, 6 * fifth);
  }

  lemma Fifths(fifth: int)
    ensures Times((fifth * 5) as real, 0.8) == (4 * fifth) as real
    ensures Times((fifth * 5) as real, 1.2) == (6 * fifth) as real
  {
    assert (fifth * 5) as real == 5.0 * fifth as real;
  }

  lemma FloorBetween(x: real, low: int, high: int)
    requires low as real <= x <= high as real
    ensures low <= x.Floor <= high
  {
  }

  lemma Scale(x: real, a: real, b: real)
    requires x >= 0.0 && a <= b
    ensures Times(x, a) <= Times(x, b)
  {
    assert x * (b - a) >= 0.0;
  }

  lemma BaseDividesByFive(attempt: int)
    ensures Base(attempt) == Base(attempt) / 5 * 5
  {
    BaseIsCappedDoubling(attempt);
    var p := Pow2(if attempt < 1 then 0 else attempt - 1);
    assert BACKOFF_MIN * p == (200_000_000 * p) * 5;
  }

  /** So every delay is between 0.8 and 36 seconds. */
  lemma DelayRange(attempt: int, random: real)
    requires 0.0 <= random < 1.0
    ensures 800_000_000 <= NextBackoff(attempt, random) <= 36_000_000_000
  {
    JitterBounded(attempt, random);
    BaseMonotone(if attempt < 1 then attempt else 1, attempt);
    BaseIsCappedDoubling(if attempt < 1 then attempt else 1);
  }
}
