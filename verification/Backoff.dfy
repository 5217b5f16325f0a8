/** The wait before a retry: a 64-bit shift whose overflow must never look like a short wait. */
module Backoff {
  import opened Base

  const BASE_NS: nat := 500_000_000
  const MAX_NS: nat := 8_000_000_000
  const TWO_63: nat := 0x8000_0000_0000_0000
  const TWO_64: nat := 0x1_0000_0000_0000_0000
  const TWO_33: nat := 0x2_0000_0000

  function Pow2(n: nat): (p: nat)
    ensures p > 0
  {
    if n == 0 then 1 else 2 * Pow2(n - 1)
  }

  /** The signed 64-bit value that a mathematical integer wraps to. */
  function Wrap(x: int): (w: int)
    ensures -(TWO_63 as int) <= w < TWO_63
  {
    (x + TWO_63) % TWO_64 - TWO_63
  }

  /** A left shift of a signed 64-bit number; counts of 64 and more leave nothing. */
  function ShiftLeft(x: int, n: nat): int { Wrap(x * Pow2(n)) }

  /** The shift as the processor does it. */
  method BackoffDelay(attempt: nat) returns (d: nat)
    ensures d == Min(500 * 1000 * 1000 * Pow2(attempt), 8 * 1000 * 1000 * 1000)
    ensures 0 < d <= 8 * 1000 * 1000 * 1000
  {
    ShiftNeverShort(attempt);
    var shifted := ShiftLeft(BASE_NS, attempt);
    d := if shifted > MAX_NS || shifted <= 0 then MAX_NS else shifted;
  }

  lemma {:induction false} Pow2Grows(m: nat, n: nat)
    requires m <= n
    ensures Pow2(m) <= Pow2(n)
    decreases n
  {
    if m < n { Pow2Grows(m, n - 1); }
  }

  lemma {:induction false} Pow2Split(m: nat, n: nat)
    ensures Pow2(m + n) == Pow2(m) * Pow2(n)
    decreases n
  {
    if n > 0 {
      Pow2Split(m, n - 1);
      assert Pow2(m + n) == 2 * Pow2(m + n - 1);
    }
  }

  lemma SmallPowers()
    ensures Pow2(4) == 16 && Pow2(5) == 32 && Pow2(24) == 16_777_216 && Pow2(25) == 33_554_432
  {
    assert Pow2(3) == 8;
    Pow2Split(4, 4);
    Pow2Split(8, 8);
    Pow2Split(8, 16);
  }

  /** What is a multiple of 2^33 stays one when it wraps. */
  lemma WrapKeepsMultiple(k: int)
    ensures exists q :: Wrap(TWO_33 * k) == TWO_33 * q
  {
    var x := TWO_33 * k;
    var q := (x + TWO_63) / TWO_64;
    assert x + TWO_63 == TWO_64 * q + (x + TWO_63) % TWO_64;
    assert Wrap(x) == x - TWO_64 * q;
    assert TWO_64 == TWO_33 * 0x8000_0000;
    assert Wrap(x) == TWO_33 * (k - 0x8000_0000 * q);
  }

  /** No shift of the base wait is positive and below the cap unless it is exact. */
  lemma ShiftNeverShort(n: nat)
    ensures 0 < ShiftLeft(BASE_NS, n) <= MAX_NS ==> ShiftLeft(BASE_NS, n) == BASE_NS * Pow2(n)
    ensures !(0 < ShiftLeft(BASE_NS, n) <= MAX_NS) ==> BASE_NS * Pow2(n) > MAX_NS
  {
    SmallPowers();
    if n <= 24 {
      Pow2Grows(n, 24);
      assert Wrap(BASE_NS * Pow2(n)) == BASE_NS * Pow2(n);
    } else {
      Pow2Grows(25, n);
      LargeShift(n);
    }
  }

  /** From 2^25 on the product is a multiple of 2^33, and the least positive one is beyond the cap. */
  lemma LargeShift(n: nat)
    requires n >= 25
    ensures ShiftLeft(BASE_NS, n) <= 0 || ShiftLeft(BASE_NS, n) > MAX_NS
  {
    SmallPowers();
    Pow2Split(25, n - 25);
    var k := 1_953_125 * Pow2(n - 25);
    assert BASE_NS * Pow2(n) == TWO_33 * k;
    WrapKeepsMultiple(k);
    var q :| ShiftLeft(BASE_NS, n) == TWO_33 * q;
  }

  /** A later attempt never waits less. */
  lemma WaitsNeverShrink(m: nat, n: nat)
    requires m <= n
    ensures Min(BASE_NS * Pow2(m), MAX_NS) <= Min(BASE_NS * Pow2(n), MAX_NS)
  {
    Pow2Grows(m, n);
  }
}
