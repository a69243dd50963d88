/** The default wait between two attempts of the fleet manager, in nanoseconds
    of a 64-bit duration that wraps around. */
module Backoff {
  const MILLISECOND := 1_000_000
  const MODULUS := 0x1_0000_0000_0000_0000
  const HALF := 0x8000_0000_0000_0000

  /** The int64 that arithmetic on n leaves. */
  function Wrap(n: int): int { (n + HALF) % MODULUS - HALF }

  function Pow2(k: nat): nat { if k == 0 then 1 else 2 * Pow2(k - 1) }

  /** The wait the doubling is meant to give. */
  function Doubling(attempt: int): nat {
    100 * MILLISECOND * Pow2(if attempt > 1 then attempt - 1 else 0)
  }

  lemma DoubleWrapped(n: int)
    ensures Wrap(2 * Wrap(n)) == Wrap(2 * n)
  {
    var q := (n + HALF) / MODULUS;
    assert Wrap(n) == n - MODULUS * q;
    assert 2 * Wrap(n) + HALF == 2 * n + HALF - MODULUS * (2 * q);
  }

  /** defaultBackoff. */
  method DefaultBackoff(attempt: int) returns (d: int)
    ensures d == Wrap(Doubling(attempt))
  {
    d := 100 * MILLISECOND;
    var i := 1;
    while i < attempt
      invariant d == Wrap(Doubling(i)) && 1 <= i && (i <= attempt || i == 1)
    {
      DoubleWrapped(Doubling(i));
      d := Wrap(d * 2);
      i := i + 1;
    }
  }

  lemma {:induction false} Pow2Adds(a: nat, b: nat)
    ensures Pow2(a + b) == Pow2(a) * Pow2(b)
  {
    if a > 0 { Pow2Adds(a - 1, b); }
  }

  lemma {:induction false} Pow2Grows(a: nat, b: nat)
    requires a <= b
    ensures Pow2(a) <= Pow2(b)
  {
    if a < b { Pow2Grows(a, b - 1); }
  }

  lemma Powers()
    ensures Pow2(24) == 16_777_216
    ensures Pow2(36) == 68_719_476_736
    ensures Pow2(37) == 137_438_953_472
    ensures Pow2(56) == 72_057_594_037_927_936
  {
    assert Pow2(4) == 16 by { Pow2Adds(2, 2); }
    assert Pow2(8) == 256 by { Pow2Adds(4, 4); }
    assert Pow2(12) == 4096 by { Pow2Adds(4, 8); }
    assert Pow2(24) == 16_777_216 by { Pow2Adds(12, 12); }
    assert Pow2(36) == 68_719_476_736 by { Pow2Adds(12, 24); }
    assert Pow2(48) == 281_474_976_710_656 by { Pow2Adds(24, 24); }
    assert Pow2(56) == 72_057_594_037_927_936 by { Pow2Adds(8, 48); }
  }

  /** The wait doubles as meant exactly for the first 37 attempts. */
  lemma DoublesExactlyUpTo37(attempt: int)
    ensures Wrap(Doubling(attempt)) == Doubling(attempt) <==> attempt <= 37
  {
    var k: nat := if attempt > 1 then attempt - 1 else 0;
    var p := Pow2(k);
    assert k <= 36 ==> p <= 68_719_476_736 by { Powers(); if k <= 36 { Pow2Grows(k, 36); } }
    assert k > 36 ==> p >= 137_438_953_472 by { Powers(); if k > 36 { Pow2Grows(37, k); } }
    assert Doubling(attempt) == 100 * MILLISECOND * p;
  }

  lemma WrapMultiple(q: int)
    ensures Wrap(MODULUS * q) == 0
  {
    assert (MODULUS * q + HALF) % MODULUS == HALF;
  }

  /** From attempt 57 on the wait is zero, which the manager skips. */
  lemma ZeroFrom57(attempt: int)
    requires attempt >= 57
    ensures Wrap(Doubling(attempt)) == 0
  {
    var p := Pow2(attempt - 57);
    assert Pow2(attempt - 1) == 72_057_594_037_927_936 * p by { Pow2Adds(56, attempt - 57); Powers(); }
    WrapMultiple(390_625 * p);
    assert Doubling(attempt) == MODULUS * (390_625 * p);
  }
}
