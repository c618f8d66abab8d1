/**
 The retry delay of the worker, computed as Go computes it: every product is
 taken modulo 2^64 and read back as a signed 64-bit number of nanoseconds.
 */
module Backoff {
  const TWO63 := 0x8000_0000_0000_0000
  const TWO64 := 0x1_0000_0000_0000_0000
  const SECOND := 1_000_000_000

  // The last attempt whose delay still fits in 63 bits.
  const LAST_EXACT := 29

  // What the exact delays add up to: more than the largest negative delay takes away.
  const ALL_EXACT := 20 * 0x1fff_ffff * SECOND

  function Pow2(n: nat): (p: nat)
    ensures p >= 1
  {
    if n == 0 then 1 else 2 * Pow2(n - 1)
  }

  // Two's complement reading of x modulo 2^64.
  function Wrap64(x: int): (r: int)
    ensures -TWO63 <= r < TWO63
    ensures -TWO63 <= x < TWO63 ==> r == x
  {
    (x + TWO63) % TWO64 - TWO63
  }

  // One shifted left by n places, in 64 bits: nothing is left from 64 places on.
  function ShiftOne(n: nat): int {
    if n < 64 then Wrap64(Pow2(n)) else 0
  }

  // The shifted one as a duration, taken ten times and then as many seconds; each product wraps.
  function Delay(attempt: nat): int {
    Wrap64(Wrap64(ShiftOne(attempt) * 10) * SECOND)
  }

  // The delay the formula means: 10 * 2^attempt seconds.
  function Ideal(attempt: nat): nat {
    10 * Pow2(attempt) * SECOND
  }

  // Sum of the ideal delays after attempts 1..n, in closed form: 20 * (2^n - 1) seconds.
  function Floor(n: nat): nat {
    20 * (Pow2(n) - 1) * SECOND
  }

  lemma {:induction false} Pow2Monotone(m: nat, n: nat)
    requires m <= n
    ensures Pow2(m) <= Pow2(n)
  {
    if m < n {
      Pow2Monotone(m, n - 1);
    }
  }

  lemma {:induction false} Pow2Sum(m: nat, n: nat)
    ensures Pow2(m + n) == Pow2(m) * Pow2(n)
  {
    if n > 0 {
      Pow2Sum(m, n - 1);
    }
  }

  lemma Pow2Table()
    ensures Pow2(29) == 0x2000_0000 && Pow2(30) == 0x4000_0000
    ensures Pow2(54) == 0x40_0000_0000_0000
    ensures Pow2(63) == TWO63 && Pow2(64) == TWO64
  {
    assert Pow2(8) == 256;
    Pow2Sum(8, 8);
    Pow2Sum(16, 8);
    Pow2Sum(24, 5);
    Pow2Sum(24, 6);
    Pow2Sum(24, 24);
    Pow2Sum(48, 6);
    Pow2Sum(48, 15);
    assert Pow2(5) == 32 && Pow2(6) == 64 && Pow2(15) == 0x8000 by {
      Pow2Sum(8, 7);
    }
  }

  lemma WrapScale(x: int, y: int)
    ensures Wrap64(Wrap64(x) * y) == Wrap64(x * y)
  {
    var k := (x + TWO63) / TWO64;
    assert Wrap64(x) == x - k * TWO64;
    assert Wrap64(x) * y == x * y - (k * y) * TWO64 by {
      assert (x - k * TWO64) * y == x * y - (k * TWO64) * y;
      assert (k * TWO64) * y == (k * y) * TWO64;
    }
    WrapShift(x * y, -(k * y));
  }

  lemma WrapShift(x: int, k: int)
    ensures Wrap64(x + k * TWO64) == Wrap64(x)
  {
    var q := (x + TWO63) / TWO64;
    var r := (x + TWO63) % TWO64;
    assert x + k * TWO64 + TWO63 == (q + k) * TWO64 + r;
    DivModUnique(x + k * TWO64 + TWO63, q + k, r);
  }

  lemma DivModUnique(a: int, q: int, r: int)
    requires a == q * TWO64 + r && 0 <= r < TWO64
    ensures a % TWO64 == r
  {
    assert a == (a / TWO64) * TWO64 + a % TWO64;
    assert (a / TWO64 - q) * TWO64 == r - a % TWO64;
  }

  // Below a shift of 64 the intermediate wraps are invisible in the result.
  lemma DelayIsWrappedIdeal(attempt: nat)
    requires attempt < 64
    ensures Delay(attempt) == Wrap64(Ideal(attempt))
  {
    WrapScale(Pow2(attempt), 10);
    WrapScale(Pow2(attempt) * 10, SECOND);
    assert Delay(attempt) == Wrap64(Wrap64(Pow2(attempt) * 10) * SECOND);
  }

  // The delay is what the formula means exactly up to attempt 29.
  lemma DelayExactIff(attempt: nat)
    ensures Delay(attempt) == Ideal(attempt) <==> attempt <= LAST_EXACT
  {
    Pow2Table();
    if attempt <= LAST_EXACT {
      DelayIsWrappedIdeal(attempt);
      Pow2Monotone(attempt, 29);
    } else {
      Pow2Monotone(30, attempt);
      assert Ideal(attempt) >= TWO63;
      assert Delay(attempt) < TWO63;
    }
  }

  // On that range it is at least 20 seconds and doubles with every attempt.
  lemma DelayDoubles(attempt: nat)
    requires 1 <= attempt <= LAST_EXACT
    ensures Delay(attempt) >= 20 * SECOND
    ensures attempt < LAST_EXACT ==> Delay(attempt + 1) == 2 * Delay(attempt)
  {
    DelayExactIff(attempt);
    DelayExactIff(attempt + 1);
    Pow2Monotone(1, attempt);
    assert Pow2(1) == 2;
  }

  // The first attempt past the range schedules the retry some 244 years in the past.
  lemma DelayOverflows()
    ensures Delay(LAST_EXACT + 1) == -7_709_325_833_709_551_616
  {
    Pow2Table();
    DelayIsWrappedIdeal(30);
  }

  // 10^10 = 2^10 * 5^10, so the product vanishes modulo 2^64 from attempt 54 on, and not before.
  lemma DelayZeroIff(attempt: nat)
    ensures Delay(attempt) == 0 <==> attempt >= 54
  {
    if attempt >= 64 {
    } else if attempt >= 54 {
      DelayVanishes(attempt);
    } else {
      DelaySurvives(attempt);
    }
  }

  lemma DelayVanishes(attempt: nat)
    requires 54 <= attempt < 64
    ensures Delay(attempt) == 0
  {
    Pow2Table();
    DelayIsWrappedIdeal(attempt);
    Pow2Sum(54, attempt - 54);
    var k := Pow2(attempt - 54);
    assert Ideal(attempt) == (9_765_625 * k) * TWO64;
    WrapShift(0, 9_765_625 * k);
  }

  lemma DelaySurvives(attempt: nat)
    requires attempt < 54
    ensures Delay(attempt) != 0
  {
    DelayIsWrappedIdeal(attempt);
    if Delay(attempt) == 0 {
      var k := (Ideal(attempt) + TWO63) / TWO64;
      assert Ideal(attempt) == k * TWO64;
      Pow2Table();
      Pow2Sum(54 - attempt, attempt);
      var m := Pow2(53 - attempt);
      Cancel(m, k, Pow2(attempt), 10 * SECOND, 0x40_0000_0000_0000, TWO64, 9_765_625);
      assert false; // 5^10 is odd
    }
  }

  lemma Cancel(m: nat, k: int, p: nat, b: nat, c: nat, t: nat, q: nat)
    requires b * p == k * t && (2 * m) * p == c && b * c == q * t && t > 0
    ensures 2 * (m * k) == q
  {
    assert (2 * (m * k)) * t == (2 * m) * (k * t);
    assert (2 * m) * (b * p) == b * ((2 * m) * p);
    assert (2 * (m * k) - q) * t == 0;
  }

  // One more attempt adds its delay to the closed form.
  lemma FloorStep(n: nat)
    requires n >= 1
    ensures Floor(n) == Floor(n - 1) + Ideal(n)
  {
  }

  lemma FloorOfExact()
    ensures Floor(LAST_EXACT) == ALL_EXACT
  {
    Pow2Table();
  }
}
