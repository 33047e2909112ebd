/** Retry delays: saturating 64-bit arithmetic against the exact formula. */
module Backoff {
  import opened Prelude

  const U64_LIMIT := 0x1_0000_0000_0000_0000
  const MAX_DELAY_MS := 30000

  type U64 = n: nat | n < U64_LIMIT

  lemma ProductIsNat(a: nat, b: nat)
    ensures a * b >= 0
  {}

  function SaturatingMul(a: U64, b: U64): U64 {
    ProductIsNat(a, b);
    if a * b >= U64_LIMIT then U64_LIMIT - 1 else a * b
  }

  function SaturatingAdd(a: U64, b: U64): U64 {
    if a + b >= U64_LIMIT then U64_LIMIT - 1 else a + b
  }

  function Pow2(n: nat): nat {
    if n == 0 then 1 else 2 * Pow2(n - 1)
  }

  function Min(a: nat, b: nat): nat { if a <= b then a else b }

  /** `1u64 << attempt`: shifting by the width of the type or more is an overflow. */
  function ShiftedOne(attempt: nat): (r: Option<U64>)
  {
    if attempt < 64 then Pow2Fits(attempt); Some(Pow2(attempt)) else None
  }

  lemma {:induction false} Pow2Adds(a: nat, b: nat)
    ensures Pow2(a + b) == Pow2(a) * Pow2(b)
  {
    if a > 0 {
      Pow2Adds(a - 1, b);
    }
  }

  lemma {:induction false} Pow2Grows(a: nat, b: nat)
    requires a <= b
    ensures 0 < Pow2(a) <= Pow2(b)
  {
    if a < b {
      Pow2Grows(a, b - 1);
    } else if a > 0 {
      Pow2Grows(a - 1, a - 1);
    }
  }

  lemma Pow2Of64()
    ensures Pow2(64) == U64_LIMIT
  {
    assert Pow2(4) == 16;
    assert Pow2(8) == 0x100 by { Pow2Adds(4, 4); }
    assert Pow2(16) == 0x1_0000 by { Pow2Adds(8, 8); }
    assert Pow2(32) == 0x1_0000_0000 by { Pow2Adds(16, 16); }
    Pow2Adds(32, 32);
  }

  lemma Pow2Fits(attempt: nat)
    requires attempt < 64
    ensures 0 < Pow2(attempt) < U64_LIMIT
  {
    Pow2Grows(attempt, 63);
    Pow2Of64();
    assert Pow2(64) == 2 * Pow2(63);
  }

  /** The delay before jitter; `power` is the shifted one. */
  function CappedDelay(base: U64, power: U64): (d: U64)
    ensures d <= MAX_DELAY_MS
  {
    Min(SaturatingMul(base, power), MAX_DELAY_MS)
  }

  function Jitter(capped: U64, factor: U64): nat {
    SaturatingMul(capped, factor) / 4000
  }

  /** The delay before retry `attempt`, or an overflow; `factor` comes from the clock and
      lies below 1000. */
  function BackoffDelay(base: U64, attempt: nat, factor: nat): Option<nat>
    requires factor < 1000
  {
    match ShiftedOne(attempt)
    case None => None
    case Some(power) =>
      var capped := CappedDelay(base, power);
      Some(SaturatingAdd(capped, Jitter(capped, factor)))
  }

  /** The delay by the formula: the capped power of two and its jitter. */
  function ExactDelay(base: nat, attempt: nat, factor: nat): nat {
    var exact := Min(base * Pow2(attempt), MAX_DELAY_MS);
    exact + exact * factor / 4000
  }

  /** The delays before the first `n` retries together. */
  ghost function TotalDelay(base: nat, factor: nat -> nat, n: nat): nat {
    if n == 0 then 0 else TotalDelay(base, factor, n - 1) + ExactDelay(base, n - 1, factor(n - 1))
  }

  /** Saturation never shows: the delay is the exact capped power plus less than a quarter. */
  lemma BackoffIsExact(base: U64, attempt: nat, factor: nat)
    requires factor < 1000
    ensures BackoffDelay(base, attempt, factor).Some? <==> attempt < 64
    ensures attempt < 64 ==>
              var exact := Min(base * Pow2(attempt), MAX_DELAY_MS);
              var d := BackoffDelay(base, attempt, factor).value;
              && d == exact + exact * factor / 4000 == ExactDelay(base, attempt, factor)
              && exact <= d <= 37492 && (exact > 0 ==> 4 * (d - exact) < exact) && (exact == 0 ==> d == 0)
  {
    if attempt < 64 {
      Pow2Fits(attempt);
      var exact := Min(base * Pow2(attempt), MAX_DELAY_MS);
      assert exact == CappedDelay(base, Pow2(attempt));
      JitterIsSmall(exact, factor);
    }
  }

  lemma JitterIsSmall(exact: nat, factor: nat)
    requires exact <= MAX_DELAY_MS && factor < 1000
    ensures exact * factor <= 30000 * 999
    ensures exact * factor / 4000 <= 7492
    ensures exact > 0 ==> 4 * (exact * factor / 4000) < exact
    ensures exact == 0 ==> exact * factor / 4000 == 0
  {
    var x := exact * factor;
    MulGrows(exact, factor, 999);
    ProductIsNat(exact, factor);
    QuotientIsBelow(x);
  }

  lemma QuotientIsBelow(x: nat)
    ensures 0 <= 4000 * (x / 4000) <= x
  {}

  /** The delay before jitter never shrinks from one attempt to a later one. */
  lemma DelayGrows(base: U64, a: nat, b: nat)
    requires a <= b < 64
    ensures ShiftedOne(a).Some? && ShiftedOne(b).Some?
    ensures CappedDelay(base, ShiftedOne(a).value) <= CappedDelay(base, ShiftedOne(b).value)
  {
    Pow2Grows(a, b);
    MulGrows(base, Pow2(a), Pow2(b));
  }

  lemma MulGrows(x: nat, a: nat, b: nat)
    requires a <= b
    ensures x * a <= x * b
  {}
}
