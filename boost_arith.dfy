/**
 * The unsigned 32-bit arithmetic of the input-boost driver: the number of
 * CPUs an input cycle targets, the adjusted boost duration, and the floor a
 * migration asks for. C's `unsigned int` wraps modulo 2^32; that is written
 * out here wherever a product can leave the range.
 */
module BoostArith {

  const U32_MODULUS: int := 0x1_0000_0000

  /** C's `unsigned int`. */
  type U32 = x: int | 0 <= x < 0x1_0000_0000

  /** Length of each display boost step (FB_BOOST_MS). */
  const FB_BOOST_MS: nat := 900

  /** Extra time given to CPU0's restore so that it fires after a late-admitted CPU's. */
  const CPU0_GRACE_MS: nat := 10

  function Min(a: int, b: int): int { if a <= b then a else b }

  function Max(a: int, b: int): int { if a >= b then a else b }

  /** Conversion of a C `int` to `unsigned int` (two's complement reinterpretation). */
  function ToU32(x: int): (r: U32)
    ensures 0 <= x < U32_MODULUS ==> r == x
    ensures x < 0 && -U32_MODULUS <= x ==> r == x + U32_MODULUS
  {
    x % U32_MODULUS
  }

  /** Product of two `unsigned int`s: the mathematical product reduced modulo 2^32. */
  function MulU32(a: U32, b: U32): (r: U32)
    ensures r <= a * b
    ensures a * b < U32_MODULUS ==> r == a * b
    ensures (r - a * b) % U32_MODULUS == 0
  {
    var p := a * b;
    assert 0 <= p by { MulNonNegative(a, b); }
    p % U32_MODULUS
  }

  lemma MulNonNegative(a: nat, b: nat)
    ensures 0 <= a * b
  {
  }

  /** A larger divisor never gives a larger quotient. */
  lemma DivAntitone(x: nat, c: nat, d: nat)
    requires 0 < c <= d
    ensures x / d <= x / c
  {
    var q := x / d;
    assert q * d <= x;
    MulMonotone(q, c, d);
    MulLeImpliesLeDiv(q, c, x);
  }

  /** A multiple of `c` that fits in `x` has a factor of at most `x / c`. */
  lemma MulLeImpliesLeDiv(q: nat, c: nat, x: nat)
    requires 0 < c && q * c <= x
    ensures q <= x / c
  {
    var p := x / c;
    assert x == p * c + x % c;
    if p < q {
      MulMonotone(c, p + 1, q);
      assert false;
    }
  }

  lemma MulMonotone(k: nat, a: nat, b: nat)
    requires a <= b
    ensures k * a <= k * b && a * k <= b * k
  {
  }

  /**
   * Number of CPUs an input cycle boosts (line 143): two when exactly one CPU
   * is online, on the expectation that a second one is about to come up,
   * otherwise one.
   */
  function NrCpusToBoost(nrOnline: nat): (r: nat)
    ensures 1 <= r <= 2
    ensures r == 2 <==> nrOnline == 1
  {
    if nrOnline == 1 then 2 else 1
  }

  /**
   * `ib_duration_ms * 3 / (3 + num_online_cpus())` in `unsigned int`
   * arithmetic (line 149). The result never exceeds the configured duration,
   * even when the product wraps, and it stays small enough that adding the
   * 10 ms grace of CPU0 cannot wrap. Without wrap-around it is the floor of
   * the real quotient.
   */
  function AdjustedDuration(durationMs: U32, nrOnline: nat): (r: U32)
    ensures r <= durationMs
    ensures r <= 0x5555_5555
    ensures durationMs * 3 < U32_MODULUS ==>
      r * (3 + nrOnline) <= durationMs * 3 < (r + 1) * (3 + nrOnline)
  {
    var product := MulU32(durationMs, 3);
    DivAntitone(product, 3, 3 + nrOnline);
    product / (3 + nrOnline)
  }

  /** More CPUs online never lengthens the input boost. */
  lemma AdjustedDurationAntitone(durationMs: U32, fewer: nat, more: nat)
    requires fewer <= more
    ensures AdjustedDuration(durationMs, more) <= AdjustedDuration(durationMs, fewer)
  {
    DivAntitone(MulU32(durationMs, 3), 3 + fewer, 3 + more);
  }

  /**
   * The floor a migration asks for on its destination (lines 336-337):
   * `max(dest.max * load / 100, src.cur)` with the product in `unsigned int`.
   * It is never below the source's current frequency, it is exactly that
   * frequency when the stored load is 0, its load-proportional part never
   * exceeds the load's share of the destination's maximum, and for a load of
   * at most 100 it never exceeds the larger of the two frequencies.
   */
  function MigrationRequest(destMax: U32, taskLoad: U32, srcCur: U32): (r: U32)
    ensures r >= srcCur
    ensures r == srcCur || r * 100 <= destMax * taskLoad
    ensures taskLoad == 0 ==> r == srcCur
    ensures taskLoad <= 100 ==> r <= Max(destMax, srcCur)
    ensures destMax * taskLoad < U32_MODULUS ==> r == Max(destMax * taskLoad / 100, srcCur)
  {
    var share := MulU32(destMax, taskLoad) / 100;
    assert share * 100 <= destMax * taskLoad;
    assert taskLoad <= 100 ==> share <= destMax by {
      if taskLoad <= 100 {
        MulMonotone(destMax, taskLoad, 100);
        DivMonotone(MulU32(destMax, taskLoad), destMax * 100, 100);
      }
    }
    Max(share, srcCur)
  }

  lemma DivMonotone(x: nat, y: nat, d: nat)
    requires x <= y && 0 < d
    ensures x / d <= y / d
  {
    MulLeImpliesLeDiv(x / d, d, y);
  }
}
