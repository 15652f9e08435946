/**
 * The backoff calculator (`computeBackoffDelay`): the delay before the next
 * attempt of a record that has failed `attempt` times.
 */
module Backoff {
  import opened Optional

  /** The retry policy, fixed by `init` (`retry` options with their defaults). */
  datatype RetryPolicy = RetryPolicy(
    retries: nat,
    minDelayMs: nat,
    maxDelayMs: nat,
    factor: nat,
    jitter: bool)

  const DEFAULT_RETRY_POLICY := RetryPolicy(5, 1000, 30000, 2, true)

  /**
   * `Math.random()` is a parameter: a draw `d` stands for the fraction
   * d / DRAW_SCALE, which lies in [0, 1) as `Math.random()` does.
   */
  const DRAW_SCALE: nat := 1_000_000
  type Draw = d: nat | d < DRAW_SCALE

  function Pow(b: nat, e: nat): nat {
    if e == 0 then 1 else b * Pow(b, e - 1)
  }

  /** With a factor of at least one, the powers never decrease. */
  lemma {:induction false} PowMonotone(b: nat, e1: nat, e2: nat)
    requires 1 <= b && e1 <= e2
    ensures Pow(b, e1) <= Pow(b, e2)
    decreases e2
  {
    if e1 < e2 {
      PowMonotone(b, e1, e2 - 1);
      assert Pow(b, e2) == b * Pow(b, e2 - 1);
      assert Pow(b, e2 - 1) <= b * Pow(b, e2 - 1);
    }
  }

  /** min(minDelayMs * factor^attempt, maxDelayMs): the un-jittered delay. */
  function BaseDelay(p: RetryPolicy, attempt: nat): (base: nat)
    ensures base <= p.maxDelayMs && base <= p.minDelayMs * Pow(p.factor, attempt)
    ensures base == p.maxDelayMs || base == p.minDelayMs * Pow(p.factor, attempt)
  {
    Min(p.minDelayMs * Pow(p.factor, attempt), p.maxDelayMs)
  }

  /** The jitter added to half the base: up to half the base, scaled by the draw. */
  function Jitter(base: nat, draw: Draw): (j: nat)
    ensures j <= base / 2
  {
    var half := base / 2;
    ScaledDivBound(half, draw);
    half * draw / DRAW_SCALE
  }

  lemma ScaledDivBound(half: nat, draw: Draw)
    ensures half * draw / DRAW_SCALE <= half
  {
    assert half * draw <= half * DRAW_SCALE;
    assert half * DRAW_SCALE / DRAW_SCALE == half;
  }

  /**
   * The delay before the next attempt. Without jitter it is the base delay;
   * with jitter it lies between half the base and the base.
   */
  function Delay(p: RetryPolicy, attempt: nat, draw: Draw): (d: nat)
    ensures !p.jitter ==> d == BaseDelay(p, attempt)
    ensures p.jitter ==> BaseDelay(p, attempt) / 2 <= d <= BaseDelay(p, attempt)
    ensures d <= p.maxDelayMs
  {
    var base := BaseDelay(p, attempt);
    if p.jitter then base / 2 + Jitter(base, draw) else base
  }

  /** Without jitter and with a factor of at least one, the delay never decreases with the attempt. */
  lemma {:induction false} DelayMonotone(p: RetryPolicy, a1: nat, a2: nat, d1: Draw, d2: Draw)
    requires !p.jitter && 1 <= p.factor && a1 <= a2
    ensures Delay(p, a1, d1) <= Delay(p, a2, d2)
  {
    PowMonotone(p.factor, a1, a2);
    MulMonotone(p.minDelayMs, Pow(p.factor, a1), Pow(p.factor, a2));
  }

  lemma MulMonotone(m: nat, x: nat, y: nat)
    requires x <= y
    ensures m * x <= m * y
  {
  }
}
