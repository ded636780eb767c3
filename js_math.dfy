/**
 * The few pieces of JavaScript's `Math` object that the drone battery
 * predictor uses, over `real`.
 *
 * `Math.min`, `Math.max` and `Math.abs` are defined here. `Math.cos` and
 * `Math.PI` come from the host and are not given a definition: a `Trig`
 * value carries them, and lemmas that need their properties say so in their
 * preconditions.
 */
module JsMath {

  /** `Math.min(a, b)` on finite numbers. */
  function Min(a: real, b: real): (r: real)
    ensures r <= a && r <= b
    ensures r == a || r == b
  {
    if a <= b then a else b
  }

  /** `Math.max(a, b)` on finite numbers. */
  function Max(a: real, b: real): (r: real)
    ensures r >= a && r >= b
    ensures r == a || r == b
  {
    if a >= b then a else b
  }

  /** `Math.abs(x)`. */
  function Abs(x: real): (r: real)
    ensures r >= 0.0
    ensures r == x || r == -x
  {
    if x >= 0.0 then x else -x
  }

  /**
   * The idiom `Math.max(lo, Math.min(hi, x))`, used by the engine for the
   * efficiency score and the confidence score and by the form for every
   * input. The lower bound wins when the bounds are crossed.
   */
  function Clamp(lo: real, hi: real, x: real): (r: real)
    ensures r >= lo
    ensures lo <= hi ==> r <= hi
    ensures lo <= x <= hi ==> r == x
    ensures x < lo ==> r == lo
    ensures lo <= hi < x ==> r == hi
  {
    Max(lo, Min(hi, x))
  }

  /**
   * The host's trigonometry: `cos` is `Math.cos` (argument in radians) and
   * `pi` is `Math.PI`.
   */
  datatype Trig = Trig(cos: real -> real, pi: real)

  /** What the engine's lemmas may assume of `Math.cos`: its range is [-1, 1]. */
  ghost predicate CosBounded(t: Trig)
  {
    forall x :: -1.0 <= t.cos(x) <= 1.0
  }
}
