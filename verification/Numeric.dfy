/** Numeric helpers used by the scene reducers.

    `clamp` and `clampNormalized` are imported by the reducer file from a
    helpers module that is not part of this model. They are modelled here
    under the explicit assumption that `clamp(x, lo, hi)` is
    `min(max(x, lo), hi)` and that `clampNormalized(x)` is `clamp(x, 0, 1)`.
    Numbers are modelled as `real`: floating-point rounding and NaN are not
    represented.
 */
module Numeric {

  function Min(a: real, b: real): real {
    if a <= b then a else b
  }

  function Max(a: real, b: real): real {
    if a >= b then a else b
  }

  /** The value nearest to `x` inside `[lo, hi]`. */
  function Clamp(x: real, lo: real, hi: real): (r: real)
    ensures lo <= hi ==> lo <= r <= hi
    ensures lo <= x <= hi ==> r == x
    ensures lo <= hi && x < lo ==> r == lo
    ensures x > hi ==> r == hi
  {
    Min(Max(x, lo), hi)
  }

  /** `Clamp` into the unit interval. */
  function ClampNormalized(x: real): (r: real)
    ensures 0.0 <= r <= 1.0
    ensures 0.0 <= x <= 1.0 ==> r == x
    ensures x < 0.0 ==> r == 0.0
    ensures x > 1.0 ==> r == 1.0
  {
    Clamp(x, 0.0, 1.0)
  }

  /** Clamping twice into the same interval is clamping once. */
  lemma ClampIdempotent(x: real, lo: real, hi: real)
    requires lo <= hi
    ensures Clamp(Clamp(x, lo, hi), lo, hi) == Clamp(x, lo, hi)
  {
  }

  /** Clamping is monotone: it never reverses the order of two inputs. */
  lemma ClampMonotone(x: real, y: real, lo: real, hi: real)
    requires lo <= hi
    requires x <= y
    ensures Clamp(x, lo, hi) <= Clamp(y, lo, hi)
  {
  }
}
