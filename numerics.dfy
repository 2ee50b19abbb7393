/**
 * The few numeric operations of java.lang.Math and libGDX MathUtils that the
 * game relies on, written out over mathematical reals and integers.
 */
module Numerics {

  /** Math.round(float): the nearest integer, halves rounded up (floor(x + 0.5)). */
  function Round(x: real): (r: int)
    ensures x - 0.5 < r as real <= x + 0.5
  {
    (x + 0.5).Floor
  }

  /** Math.round is monotone. */
  lemma RoundMonotone(x: real, y: real)
    requires x <= y
    ensures Round(x) <= Round(y)
  {
  }

  /** MathUtils.clamp(value, min, max) for floats. */
  function Clamp(v: real, lo: real, hi: real): (r: real)
    ensures lo <= hi ==> lo <= r <= hi
    ensures lo <= v <= hi ==> r == v
    ensures v < lo ==> r == lo
    ensures lo <= hi && v > hi ==> r == hi
  {
    if v < lo then lo else if v > hi then hi else v
  }

  /** Clamping to a fixed range is monotone in the clamped value. */
  lemma ClampMonotone(u: real, v: real, lo: real, hi: real)
    requires u <= v && lo <= hi
    ensures Clamp(u, lo, hi) <= Clamp(v, lo, hi)
  {
  }

  function MaxR(a: real, b: real): real { if a >= b then a else b }
  function MinR(a: real, b: real): real { if a <= b then a else b }
  function MaxI(a: int, b: int): int { if a >= b then a else b }
  function MinI(a: int, b: int): int { if a <= b then a else b }

  /** Math.signum for floats. */
  function Signum(x: real): (r: real)
    ensures r == 1.0 || r == 0.0 || r == -1.0
    ensures (r > 0.0 <==> x > 0.0) && (r < 0.0 <==> x < 0.0)
  {
    if x > 0.0 then 1.0 else if x < 0.0 then -1.0 else 0.0
  }

  /** Java's int division, which truncates toward zero (Dafny's "/" is Euclidean). */
  function JavaDiv(a: int, b: int): int
    requires b > 0
  {
    if a >= 0 then a / b else -((-a) / b)
  }
}
