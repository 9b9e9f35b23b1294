/** Numeric helpers shared by both viewport calibrators (src/utils.ts).
    JavaScript numbers are modelled as `real` (no rounding, no NaN); the
    integer helpers model `Math.min` / `Math.max` on the advanced
    calibrator's integral cartesian units. */
module Utils {

  function Min(a: real, b: real): (r: real)
    ensures r <= a && r <= b
    ensures r == a || r == b
  {
    if a <= b then a else b
  }

  function Max(a: real, b: real): (r: real)
    ensures a <= r && b <= r
    ensures r == a || r == b
  {
    if a >= b then a else b
  }

  function MinInt(a: int, b: int): (r: int)
    ensures r <= a && r <= b
    ensures r == a || r == b
  {
    if a <= b then a else b
  }

  function MaxInt(a: int, b: int): (r: int)
    ensures a <= r && b <= r
    ensures r == a || r == b
  {
    if a >= b then a else b
  }

  /** `average`: the point half-way between a and b. */
  function Average(a: real, b: real): (r: real)
    ensures r - a == b - r
    ensures Min(a, b) <= r <= Max(a, b)
  {
    (a + b) / 2.0
  }

  /** `clamp`: value forced into [lo, hi]; the upper bound wins when lo > hi. */
  function Clamp(value: real, lo: real, hi: real): (r: real)
    ensures r <= hi
    ensures lo <= hi ==> lo <= r
    ensures lo <= value <= hi ==> r == value
    ensures value < lo && lo <= hi ==> r == lo
    ensures hi < value ==> r == hi
    ensures hi < lo ==> r == hi
  {
    Min(Max(value, lo), hi)
  }

  lemma AverageSymmetric(a: real, b: real)
    ensures Average(a, b) == Average(b, a)
  {
  }

  lemma ClampIdempotent(value: real, lo: real, hi: real)
    requires lo <= hi
    ensures Clamp(Clamp(value, lo, hi), lo, hi) == Clamp(value, lo, hi)
  {
  }
}
