/**
 * Python's int() on a float and the max/min clamps the monitors apply,
 * over exact reals and integers.
 */
module Numeric {

  /** int(r): truncation toward zero. */
  function Trunc(r: real): (t: int)
    ensures r >= 0.0 ==> 0 <= t && t as real <= r < t as real + 1.0
    ensures r < 0.0 ==> t <= 0 && t as real - 1.0 < r <= t as real
  {
    if r >= 0.0 then r.Floor else -((-r).Floor)
  }

  /** Truncation never leaves [lo, hi] when lo and hi are whole numbers. */
  lemma TruncWithin(r: real, lo: int, hi: int)
    requires lo as real <= r <= hi as real
    ensures lo <= Trunc(r) <= hi
  {
  }

  /** max(lo, min(hi, v)) */
  function Clamp(v: int, lo: int, hi: int): (c: int)
    requires lo <= hi
    ensures lo <= c <= hi
    ensures lo <= v <= hi ==> c == v
    ensures v < lo ==> c == lo
    ensures v > hi ==> c == hi
  {
    if v < lo then lo else if v > hi then hi else v
  }
}
