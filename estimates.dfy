/**
 * The progress percentage and remaining-time estimate that the dependency
 * installer and the video generators compute after each finished unit.
 */
module Estimates {

  /**
   * int((done / total) * 100): the whole percentage of units finished.
   * Computed here exactly, as the floor of the quotient; Python's doubles
   * give the same value for every total up to 49, beyond the 1..10 videos
   * and 9 packages the callers use.
   */
  function Percent(done: nat, total: nat): (p: int)
    requires 1 <= done <= total
    ensures 0 <= p <= 100
    ensures p == 100 <==> done == total
  {
    if done < total then
      DivMonotone(done * 100, total * 100 - 1, total);
      DivUnique(total * 100 - 1, total, 99);
      done * 100 / total
    else
      MulDivCancel(100, total);
      done * 100 / total
  }

  /** Finishing more units never lowers the percentage. */
  lemma PercentMonotone(a: nat, b: nat, total: nat)
    requires 1 <= a <= b <= total
    ensures Percent(a, total) <= Percent(b, total)
  {
    DivMonotone(a * 100, b * 100, total);
  }

  /** With at most 100 units every finished unit raises the percentage. */
  lemma PercentStrictlyIncreasing(a: nat, b: nat, total: nat)
    requires 1 <= a < b <= total <= 100
    ensures Percent(a, total) < Percent(b, total)
  {
    DivAddDivisor(a * 100, total);
    DivMonotone(a * 100 + total, b * 100, total);
  }

  lemma MulCancelLt(a: int, b: int, d: int)
    requires d > 0 && a * d < b * d
    ensures a < b
  {
  }

  /** q is x / d when q * d <= x < (q + 1) * d. */
  lemma DivUnique(x: nat, d: nat, q: int)
    requires d > 0 && q * d <= x < q * d + d
    ensures x / d == q
  {
    var p := x / d;
    assert p * d <= x < p * d + d;
    assert (q + 1) * d == q * d + d;
    assert (p + 1) * d == p * d + d;
    MulCancelLt(p, q + 1, d);
    MulCancelLt(q, p + 1, d);
  }

  lemma MulDivCancel(k: nat, d: nat)
    requires d > 0
    ensures (k * d) / d == k
  {
    DivUnique(k * d, d, k);
  }

  lemma DivAddDivisor(x: nat, d: nat)
    requires d > 0
    ensures (x + d) / d == x / d + 1
  {
    var q := x / d;
    assert q * d <= x < q * d + d;
    assert (q + 1) * d == q * d + d;
    DivUnique(x + d, d, q + 1);
  }

  lemma DivMonotone(x: nat, y: nat, d: nat)
    requires x <= y && d > 0
    ensures x / d <= y / d
  {
    var qx, qy := x / d, y / d;
    assert qx * d <= x;
    assert y < (qy + 1) * d;
    MulCancelLt(qx, qy + 1, d);
  }

  /**
   * estimated_total_time - elapsed_time, with estimated_total_time =
   * elapsed_time / done * total: the time the remaining units will take at
   * the average rate so far. The caller always has done >= 1, so there is no
   * division by zero.
   */
  function RemainingTime(elapsed: real, done: nat, total: nat): (r: real)
    requires done >= 1
    ensures r == elapsed * (total - done) as real / done as real
    ensures 0.0 <= elapsed && done <= total ==> r >= 0.0
    ensures done == total ==> r == 0.0
  {
    var d := done as real;
    assert elapsed / d * total as real - elapsed == elapsed * (total as real - d) / d;
    elapsed / d * total as real - elapsed
  }
}
