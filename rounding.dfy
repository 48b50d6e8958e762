/**
 * Python's `round(x)` and `round(x, 2)` on exact reals.  Halves are rounded
 * up here, where Python rounds the binary double half to even.  The lemmas
 * below hold for both roundings: rounding is monotone, and values that are
 * already integers (hundredths) are left alone.  The strict lower bounds in
 * the ensures of RoundInt and Round2 hold for rounding half up only.
 */
module Rounding {

  /** `round(x)`: the integer nearest to `x`. */
  function RoundInt(x: real): (n: int)
    ensures x - 0.5 < n as real <= x + 0.5
  {
    (x + 0.5).Floor
  }

  /** `round(x, 2)`: the hundredth nearest to `x`. */
  function Round2(x: real): (r: real)
    ensures x - 0.005 < r <= x + 0.005
  {
    RoundInt(x * 100.0) as real / 100.0
  }

  lemma RoundIntMonotone(x: real, y: real)
    requires x <= y
    ensures RoundInt(x) <= RoundInt(y)
  {
    assert (x + 0.5).Floor as real <= x + 0.5 <= y + 0.5 < (y + 0.5).Floor as real + 1.0;
  }

  /** Integers round to themselves. */
  lemma RoundIntOfInt(k: int)
    ensures RoundInt(k as real) == k
  {
  }

  /** A value in `[lo, hi]`, with integer bounds, rounds into `[lo, hi]`. */
  lemma RoundIntWithin(x: real, lo: int, hi: int)
    requires lo as real <= x <= hi as real
    ensures lo <= RoundInt(x) <= hi
  {
    RoundIntMonotone(lo as real, x);
    RoundIntMonotone(x, hi as real);
    RoundIntOfInt(lo);
    RoundIntOfInt(hi);
  }

  lemma Round2Monotone(x: real, y: real)
    requires x <= y
    ensures Round2(x) <= Round2(y)
  {
    RoundIntMonotone(x * 100.0, y * 100.0);
  }

  /** Hundredths round to themselves. */
  lemma Round2OfHundredths(k: int)
    ensures Round2(k as real / 100.0) == k as real / 100.0
  {
    assert k as real / 100.0 * 100.0 == k as real;
    RoundIntOfInt(k);
  }

  /** A percentage in `[0, 100]` stays in `[0, 100]` after rounding to hundredths. */
  lemma Round2Percent(x: real)
    requires 0.0 <= x <= 100.0
    ensures 0.0 <= Round2(x) <= 100.0
  {
    RoundIntWithin(x * 100.0, 0, 10000);
  }
}
