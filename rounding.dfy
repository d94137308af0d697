/** `parseFloat(x.toFixed(2))` in exact arithmetic. `toFixed(2)` picks the hundredth nearest to
    `x`, the larger magnitude on a tie, and treats a negative `x` as the negation of `-x`; the
    binary floating-point error of the JavaScript number is not modelled. */
module Rounding {

  /** Rounds a non-negative number to the nearest hundredth, halves upwards. */
  function RoundUp2(x: real): (r: real)
    requires x >= 0.0
    ensures WholeHundredths(r)
  {
    var f := (x * 100.0 + 0.5).Floor;
    IntHundredths(f);
    f as real / 100.0
  }

  /** `r` is a whole number of hundredths. */
  predicate WholeHundredths(r: real) {
    (r * 100.0).Floor as real == r * 100.0
  }

  lemma IntHundredths(f: int)
    ensures WholeHundredths(f as real / 100.0)
  {
    assert (f as real / 100.0) * 100.0 == f as real;
  }

  lemma NegatedHundredths(u: real)
    requires WholeHundredths(u)
    ensures WholeHundredths(-u)
  {
    var f := (u * 100.0).Floor;
    assert -u * 100.0 == (-f) as real;
  }

  /** Rounds to the nearest hundredth, halves away from zero. The result is a whole number of
      hundredths. */
  function Round2(x: real): (r: real)
    ensures WholeHundredths(r)
  {
    if x >= 0.0 then RoundUp2(x)
    else
      NegatedHundredths(RoundUp2(-x));
      -RoundUp2(-x)
  }

  /** Rounding moves a value by at most half a hundredth. */
  lemma Round2Error(x: real)
    ensures -0.005 <= Round2(x) - x <= 0.005
  {
    if x >= 0.0 {
      RoundUp2Error(x);
    } else {
      RoundUp2Error(-x);
    }
  }

  lemma RoundUp2Error(x: real)
    requires x >= 0.0
    ensures -0.005 <= RoundUp2(x) - x <= 0.005
  {
    var f := (x * 100.0 + 0.5).Floor;
    assert f as real <= x * 100.0 + 0.5 < f as real + 1.0;
  }

  /** A value that already has at most two decimals is left unchanged. */
  lemma Round2Hundredths(k: int)
    ensures Round2(k as real / 100.0) == k as real / 100.0
  {
    var x := k as real / 100.0;
    if k >= 0 {
      assert x * 100.0 + 0.5 == k as real + 0.5;
      assert (x * 100.0 + 0.5).Floor == k;
    } else {
      assert -x * 100.0 + 0.5 == -k as real + 0.5;
      assert (-x * 100.0 + 0.5).Floor == -k;
    }
  }

  /** Rounding is symmetric about zero. */
  lemma Round2Odd(x: real)
    ensures Round2(-x) == -Round2(x)
  {
    if x == 0.0 {
      assert (0.5).Floor == 0;
    }
  }
}
