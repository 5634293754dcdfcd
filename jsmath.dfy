/** JavaScript's `Math.round`, taken over exact rationals `num / den`.

    `Math.round(x)` is `floor(x + 1/2)`: the nearest integer, with a tie
    going towards positive infinity. The estimator only ever rounds values
    that are exact tenths or hundredths, so the model keeps a numerator and
    a positive denominator instead of a floating-point number. */
module JsMath {

  /** `Math.round(num / den)`: the one integer `r` with
      `r - 1/2 <= num / den < r + 1/2`. */
  function Round(num: int, den: int): (r: int)
    requires den > 0
    ensures den * (2 * r - 1) <= 2 * num < den * (2 * r + 1)
  {
    var q := (2 * num + den) / (2 * den);
    assert 2 * den * q <= 2 * num + den < 2 * den * q + 2 * den;
    q
  }

  /** Cancelling a positive factor from a strict product inequality. */
  lemma MulStrictCancel(d: int, a: int, b: int)
    requires d > 0 && d * a < d * b
    ensures a < b
  {
  }

  /** The bounds in the contract of `Round` pin its result down: any integer
      within half a unit of `num / den` (ties going up) is `Round(num, den)`. */
  lemma RoundUnique(num: int, den: int, k: int)
    requires den > 0
    requires den * (2 * k - 1) <= 2 * num < den * (2 * k + 1)
    ensures Round(num, den) == k
  {
    var r := Round(num, den);
    MulStrictCancel(den, 2 * r - 1, 2 * k + 1);
    MulStrictCancel(den, 2 * k - 1, 2 * r + 1);
  }

  /** An integer is its own rounding. */
  lemma RoundExact(n: int, den: int)
    requires den > 0
    ensures Round(n * den, den) == n
  {
    assert den * (2 * n - 1) == 2 * (n * den) - den;
    assert den * (2 * n + 1) == 2 * (n * den) + den;
    RoundUnique(n * den, den, n);
  }

  /** Rounding depends on the value of the fraction only, not on how it is
      written: scaling numerator and denominator alike changes nothing. */
  lemma RoundScale(num: int, den: int, k: int)
    requires den > 0 && k > 0
    ensures Round(num * k, den * k) == Round(num, den)
  {
    var r := Round(num, den);
    MulLeftMono(k, den * (2 * r - 1), 2 * num);
    MulLeftStrict(k, 2 * num, den * (2 * r + 1));
    assert k * (den * (2 * r - 1)) == (den * k) * (2 * r - 1);
    assert k * (den * (2 * r + 1)) == (den * k) * (2 * r + 1);
    assert k * (2 * num) == 2 * (num * k);
    RoundUnique(num * k, den * k, r);
  }

  lemma MulLeftMono(k: int, a: int, b: int)
    requires k > 0 && a <= b
    ensures k * a <= k * b
  {
    assert k * b - k * a == k * (b - a);
  }

  lemma MulLeftStrict(k: int, a: int, b: int)
    requires k > 0 && a < b
    ensures k * a < k * b
  {
    assert k * b - k * a == k * (b - a);
  }

  /** Rounding never reverses the order of two values with one denominator. */
  lemma RoundMonotone(a: int, b: int, den: int)
    requires den > 0 && a <= b
    ensures Round(a, den) <= Round(b, den)
  {
    var ra, rb := Round(a, den), Round(b, den);
    if ra > rb {
      MulLeftMono(den, 2 * rb + 1, 2 * ra - 1);
      assert false;
    }
  }

  /** A value in hundredths that is not exactly halfway between two integers
      rounds the same way under every tie rule: in particular
      `Math.round(-x)` is `-Math.round(x)`, as with rounding half away from
      zero. Since `-Round(-x, den)` rounds ties downwards while `Round(x, den)`
      rounds them upwards, their equality leaves no room for any tie rule to
      give a different result. */
  lemma RoundHundredthsNoTieSymmetric(num: int)
    requires num % 100 != 50
    ensures Round(-num, 100) == -Round(num, 100)
  {
    var s := Round(-num, 100);
    // The bounds of s give 100 * (-2 * s - 1) < 2 * num <= 100 * (1 - 2 * s),
    // and equality on the right would make num a tie.
    if 2 * num == 100 * (1 - 2 * s) {
      assert false;
    }
    RoundUnique(num, 100, -s);
  }
}
