/** Exact decimal money and the two-decimal rounding the app applies with
    `toFixed(2)` followed by `parseFloat`. Values are exact reals, not
    binary doubles. */
module Money {

  /** True when x is a whole number of hundredths (a value with at most two
      decimals, as `toFixed(2)` prints it). */
  predicate IsCents(x: real) {
    (x * 100.0).Floor as real == x * 100.0
  }

  /** Number of hundredths nearest to a non-negative x; a tie goes to the
      larger count, as `Number.prototype.toFixed` picks the larger n. */
  function HalfUpCents(x: real): (n: int)
    requires x >= 0.0
    ensures n >= 0
    ensures n as real - 0.5 <= x * 100.0 < n as real + 0.5
  {
    (x * 100.0 + 0.5).Floor
  }

  /** `parseFloat(x.toFixed(2))` on exact decimals: `toFixed` rounds the
      magnitude and prepends the sign, so ties round away from zero. */
  function Round2(x: real): (r: real)
    ensures IsCents(r)
    ensures x >= 0.0 ==> 0.0 <= r && r - 0.005 <= x < r + 0.005
    ensures x < 0.0 ==> r <= 0.0 && r - 0.005 < x <= r + 0.005
  {
    if x < 0.0 then
      var n := HalfUpCents(-x);
      HundredthsAreCents(-n);
      -(n as real / 100.0)
    else
      var n := HalfUpCents(x);
      HundredthsAreCents(n);
      n as real / 100.0
  }

  /** n hundredths, written as a decimal, has two decimals. */
  lemma HundredthsAreCents(n: int)
    ensures (n as real / 100.0) * 100.0 == n as real
    ensures IsCents(n as real / 100.0)
    ensures -(n as real / 100.0) == (-n) as real / 100.0
  {
  }

  /** Round2 is the only two-decimal value within half a hundredth of x,
      counting the upper tie for non-negative x and the lower tie for
      negative x: an independent description of the rounding. */
  lemma Round2Unique(x: real, r: real)
    requires IsCents(r)
    requires x >= 0.0 ==> r - 0.005 <= x < r + 0.005
    requires x < 0.0 ==> r - 0.005 < x <= r + 0.005
    ensures r == Round2(x)
  {
    var k := (r * 100.0).Floor;
    var q := Round2(x);
    var m := (q * 100.0).Floor;
    assert r == k as real / 100.0;
    assert q == m as real / 100.0;
    // both k and m lie strictly within one hundredth of 100x, so |k - m| < 1
    assert -1.0 < (k - m) as real < 1.0;
  }

  /** A value that already has two decimals is left as it is. */
  lemma Round2OfCents(x: real)
    requires IsCents(x)
    ensures Round2(x) == x
  {
    Round2Unique(x, x);
  }

  /** Rounding twice is rounding once. */
  lemma Round2Idempotent(x: real)
    ensures Round2(Round2(x)) == Round2(x)
  {
    Round2OfCents(Round2(x));
  }

  /** Rounding never reverses the order of two amounts. */
  lemma Round2Monotone(x: real, y: real)
    requires x <= y
    ensures Round2(x) <= Round2(y)
  {
    if 0.0 <= x {
      assert (x * 100.0 + 0.5).Floor <= (y * 100.0 + 0.5).Floor;
    } else if y < 0.0 {
      assert (-y * 100.0 + 0.5).Floor <= (-x * 100.0 + 0.5).Floor;
    }
  }

  /** Whole multiples of a two-decimal amount, and sums of two-decimal
      amounts, still have two decimals. */
  lemma CentsTimesCount(a: real, n: nat)
    requires IsCents(a)
    ensures IsCents(a * n as real)
  {
    var k := (a * 100.0).Floor;
    var x := a * n as real;
    assert x * 100.0 == (a * 100.0) * n as real;
    assert (a * 100.0) * n as real == (k * n) as real;
    WholeHundredthsAreCents(x, k * n);
  }

  /** A value that is a whole number m of hundredths has two decimals. */
  lemma WholeHundredthsAreCents(x: real, m: int)
    requires x * 100.0 == m as real
    ensures IsCents(x)
  {
    assert (m as real).Floor == m;
  }

  /** A product of two non-negative amounts is not negative. */
  lemma MulNonNeg(a: real, b: real)
    requires a >= 0.0 && b >= 0.0
    ensures a * b >= 0.0
  {
  }

  /** A value within half a hundredth of q, times n, is within n half
      hundredths of q * n. */
  lemma ScaledBound(share: real, q: real, n: real, total: real)
    requires n > 0.0 && q * n == total
    requires -0.005 <= share - q <= 0.005
    ensures -0.005 * n <= share * n - total <= 0.005 * n
  {
    var d := share - q;
    assert share * n - total == d * n;
    MulNonNeg(0.005 - d, n);
    MulNonNeg(d + 0.005, n);
    assert (0.005 - d) * n == 0.005 * n - d * n;
    assert (d + 0.005) * n == d * n + 0.005 * n;
  }

  lemma CentsSum(a: real, b: real)
    requires IsCents(a) && IsCents(b)
    ensures IsCents(a + b)
  {
    var k, m := (a * 100.0).Floor, (b * 100.0).Floor;
    assert (a + b) * 100.0 == (k + m) as real;
  }
}
