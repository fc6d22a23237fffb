/**
 * Conversions between American odds, decimal odds and implied probabilities
 * (main.py, american_to_prob, prob_to_american, decimal_to_american, clamp_prob).
 * Floating point is modelled by exact reals; Python's round() by Round.
 */
module Odds {
  import opened Wrappers

  /** The ValueError american_to_prob raises for odds 0. */
  datatype OddsError = InvalidOdds

  /** Lower and upper bound of the adjusted probability (clamp_prob's defaults). */
  const AdjustedLo: real := 0.01
  const AdjustedHi: real := 0.95

  /** Bounds prob_to_american clamps its argument into. */
  const ProbLo: real := 0.001
  const ProbHi: real := 0.999

  /** Python's round() to an integer: the nearest integer, a tie going to the even neighbour. */
  function Round(x: real): (n: int)
    ensures x - 0.5 <= n as real <= x + 0.5
  {
    var f := x.Floor;
    var frac := x - f as real;
    if frac < 0.5 then f
    else if frac > 0.5 then f + 1
    else if f % 2 == 0 then f else f + 1
  }

  /** Rounding keeps an integer as it is. */
  lemma RoundInteger(n: int)
    ensures Round(n as real) == n
  {
  }

  /** Rounding is monotone, whichever way ties break. */
  lemma RoundMonotone(x: real, y: real)
    requires x <= y
    ensures Round(x) <= Round(y)
  {
    if x.Floor < y.Floor {
      assert Round(x) <= x.Floor + 1 <= y.Floor;
    }
  }

  /** Python's round(x, 4): the multiple of 1/10000 nearest to x. */
  function Round4(x: real): (r: real)
    ensures x - 0.00005 <= r <= x + 0.00005
  {
    Round(x * 10000.0) as real / 10000.0
  }

  /** clamp_prob: p limited to [lo, hi] as max(lo, min(hi, p)). */
  function ClampProb(p: real, lo: real, hi: real): (r: real)
    ensures lo <= hi ==> lo <= r <= hi
    ensures lo <= p <= hi ==> r == p
    ensures p < lo ==> r == lo
    ensures lo <= hi < p ==> r == hi
  {
    var m := if hi < p then hi else p;
    if lo < m then m else lo
  }

  /** american_to_prob: the probability American odds imply; odds 0 raise. */
  function AmericanToProb(odds: real): (r: Result<real, OddsError>)
    ensures r.Err? <==> odds == 0.0
    ensures r.Ok? ==> 0.0 < r.value < 1.0
    ensures r.Ok? ==> (r.value == 0.5 <==> odds == 100.0 || odds == -100.0)
    ensures r.Ok? ==> (r.value > 0.5 <==> odds < -100.0 || 0.0 < odds < 100.0)
  {
    if odds == 0.0 then Err(InvalidOdds)
    else if odds < 0.0 then Ok((-odds) / ((-odds) + 100.0))
    else Ok(100.0 / (odds + 100.0))
  }

  /** The American odds of probability q before rounding: the inverse of AmericanToProb. */
  function FairAmerican(q: real): (a: real)
    requires 0.0 < q < 1.0
    ensures q >= 0.5 ==> a <= -100.0
    ensures q < 0.5 ==> a > 100.0
  {
    if q >= 0.5 then
      QuotientAtLeast(100.0 * q, 1.0 - q, 100.0);
      -100.0 * q / (1.0 - q)
    else
      QuotientAbove(100.0 * (1.0 - q), q, 100.0);
      100.0 * (1.0 - q) / q
  }

  /** x / y >= k when y > 0 and x >= k * y. */
  lemma QuotientAtLeast(x: real, y: real, k: real)
    requires y > 0.0 && x >= k * y
    ensures x / y >= k && -x / y <= -k
  {
    assert (x / y) * y == x;
  }

  /** x / y > k when y > 0 and x > k * y. */
  lemma QuotientAbove(x: real, y: real, k: real)
    requires y > 0.0 && x > k * y
    ensures x / y > k
  {
    assert (x / y) * y == x;
  }

  /** prob_to_american: p clamped into [0.001, 0.999], then the American odds of it, rounded. */
  function ProbToAmerican(p: real): (odds: int)
    ensures ClampProb(p, ProbLo, ProbHi) >= 0.5 ==> odds <= -100
    ensures ClampProb(p, ProbLo, ProbHi) < 0.5 ==> odds >= 100
    ensures ClampProb(p, ProbLo, ProbHi) == 0.5 ==> odds == -100
    ensures -99900 <= odds <= 99900
    ensures var q := ClampProb(p, ProbLo, ProbHi); odds as real - 0.5 <= FairAmerican(q) <= odds as real + 0.5
  {
    var q := ClampProb(p, ProbLo, ProbHi);
    FairAmericanBounded(q);
    assert q == 0.5 ==> FairAmerican(q) == -100.0;
    RoundInteger(-100);
    Round(FairAmerican(q))
  }

  /** Within the clamp, the unrounded odds never exceed 99900 in magnitude. */
  lemma FairAmericanBounded(q: real)
    requires ProbLo <= q <= ProbHi
    ensures -99900.0 <= FairAmerican(q) <= 99900.0
  {
    if q >= 0.5 {
      assert 100.0 * q <= 99900.0 * (1.0 - q);
      assert 100.0 * q / (1.0 - q) <= 99900.0;
    } else {
      assert 100.0 * (1.0 - q) <= 99900.0 * q;
      assert 100.0 * (1.0 - q) / q <= 99900.0;
    }
  }

  /** decimal_to_american before rounding, for decimal odds d > 1. */
  function DecimalAsAmerican(d: real): (a: real)
    requires d > 1.0
    ensures d >= 2.0 ==> a >= 100.0
    ensures d < 2.0 ==> a < -100.0
  {
    if d >= 2.0 then (d - 1.0) * 100.0 else -100.0 / (d - 1.0)
  }

  /** decimal_to_american: -1000 for d <= 1, otherwise the rounded equivalent American odds. */
  function DecimalToAmerican(d: real): (odds: int)
    ensures d <= 1.0 ==> odds == -1000
    ensures d >= 2.0 ==> odds >= 100
    ensures 1.0 < d < 2.0 ==> odds <= -100
    ensures d > 1.0 ==> odds as real - 0.5 <= DecimalAsAmerican(d) <= odds as real + 0.5
  {
    if d <= 1.0 then -1000 else Round(DecimalAsAmerican(d))
  }

  /** Converting a probability to unrounded American odds and back gives the probability again. */
  lemma FairAmericanInverse(q: real)
    requires 0.0 < q < 1.0
    ensures AmericanToProb(FairAmerican(q)) == Ok(q)
  {
    var a := FairAmerican(q);
    if q >= 0.5 {
      var b := 100.0 * q / (1.0 - q);
      assert a == -b;
      assert b * (1.0 - q) == 100.0 * q;
      assert b == q * (b + 100.0);
      assert b / (b + 100.0) == q;
    } else {
      assert a * q == 100.0 * (1.0 - q);
      assert 100.0 == q * (a + 100.0);
      assert 100.0 / (a + 100.0) == q;
    }
  }

  /** Decimal odds d and their unrounded American equivalent imply the same probability 1/d. */
  lemma DecimalAgreesWithAmerican(d: real)
    requires d > 1.0
    ensures AmericanToProb(DecimalAsAmerican(d)) == Ok(1.0 / d)
  {
    var a := DecimalAsAmerican(d);
    if d >= 2.0 {
      assert a + 100.0 == 100.0 * d;
      assert 100.0 / (100.0 * d) == 1.0 / d;
    } else {
      var b := 100.0 / (d - 1.0);
      assert a == -b;
      assert b * (d - 1.0) == 100.0;
      assert b + 100.0 == b * d;
      assert b / (b + 100.0) == 1.0 / d;
    }
  }

  /**
   * Round trip: the implied probability of prob_to_american(p) is within 1/800
   * of p clamped into [0.001, 0.999]; rounding to whole odds is the only loss.
   */
  lemma ProbToAmericanRoundTrip(p: real)
    ensures AmericanToProb(ProbToAmerican(p) as real).Ok?
    ensures var q := ClampProb(p, ProbLo, ProbHi);
            -1.0 / 800.0 <= AmericanToProb(ProbToAmerican(p) as real).value - q <= 1.0 / 800.0
  {
    var q := ClampProb(p, ProbLo, ProbHi);
    var a := FairAmerican(q);
    var n := ProbToAmerican(p) as real;
    assert n - 0.5 <= a <= n + 0.5;
    FairAmericanInverse(q);
    if q >= 0.5 {
      FavouriteGap(-a, -n);
    } else {
      UnderdogGap(a, n);
    }
  }

  /** Negative odds -b and -c at least 100 and at most 1/2 apart imply probabilities at most 1/800 apart. */
  lemma FavouriteGap(b: real, c: real)
    requires b >= 100.0 && c >= 100.0 && -0.5 <= c - b <= 0.5
    ensures AmericanToProb(-b).Ok? && AmericanToProb(-c).Ok?
    ensures -1.0 / 800.0 <= AmericanToProb(-c).value - AmericanToProb(-b).value <= 1.0 / 800.0
  {
    var x, y := b / (b + 100.0), c / (c + 100.0);
    assert AmericanToProb(-b) == Ok(x);
    assert AmericanToProb(-c) == Ok(y);
    var m := (b + 100.0) * (c + 100.0);
    assert x * (b + 100.0) == b;
    assert y * (c + 100.0) == c;
    assert (y - x) * m == 100.0 * (c - b);
    GapBound(y - x, c - b, m);
  }

  /** Positive odds a and n at least 100 and at most 1/2 apart imply probabilities at most 1/800 apart. */
  lemma UnderdogGap(a: real, n: real)
    requires a >= 100.0 && n >= 100.0 && -0.5 <= a - n <= 0.5
    ensures AmericanToProb(a).Ok? && AmericanToProb(n).Ok?
    ensures -1.0 / 800.0 <= AmericanToProb(n).value - AmericanToProb(a).value <= 1.0 / 800.0
  {
    var x, y := 100.0 / (a + 100.0), 100.0 / (n + 100.0);
    assert AmericanToProb(a) == Ok(x);
    assert AmericanToProb(n) == Ok(y);
    var m := (a + 100.0) * (n + 100.0);
    assert x * (a + 100.0) == 100.0;
    assert y * (n + 100.0) == 100.0;
    assert (y - x) * m == 100.0 * (a - n);
    GapBound(y - x, a - n, m);
  }

  /** g * m == 100 * e with |e| <= 1/2 and m >= 40000 leaves |g| <= 1/800. */
  lemma GapBound(g: real, e: real, m: real)
    requires -0.5 <= e <= 0.5 && m >= 40000.0 && g * m == 100.0 * e
    ensures -1.0 / 800.0 <= g <= 1.0 / 800.0
  {
  }

  /** The boundary values -100 and +100 both imply exactly one half. */
  lemma EvenMoneyIsOneHalf()
    ensures AmericanToProb(-100.0) == Ok(0.5) && AmericanToProb(100.0) == Ok(0.5)
    ensures ProbToAmerican(0.5) == -100
  {
  }
}
