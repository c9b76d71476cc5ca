/**
 * JavaScript's `Math.round` applied to an exact quotient.
 *
 * `Math.round(x)` is the integer nearest to `x`, with halves rounded up,
 * that is `floor(x + 1/2)`.  The model works on exact rationals `p / q`
 * rather than on IEEE doubles.
 */
module Rounding {

  /** `Math.round(p / q)` for a positive divisor `q`. */
  function RoundDiv(p: int, q: int): (r: int)
    requires q > 0
    // r is the nearest integer to p/q, halves going up: r - 1/2 <= p/q < r + 1/2
    ensures 2 * q * r <= 2 * p + q < 2 * q * r + 2 * q
  {
    (2 * p + q) / (2 * q)
  }

  /** `Math.round(100 * score / total)`: a score shown as a percentage. */
  function Percentage(score: int, total: int): (pct: int)
    requires total >= 1
    ensures 0 <= score <= total ==> 0 <= pct <= 100
  {
    RoundQuotientBounds(100 * score, total, 100);
    RoundDiv(100 * score, total)
  }

  /** Rounding a quotient that lies in [0, hi] gives an integer in [0, hi]. */
  lemma RoundQuotientBounds(p: int, q: int, hi: int)
    requires q > 0 && hi >= 0
    ensures 0 <= p <= hi * q ==> 0 <= RoundDiv(p, q) <= hi
  {
    var r := RoundDiv(p, q);
    if 0 <= p <= hi * q {
      // 0 <= 2p < q * (2r + 1), so 2r + 1 is positive
      assert q * (2 * r + 1) > 0;
      PositiveFactor(q, 2 * r + 1);
      // q * 2r <= 2p + q <= q * (2hi + 1), so 2r <= 2hi + 1
      assert q * (2 * r) <= q * (2 * hi + 1);
      FactorOrder(q, 2 * r, 2 * hi + 1);
    }
  }

  /** Rounding is monotone: a larger quotient never rounds lower. */
  lemma RoundDivMonotone(p1: int, q1: int, p2: int, q2: int)
    requires q1 > 0 && q2 > 0
    requires p1 * q2 <= p2 * q1
    ensures RoundDiv(p1, q1) <= RoundDiv(p2, q2)
  {
    var r1, r2 := RoundDiv(p1, q1), RoundDiv(p2, q2);
    // q1 q2 (2 r1) <= (2 p1 + q1) q2 <= (2 p2 + q2) q1 < q1 q2 (2 r2 + 2)
    assert q2 * (2 * q1 * r1) <= q2 * (2 * p1 + q1);
    assert q1 * (2 * p2 + q2) < q1 * (2 * q2 * r2 + 2 * q2);
    assert (q1 * q2) * (2 * r1) < (q1 * q2) * (2 * r2 + 2);
    FactorOrder(q1 * q2, 2 * r1, 2 * r2 + 1);
  }

  /** Rounding an exact multiple gives the multiplier back. */
  lemma RoundDivOfMultiple(k: int, q: int)
    requires q > 0
    ensures RoundDiv(k * q, q) == k
  {
    var r := RoundDiv(k * q, q);
    assert q * (2 * r) <= q * (2 * k + 1) + q - 1;
    FactorOrder(q, 2 * r, 2 * k + 1);
    assert q * (2 * k) <= q * (2 * r) + q - 1;
    FactorOrder(q, 2 * k, 2 * r);
  }

  /** More correct answers out of the same total never show a lower percentage. */
  lemma PercentageMonotone(score1: int, score2: int, total: int)
    requires total >= 1 && score1 <= score2
    ensures Percentage(score1, total) <= Percentage(score2, total)
  {
    assert (100 * score2) * total - (100 * score1) * total == 100 * (total * (score2 - score1));
    assert total * (score2 - score1) >= 0;
    RoundDivMonotone(100 * score1, total, 100 * score2, total);
  }

  /** All questions right shows 100 %, none right shows 0 %. */
  lemma PercentageEnds(total: int)
    requires total >= 1
    ensures Percentage(total, total) == 100 && Percentage(0, total) == 0
  {
    RoundDivOfMultiple(100, total);
    assert Percentage(total, total) == RoundDiv(100 * total, total);
    RoundDivOfMultiple(0, total);
  }

  lemma PositiveFactor(q: int, x: int)
    requires q > 0 && q * x > 0
    ensures x > 0
  {
  }

  lemma FactorOrder(q: int, x: int, y: int)
    requires q > 0 && q * x <= q * y + q - 1
    ensures x <= y
  {
    assert q * (y - x + 1) == q * y - q * x + q;
    PositiveFactor(q, y - x + 1);
  }
}
