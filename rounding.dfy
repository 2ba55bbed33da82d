/** `Math.round` of a ratio with a positive denominator, in integer arithmetic, and
    the `Math.max(0, Math.min(100, score))` clamp the analyzers end with. */
module Rounding {
  /** `Math.max(0, Math.min(100, score))`. */
  function Clamp(score: int): (r: int)
    ensures 0 <= r <= 100
    ensures 0 <= score <= 100 ==> r == score
    ensures score < 0 ==> r == 0
    ensures score > 100 ==> r == 100
  {
    if score < 0 then 0 else if score > 100 then 100 else score
  }

  /** `Math.round(x)` for `x = num / den` with `den > 0`: `floor(x + 1/2)`. */
  function RoundRatio(num: int, den: int): (r: int)
    requires den > 0
    ensures num >= 0 ==> r >= 0
  {
    (2 * num + den) / (2 * den)
  }

  lemma RoundRatioMonotone(a: int, b: int, den: int)
    requires den > 0 && a <= b
    ensures RoundRatio(a, den) <= RoundRatio(b, den)
  {
    var d := 2 * den;
    var qa, qb := (2 * a + den) / d, (2 * b + den) / d;
    assert qa * d <= 2 * a + den <= 2 * b + den < qb * d + d;
    assert (qa - qb) * d == qa * d - qb * d;
    MultipleBelow(qa - qb, d);
  }

  /** A multiple of a positive `d` below `d` has a factor below 1. */
  lemma MultipleBelow(k: int, d: int)
    requires d > 0 && k * d < d
    ensures k < 1
  {
  }

  lemma RoundRatioExact(q: int, den: int)
    requires den > 0
    ensures RoundRatio(q * den, den) == q
  {
    DivideExact(2 * (q * den) + den, 2 * den, q, den);
  }

  /** Euclidean division recovers the quotient of `a = q * d + rem`. */
  lemma DivideExact(a: int, d: int, q: int, rem: int)
    requires d > 0 && 0 <= rem < d && a == q * d + rem
    ensures a / d == q
  {
    var q' := a / d;
    assert q' * d <= a < q' * d + d;
    assert (q' - q) * d == q' * d - q * d;
    MultipleBetween(q' - q, d);
  }

  /** A multiple of `d` strictly between `-d` and `d` is zero. */
  lemma MultipleBetween(k: int, d: int)
    requires d > 0 && -d < k * d < d
    ensures k == 0
  {
    MultipleBelow(k, d);
    MultipleBelow(-k, d);
  }
}
