/**
 * The four stages of a countdown and the classifier of `TimerZone._check_stage`.
 *
 * The source computes the elapsed fraction `1 - remain/total` as a Python float and compares
 * it with the float constants 0.75 and 0.90. The model uses exact reals for that expression
 * (`StageAt`) and proves it equal to an integer-only classifier (`Classify`).
 */
module Stages {

  datatype Stage = Great | Yellow | Red | Done

  /** Position of a stage in the order great < yellow < red < done. */
  function Rank(s: Stage): nat
  {
    match s
    case Great => 0
    case Yellow => 1
    case Red => 2
    case Done => 3
  }

  /** `TimerZone.THRESH_YELLOW` and `TimerZone.THRESH_RED`. */
  const YellowThreshold: real := 0.75
  const RedThreshold: real := 0.90

  /** `_bar_pct` as `_refresh_display` computes it: zero for a zero-length timer. */
  function ElapsedFraction(remain: int, total: int): real
  {
    if total > 0 then 1.0 - (remain as real) / (total as real) else 0.0
  }

  /** The conditional expression of `_check_stage`, over the stored fraction `pct`. */
  function StageAt(pct: real, remain: int): Stage
  {
    if remain == 0 then Done
    else if pct >= RedThreshold then Red
    else if pct >= YellowThreshold then Yellow
    else Great
  }

  /** The same classification in integer arithmetic only, with elapsed = total - remain. */
  function Classify(remain: int, total: int): Stage
  {
    if remain == 0 then Done
    else if total > 0 && 10 * (total - remain) >= 9 * total then Red
    else if total > 0 && 4 * (total - remain) >= 3 * total then Yellow
    else Great
  }

  /** `1 - r/t >= k/d` is `d * (t - r) >= k * t` when `t > 0`. */
  lemma FractionAtLeast(remain: int, total: int, k: int, d: int)
    requires total > 0 && d > 0
    ensures ElapsedFraction(remain, total) >= (k as real) / (d as real)
        <==> d * (total - remain) >= k * total
  {
  }

  /**
   * The real-valued classifier of the source and the integer classifier agree on every input:
   * `pct >= 0.90` is `10 * elapsed >= 9 * total` and `pct >= 0.75` is `4 * elapsed >= 3 * total`.
   */
  lemma ClassifyMatchesFraction(remain: int, total: int)
    ensures StageAt(ElapsedFraction(remain, total), remain) == Classify(remain, total)
  {
    if total > 0 {
      FractionAtLeast(remain, total, 9, 10);
      FractionAtLeast(remain, total, 3, 4);
      assert (9 as real) / (10 as real) == RedThreshold;
      assert (3 as real) / (4 as real) == YellowThreshold;
    }
  }

  /** Counting down never moves the stage backwards. */
  lemma ClassifyMonotone(remain: int, later: int, total: int)
    requires 0 <= later <= remain <= total
    ensures Rank(Classify(remain, total)) <= Rank(Classify(later, total))
  {
  }

  /** The stage is done exactly at zero; otherwise the bands are ordered by elapsed time. */
  lemma ClassifyBands(remain: int, total: int)
    requires 0 < remain <= total
    ensures Classify(remain, total) != Done
    ensures Classify(remain, total) == Great <==> 4 * remain > total
    ensures Classify(remain, total) == Red <==> 10 * remain <= total
  {
  }
}
