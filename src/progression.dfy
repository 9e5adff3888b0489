/**
 * The experience curve shared by `PlayerStats` and `Player`: a level-up
 * costs the current threshold, which then grows to one and a half times
 * its value, rounded down. The first threshold is 100.
 */
module Progression {

  const FirstThreshold: int := 100

  /** The threshold after one more level-up. */
  function NextThreshold(t: int): (r: int)
    requires t >= FirstThreshold
    ensures r >= FirstThreshold && r > t
    ensures r as real <= t as real * 1.5 < r as real + 1.0
  {
    (t as real * 1.5).Floor
  }

  /** The threshold after `k` level-ups starting from threshold `t`. */
  function ThresholdAfter(t: int, k: nat): (r: int)
    requires t >= FirstThreshold
    ensures r >= t
    decreases k
  {
    if k == 0 then t else ThresholdAfter(NextThreshold(t), k - 1)
  }

  /** The experience `k` level-ups consume, starting from threshold `t`. */
  function CostOf(t: int, k: nat): (r: real)
    requires t >= FirstThreshold
    ensures r >= (k * FirstThreshold) as real
    decreases k
  {
    if k == 0 then 0.0 else t as real + CostOf(NextThreshold(t), k - 1)
  }

  /** What a call that banks experience leaves behind. */
  datatype Outcome = Outcome(exp: real, threshold: int, gained: nat)

  /**
   * The level-up loop as a function: while the banked experience covers
   * the threshold, pay it and raise the threshold.
   */
  function LevelUps(exp: real, t: int): (r: Outcome)
    requires t >= FirstThreshold
    ensures r.threshold >= FirstThreshold && r.exp < r.threshold as real
    ensures r.gained == 0 <==> exp < t as real
    decreases exp.Floor
  {
    if exp < t as real then Outcome(exp, t, 0)
    else
      var rest := LevelUps(exp - t as real, NextThreshold(t));
      rest.(gained := rest.gained + 1)
  }

  /**
   * The outcome spends exactly the cost of the levels gained, ends on the
   * matching threshold, and gains the most levels the experience pays for.
   */
  lemma {:induction false} LevelUpsFollowCurve(exp: real, t: int)
    requires t >= FirstThreshold
    ensures var r := LevelUps(exp, t);
      r.threshold == ThresholdAfter(t, r.gained) && r.exp == exp - CostOf(t, r.gained)
    ensures var r := LevelUps(exp, t);
      r.gained > 0 ==> CostOf(t, r.gained) <= exp
    ensures var r := LevelUps(exp, t);
      exp < CostOf(t, r.gained + 1)
    decreases exp.Floor
  {
    if exp >= t as real {
      LevelUpsFollowCurve(exp - t as real, NextThreshold(t));
    }
  }
}
