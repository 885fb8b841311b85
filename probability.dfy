/**
 * The price-geometry part of the engine: the technical chance of winning
 * (`calculate_technical_chance_of_winning`), its blend with the fundamental
 * score (`calculate_composite_chance_of_winning`) and the trade expectancy
 * (`calculate_expectancy`). Prices are exact reals.
 */
module Probability {

  function Abs(x: real): (r: real)
    ensures r >= 0.0 && (r == x || r == -x)
  {
    if x < 0.0 then -x else x
  }

  /** How far the stop-loss lies from the current price. */
  function StopLossDistance(current: real, stopLoss: real): real {
    Abs(current - stopLoss)
  }

  /** How far the target lies from the current price. */
  function TargetDistance(current: real, target: real): real {
    Abs(target - current)
  }

  /**
   * The share of the total distance that lies on the stop-loss side, with the
   * degenerate tie (all three prices equal) answered by 0.5 instead of a
   * division by zero.
   */
  function TechnicalChance(current: real, target: real, stopLoss: real): (r: real)
    ensures 0.0 <= r <= 1.0
    ensures current == target && current == stopLoss ==> r == 0.5
    ensures !(current == target && current == stopLoss) ==>
              StopLossDistance(current, stopLoss) + TargetDistance(current, target) > 0.0
              && r == StopLossDistance(current, stopLoss)
                      / (StopLossDistance(current, stopLoss) + TargetDistance(current, target))
  {
    var stopLossDistance := StopLossDistance(current, stopLoss);
    var targetDistance := TargetDistance(current, target);
    if stopLossDistance + targetDistance == 0.0 then
      0.5
    else
      ShareInUnitInterval(stopLossDistance, targetDistance);
      stopLossDistance / (stopLossDistance + targetDistance)
  }

  /** The share s/(s+t) of two non-negative distances, not both zero, lies in [0, 1]. */
  lemma ShareInUnitInterval(s: real, t: real)
    requires s >= 0.0 && t >= 0.0 && s + t > 0.0
    ensures 0.0 <= s / (s + t) <= 1.0
  {
  }

  /** Fractions over one denominator add up by their numerators. */
  lemma AddFractions(x: real, y: real, d: real)
    requires d != 0.0
    ensures x / d + y / d == (x + y) / d
  {
  }

  /** A common non-zero factor of numerator and denominator cancels. */
  lemma CancelFactor(k: real, x: real, d: real)
    requires k != 0.0 && d != 0.0
    ensures (k * x) / (k * d) == x / d
  {
  }

  /**
   * The chance is 1 exactly when the target is the current price and the
   * stop-loss is not, and 0 exactly when the stop-loss is the current price
   * and the target is not.
   */
  lemma TechnicalChanceExtremes(current: real, target: real, stopLoss: real)
    ensures TechnicalChance(current, target, stopLoss) == 1.0 <==> target == current && stopLoss != current
    ensures TechnicalChance(current, target, stopLoss) == 0.0 <==> stopLoss == current && target != current
  {
    var s, t := StopLossDistance(current, stopLoss), TargetDistance(current, target);
    if s + t != 0.0 {
      var r := TechnicalChance(current, target, stopLoss);
      assert r * (s + t) == s;
    }
  }

  /**
   * Moving the stop-loss farther away, with the target distance fixed and
   * non-zero, strictly raises the chance.
   */
  lemma TechnicalChanceMonotoneInStopDistance(current: real, target: real, nearStop: real, farStop: real)
    requires target != current
    requires StopLossDistance(current, nearStop) < StopLossDistance(current, farStop)
    ensures TechnicalChance(current, target, nearStop) < TechnicalChance(current, target, farStop)
  {
    var a, b, t := StopLossDistance(current, nearStop), StopLossDistance(current, farStop), TargetDistance(current, target);
    ShareStrictlyIncreasing(a, b, t);
  }

  /** For a positive t, the share a/(a+t) strictly increases with a. */
  lemma ShareStrictlyIncreasing(a: real, b: real, t: real)
    requires 0.0 <= a < b && t > 0.0
    ensures a / (a + t) < b / (b + t)
  {
    var p, q := a + t, b + t;
    Distribute(a, b, t);
    Distribute(b, a, t);
    assert a * b == b * a;
    MulStrictlyIncreasing(a, b, t);
    FractionsOrdered(a, p, b, q);
  }

  lemma Distribute(x: real, y: real, z: real)
    ensures x * (y + z) == x * y + x * z
  {
  }

  lemma MulStrictlyIncreasing(x: real, y: real, w: real)
    requires x < y && w > 0.0
    ensures x * w < y * w
  {
  }

  /** a/p < b/q for positive p and q follows from a*q < b*p. */
  lemma FractionsOrdered(a: real, p: real, b: real, q: real)
    requires p > 0.0 && q > 0.0 && a * q < b * p
    ensures a / p < b / q
  {
    assert a / p == (a * q) / (p * q);
    assert b / q == (b * p) / (p * q);
  }

  /**
   * Swapping target and stop-loss turns the chance into its complement; in
   * the degenerate tie both are 0.5.
   */
  lemma TechnicalChanceSwapComplements(current: real, target: real, stopLoss: real)
    ensures TechnicalChance(current, target, stopLoss) + TechnicalChance(current, stopLoss, target) == 1.0
  {
    var s, t := StopLossDistance(current, stopLoss), TargetDistance(current, target);
    assert StopLossDistance(current, target) == t;
    assert TargetDistance(current, stopLoss) == s;
    ShareComplements(s, t);
  }

  /**
   * The guarded ratio the technical chance computes from its two distances:
   * the stop-loss distance s as a share of s + t, or 0.5 for a zero sum.
   */
  function Share(s: real, t: real): real {
    if s + t == 0.0 then 0.5 else s / (s + t)
  }

  /** The technical chance is the share of the stop-loss distance. */
  lemma TechnicalChanceIsShare(current: real, target: real, stopLoss: real)
    ensures TechnicalChance(current, target, stopLoss)
            == Share(StopLossDistance(current, stopLoss), TargetDistance(current, target))
  {
  }

  /** The shares of the two distances add up to 1. */
  lemma ShareComplements(s: real, t: real)
    ensures Share(s, t) + Share(t, s) == 1.0
  {
    if s + t != 0.0 {
      assert t + s == s + t;
      AddFractions(s, t, s + t);
    }
  }

  /** Mirroring all prices (a long trade seen as a short one) leaves the chance unchanged. */
  lemma TechnicalChanceMirrorInvariant(current: real, target: real, stopLoss: real)
    ensures TechnicalChance(-current, -target, -stopLoss) == TechnicalChance(current, target, stopLoss)
  {
    assert StopLossDistance(-current, -stopLoss) == StopLossDistance(current, stopLoss);
    assert TargetDistance(-current, -target) == TargetDistance(current, target);
  }

  /** Shifting all prices by one amount leaves the chance unchanged. */
  lemma TechnicalChanceShiftInvariant(current: real, target: real, stopLoss: real, shift: real)
    ensures TechnicalChance(current + shift, target + shift, stopLoss + shift) == TechnicalChance(current, target, stopLoss)
  {
    assert StopLossDistance(current + shift, stopLoss + shift) == StopLossDistance(current, stopLoss);
    assert TargetDistance(current + shift, target + shift) == TargetDistance(current, target);
  }

  /** Scaling all prices by one positive factor leaves the chance unchanged. */
  lemma TechnicalChanceScaleInvariant(current: real, target: real, stopLoss: real, scale: real)
    requires scale > 0.0
    ensures TechnicalChance(scale * current, scale * target, scale * stopLoss) == TechnicalChance(current, target, stopLoss)
  {
    var s, t := StopLossDistance(current, stopLoss), TargetDistance(current, target);
    TechnicalChanceIsShare(current, target, stopLoss);
    TechnicalChanceIsShare(scale * current, scale * target, scale * stopLoss);
    ScaledDistances(scale, current, target, stopLoss);
    ShareScaleInvariant(scale, s, t);
  }

  /** Scaling all prices by a positive factor scales both distances by it. */
  lemma ScaledDistances(k: real, current: real, target: real, stopLoss: real)
    requires k > 0.0
    ensures StopLossDistance(k * current, k * stopLoss) == k * StopLossDistance(current, stopLoss)
    ensures TargetDistance(k * current, k * target) == k * TargetDistance(current, target)
  {
    FactorDifference(k, current, stopLoss);
    AbsScales(k, current - stopLoss);
    FactorDifference(k, target, current);
    AbsScales(k, target - current);
  }

  lemma FactorDifference(k: real, x: real, y: real)
    ensures k * x - k * y == k * (x - y)
  {
  }

  /** Scaling both distances by a positive factor keeps the tie test and the share. */
  lemma ShareScaleInvariant(k: real, s: real, t: real)
    requires k > 0.0 && s >= 0.0 && t >= 0.0
    ensures Share(k * s, k * t) == Share(s, t)
  {
    assert k * s + k * t == k * (s + t);
    AbsScales(k, s + t);
    if s + t != 0.0 {
      CancelFactor(k, s, s + t);
    }
  }

  /** A positive factor comes out of an absolute value. */
  lemma AbsScales(k: real, x: real)
    requires k > 0.0
    ensures Abs(k * x) == k * Abs(x)
    ensures k * x == 0.0 <==> x == 0.0
  {
    if x < 0.0 {
      assert k * x < 0.0 && k * -x == -(k * x);
    } else if x > 0.0 {
      assert k * x > 0.0;
    }
  }

  /** The default weights of the technical and fundamental components. */
  const DefaultTechWeight: real := 0.7
  const DefaultFundWeight: real := 0.3

  /** The technical chance blended with the fundamental score by the two weights. */
  function CompositeChance(current: real, target: real, stopLoss: real, fundamentalScore: real,
                           techWeight: real, fundWeight: real): (r: real)
    ensures (techWeight >= 0.0 && fundWeight >= 0.0 && techWeight + fundWeight == 1.0
             && 0.0 <= fundamentalScore <= 1.0) ==> 0.0 <= r <= 1.0
  {
    var technicalChance := TechnicalChance(current, target, stopLoss);
    WeightedBlendBounded(technicalChance, fundamentalScore, techWeight, fundWeight);
    techWeight * technicalChance + fundWeight * fundamentalScore
  }

  /**
   * A blend with non-negative weights summing to 1 lies between its two
   * components.
   */
  lemma WeightedBlendBounded(x: real, y: real, wx: real, wy: real)
    ensures wx >= 0.0 && wy >= 0.0 && wx + wy == 1.0 ==>
              (if x <= y then x else y) <= wx * x + wy * y <= (if x <= y then y else x)
  {
    if wx >= 0.0 && wy >= 0.0 && wx + wy == 1.0 {
      if x <= y {
        BlendBetween(x, y, wx, wy);
      } else {
        BlendBetween(y, x, wy, wx);
      }
    }
  }

  /** The blend of lo and hi with non-negative weights summing to 1 lies in [lo, hi]. */
  lemma BlendBetween(lo: real, hi: real, wl: real, wh: real)
    requires lo <= hi && wl >= 0.0 && wh >= 0.0 && wl + wh == 1.0
    ensures lo <= wl * lo + wh * hi <= hi
  {
    BlendAtLeastLow(lo, hi, wl, wh);
    BlendAtMostHigh(lo, hi, wl, wh);
  }

  lemma BlendAtLeastLow(lo: real, hi: real, wl: real, wh: real)
    requires lo <= hi && wh >= 0.0 && wl + wh == 1.0
    ensures lo <= wl * lo + wh * hi
  {
    MulMonotone(wh, lo, hi);
    WeightsSumToOne(wl, wh, lo);
  }

  lemma BlendAtMostHigh(lo: real, hi: real, wl: real, wh: real)
    requires lo <= hi && wl >= 0.0 && wl + wh == 1.0
    ensures wl * lo + wh * hi <= hi
  {
    MulMonotone(wl, lo, hi);
    WeightsSumToOne(wl, wh, hi);
  }

  lemma MulMonotone(w: real, x: real, y: real)
    requires w >= 0.0 && x <= y
    ensures w * x <= w * y
  {
  }

  lemma WeightsSumToOne(wx: real, wy: real, v: real)
    requires wx + wy == 1.0
    ensures wx * v + wy * v == v
  {
    assert wx * v + wy * v == (wx + wy) * v;
  }

  /**
   * With non-negative weights summing to 1, the composite chance lies between
   * the technical chance and the fundamental score.
   */
  lemma CompositeBetweenComponents(current: real, target: real, stopLoss: real, fundamentalScore: real,
                                   techWeight: real, fundWeight: real)
    requires techWeight >= 0.0 && fundWeight >= 0.0 && techWeight + fundWeight == 1.0
    ensures var t := TechnicalChance(current, target, stopLoss);
            var c := CompositeChance(current, target, stopLoss, fundamentalScore, techWeight, fundWeight);
            (if t <= fundamentalScore then t else fundamentalScore) <= c
            && c <= (if t <= fundamentalScore then fundamentalScore else t)
  {
    WeightedBlendBounded(TechnicalChance(current, target, stopLoss), fundamentalScore, techWeight, fundWeight);
  }

  /**
   * The signed expected value of the trade: the gain to the target weighted
   * by the chance, minus the loss to the stop-loss weighted by its complement.
   */
  function Expectancy(current: real, target: real, stopLoss: real, chance: real): (r: real)
    ensures chance == 1.0 ==> r == target - current
    ensures chance == 0.0 ==> r == stopLoss - current
  {
    chance * (target - current) - (1.0 - chance) * (current - stopLoss)
  }

  /**
   * For a chance in [0, 1] the expectancy lies between the two outcomes,
   * reaching the stop-loss (stopLoss - current) and reaching the target
   * (target - current), and it rises with the chance when the target is
   * above the stop-loss.
   */
  lemma ExpectancyBetweenOutcomes(current: real, target: real, stopLoss: real, chance: real)
    requires 0.0 <= chance <= 1.0
    ensures var e := Expectancy(current, target, stopLoss, chance);
            var loss, gain := stopLoss - current, target - current;
            (if loss <= gain then loss else gain) <= e <= (if loss <= gain then gain else loss)
  {
    assert Expectancy(current, target, stopLoss, chance)
           == chance * (target - current) + (1.0 - chance) * (stopLoss - current);
    WeightedBlendBounded(target - current, stopLoss - current, chance, 1.0 - chance);
  }

  /** With the target above the stop-loss, a higher chance gives a strictly higher expectancy. */
  lemma ExpectancyMonotoneInChance(current: real, target: real, stopLoss: real, lowChance: real, highChance: real)
    requires target > stopLoss && lowChance < highChance
    ensures Expectancy(current, target, stopLoss, lowChance) < Expectancy(current, target, stopLoss, highChance)
  {
    assert Expectancy(current, target, stopLoss, highChance) - Expectancy(current, target, stopLoss, lowChance)
           == (highChance - lowChance) * (target - stopLoss);
    assert (highChance - lowChance) * (target - stopLoss) > 0.0;
  }
}
