/**
 * The decision engine (`final_decision`): two thresholds turn the composite
 * chance and the expectancy into Buy, Sell or Hold.
 */
module Decision {
  import opened Recommendations
  import Probability

  /** The default thresholds. */
  const DefaultChanceThreshold: real := 0.55
  const DefaultExpectancyThreshold: real := 0.0

  /**
   * Buy needs a strong chance and an expectancy strictly above its threshold;
   * Sell needs a weak chance and an expectancy strictly below it; every other
   * combination holds.
   */
  function FinalDecision(compositeChance: real, expectancy: real,
                         chanceThreshold: real, expectancyThreshold: real): (r: Recommendation)
    ensures r == Buy <==> compositeChance >= chanceThreshold && expectancy > expectancyThreshold
    ensures r == Sell <==> compositeChance < chanceThreshold && expectancy < expectancyThreshold
    ensures r == Hold <==> (compositeChance >= chanceThreshold && expectancy <= expectancyThreshold)
                           || (compositeChance < chanceThreshold && expectancy >= expectancyThreshold)
  {
    if compositeChance >= chanceThreshold && expectancy > expectancyThreshold then
      Buy
    else if compositeChance < chanceThreshold && expectancy < expectancyThreshold then
      Sell
    else
      Hold
  }

  /**
   * A strong chance with a losing expectancy holds rather than sells, and so
   * does any chance when the expectancy sits exactly on its threshold.
   */
  lemma HoldOnMixedSignals(compositeChance: real, expectancy: real,
                           chanceThreshold: real, expectancyThreshold: real)
    ensures compositeChance >= chanceThreshold && expectancy < expectancyThreshold ==>
              FinalDecision(compositeChance, expectancy, chanceThreshold, expectancyThreshold) == Hold
    ensures expectancy == expectancyThreshold ==>
              FinalDecision(compositeChance, expectancy, chanceThreshold, expectancyThreshold) == Hold
  {
  }

  /**
   * Raising the chance and the expectancy never turns a Buy into something
   * else; lowering both never turns a Sell into something else.
   */
  lemma DecisionMonotone(chance: real, expectancy: real, chance': real, expectancy': real,
                         chanceThreshold: real, expectancyThreshold: real)
    requires chance <= chance' && expectancy <= expectancy'
    ensures FinalDecision(chance, expectancy, chanceThreshold, expectancyThreshold) == Buy ==>
              FinalDecision(chance', expectancy', chanceThreshold, expectancyThreshold) == Buy
    ensures FinalDecision(chance', expectancy', chanceThreshold, expectancyThreshold) == Sell ==>
              FinalDecision(chance, expectancy, chanceThreshold, expectancyThreshold) == Sell
  {
  }

  /** The boundary cases at the default thresholds. */
  lemma DefaultThresholdBoundaries()
    ensures FinalDecision(0.55, 0.0001, DefaultChanceThreshold, DefaultExpectancyThreshold) == Buy
    ensures FinalDecision(0.55, 0.0, DefaultChanceThreshold, DefaultExpectancyThreshold) == Hold
    ensures FinalDecision(0.54, -0.0001, DefaultChanceThreshold, DefaultExpectancyThreshold) == Sell
    ensures FinalDecision(0.54, 0.0001, DefaultChanceThreshold, DefaultExpectancyThreshold) == Hold
  {
  }

  /**
   * With the default weights and the neutral fundamental score, the composite
   * chance reaches the default chance threshold exactly when the technical
   * chance is at least 4/7.
   */
  lemma NeutralFundamentalsChanceBar(current: real, target: real, stopLoss: real)
    ensures Probability.CompositeChance(current, target, stopLoss, 0.5,
                                        Probability.DefaultTechWeight, Probability.DefaultFundWeight)
              >= DefaultChanceThreshold
            <==> Probability.TechnicalChance(current, target, stopLoss) >= 4.0 / 7.0
  {
  }
}
