/**
 * The technical signal evaluator (`evaluate_stock_for_trade`): a label that
 * starts at Hold and is overwritten, in a fixed order, by the market-cap rule,
 * the 50-day and 200-day moving-average rules and last the day-range rule.
 */
module Signals {
  import opened Recommendations

  /** Below this market capitalisation the stock counts as small-cap. */
  const SmallCapLimit: real := 1000000000.0
  /** A day-range position below this is near the day's low. */
  const NearLowRatio: real := 0.3
  /** A day-range position above this is near the day's high. */
  const NearHighRatio: real := 0.7

  /**
   * Where the current price sits in the day's range, 0 at the low and 1 at the
   * high; a single-price day (high equal to low) is placed in the middle.
   */
  function DayRangePosition(current: real, dayHigh: real, dayLow: real): (r: real)
    ensures dayHigh == dayLow ==> r == 0.5
    ensures dayHigh != dayLow ==> r * (dayHigh - dayLow) == current - dayLow
  {
    if dayHigh - dayLow != 0.0 then (current - dayLow) / (dayHigh - dayLow) else 0.5
  }

  /** For a price inside a proper range the position lies in [0, 1]. */
  lemma DayRangePositionInUnitInterval(current: real, dayHigh: real, dayLow: real)
    requires dayLow < dayHigh && dayLow <= current <= dayHigh
    ensures 0.0 <= DayRangePosition(current, dayHigh, dayLow) <= 1.0
  {
    FractionInUnitInterval(current - dayLow, dayHigh - dayLow);
  }

  /** n/d lies in [0, 1] when 0 <= n <= d and d is positive. */
  lemma FractionInUnitInterval(n: real, d: real)
    requires 0.0 <= n <= d && d > 0.0
    ensures 0.0 <= n / d <= 1.0
  {
  }

  /** Whether any of the market-cap and moving-average rules signals Sell. */
  predicate Bearish(current: real, marketCap: real, priceAvg50: real, priceAvg200: real) {
    marketCap < SmallCapLimit || current <= priceAvg50 || current <= priceAvg200
  }

  /**
   * The recommendation as a precedence of rules: a position near the day's
   * low buys and one near the high sells, whatever the other rules say; in
   * the middle of the range any bearish rule sells, and otherwise the default
   * Hold stands.
   */
  function TechnicalRecommendation(current: real, marketCap: real, dayHigh: real, dayLow: real,
                                   priceAvg50: real, priceAvg200: real): Recommendation
  {
    var position := DayRangePosition(current, dayHigh, dayLow);
    if position < NearLowRatio then Buy
    else if position > NearHighRatio then Sell
    else if Bearish(current, marketCap, priceAvg50, priceAvg200) then Sell
    else Hold
  }

  /**
   * The rule cascade, step by step: each rule that fires overwrites the label
   * left by the rules before it.
   */
  method EvaluateStockForTrade(current: real, marketCap: real, dayHigh: real, dayLow: real,
                               priceAvg50: real, priceAvg200: real)
    returns (recommendation: Recommendation)
    ensures recommendation == TechnicalRecommendation(current, marketCap, dayHigh, dayLow, priceAvg50, priceAvg200)
  {
    recommendation := Hold;

    // Market-cap rule.
    if marketCap < SmallCapLimit {
      recommendation := Sell;
    }

    // Moving-average rules: a price above the average only reports a bullish signal.
    if !(current > priceAvg50) {
      recommendation := Sell;
    }
    if !(current > priceAvg200) {
      recommendation := Sell;
    }

    // Day-range rule.
    var position: real;
    if dayHigh - dayLow != 0.0 {
      position := (current - dayLow) / (dayHigh - dayLow);
    } else {
      position := 0.5;
    }
    if position < NearLowRatio {
      recommendation := Buy;
    } else if position > NearHighRatio {
      recommendation := Sell;
    }
  }

  /**
   * The day-range rule has the last word: near the low the result is Buy and
   * near the high it is Sell, whatever market cap and moving averages say.
   */
  lemma RangeRulesWin(current: real, marketCap: real, dayHigh: real, dayLow: real,
                      priceAvg50: real, priceAvg200: real)
    ensures var position := DayRangePosition(current, dayHigh, dayLow);
            var r := TechnicalRecommendation(current, marketCap, dayHigh, dayLow, priceAvg50, priceAvg200);
            && (position < NearLowRatio ==> r == Buy)
            && (position > NearHighRatio ==> r == Sell)
            && (r == Buy <==> position < NearLowRatio)
  {
  }

  /**
   * In the middle of the day's range the result is Sell exactly when the
   * stock is small-cap or the price is not above one of the two averages, and
   * Hold otherwise.
   */
  lemma MiddleOfRangeFollowsTrend(current: real, marketCap: real, dayHigh: real, dayLow: real,
                                  priceAvg50: real, priceAvg200: real)
    requires NearLowRatio <= DayRangePosition(current, dayHigh, dayLow) <= NearHighRatio
    ensures var r := TechnicalRecommendation(current, marketCap, dayHigh, dayLow, priceAvg50, priceAvg200);
            && (r == Sell <==> marketCap < SmallCapLimit || current <= priceAvg50 || current <= priceAvg200)
            && (r == Hold <==> marketCap >= SmallCapLimit && current > priceAvg50 && current > priceAvg200)
  {
  }

  /** Worked cases: a bullish mid-range stock, a price at the day's high, and a small-cap mid-range stock. */
  lemma TechnicalRecommendationExamples()
    ensures TechnicalRecommendation(100.0, 5000000000.0, 110.0, 90.0, 95.0, 90.0) == Hold
    ensures TechnicalRecommendation(100.0, 5000000000.0, 102.0, 98.0, 95.0, 90.0) == Hold
    ensures TechnicalRecommendation(100.0, 5000000000.0, 100.0, 99.0, 95.0, 90.0) == Sell
    ensures TechnicalRecommendation(100.0, 500000000.0, 110.0, 90.0, 95.0, 90.0) == Sell
  {
  }
}
