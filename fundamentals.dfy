/**
 * The fundamental scorer: the arithmetic of `get_fundamental_score` once the
 * HTTP request is taken away. Its input is what the income-statement fetch
 * produced: `None` when the request or the JSON decoding failed, otherwise the
 * statements latest first, each with the fields the payload may or may not carry.
 */
module Fundamentals {
  import opened Wrappers

  /** One period's income statement; a field missing from the payload is `None`. */
  datatype IncomeStatement = IncomeStatement(revenue: Option<real>, netIncome: Option<real>)

  /** The score used whenever the data cannot support a computed one. */
  const NeutralScore: real := 0.5

  /** `max(0, min(1, x))`: the unit-interval clamp applied to growth and margin. */
  function Clamp01(x: real): (r: real)
    ensures 0.0 <= r <= 1.0
    ensures x <= 0.0 ==> r == 0.0
    ensures x >= 1.0 ==> r == 1.0
    ensures 0.0 <= x <= 1.0 ==> r == x
  {
    var capped := if x < 1.0 then x else 1.0;
    if capped > 0.0 then capped else 0.0
  }

  /** Python truthiness of an optional number: present and non-zero. */
  predicate Truthy(v: Option<real>) {
    v.Some? && v.value != 0.0
  }

  /** Growth of revenue from the previous period to the latest one, as a fraction. */
  function RevenueGrowth(revenueLatest: real, revenuePrevious: real): real
    requires revenuePrevious != 0.0
  {
    (revenueLatest - revenuePrevious) / revenuePrevious
  }

  /** Net income as a fraction of revenue; a zero revenue gives a zero margin. */
  function ProfitMargin(netIncome: real, revenue: real): real {
    if revenue != 0.0 then netIncome / revenue else 0.0
  }

  /**
   * Whether the fetched data supports a computed score: the fetch succeeded,
   * it returned at least two statements, both revenues are present and
   * non-zero, and the latest net income is present (zero is allowed).
   */
  predicate Scorable(fetched: Option<seq<IncomeStatement>>) {
    && fetched.Some?
    && |fetched.value| >= 2
    && Truthy(fetched.value[0].revenue)
    && Truthy(fetched.value[1].revenue)
    && fetched.value[0].netIncome.Some?
  }

  /** The score of the two most recent statements, latest first. */
  function PairScore(latest: IncomeStatement, previous: IncomeStatement): (r: real)
    ensures 0.0 <= r <= 1.0
  {
    if !Truthy(latest.revenue) || !Truthy(previous.revenue) || previous.revenue.value == 0.0
       || latest.netIncome.None?
    then
      NeutralScore
    else
      var revenueLatest := latest.revenue.value;
      var revenuePrevious := previous.revenue.value;
      var growth := RevenueGrowth(revenueLatest, revenuePrevious);
      var margin := ProfitMargin(latest.netIncome.value, revenueLatest);
      (Clamp01(margin) + Clamp01(growth)) / 2.0
  }

  /**
   * The fundamental score of a fetch result. Every way the data can fall
   * short gives exactly the neutral score; the result is always in [0, 1].
   */
  function FundamentalScore(fetched: Option<seq<IncomeStatement>>): (r: real)
    ensures 0.0 <= r <= 1.0
    ensures fetched.None? ==> r == NeutralScore
    ensures fetched.Some? && |fetched.value| < 2 ==> r == NeutralScore
    ensures fetched.Some? && |fetched.value| >= 2 && !Truthy(fetched.value[0].revenue) ==> r == NeutralScore
    ensures fetched.Some? && |fetched.value| >= 2 && !Truthy(fetched.value[1].revenue) ==> r == NeutralScore
    ensures fetched.Some? && |fetched.value| >= 2 && fetched.value[0].netIncome.None? ==> r == NeutralScore
  {
    match fetched
    case None => NeutralScore
    case Some(data) =>
      if |data| < 2 then NeutralScore else PairScore(data[0], data[1])
  }

  /**
   * When the data is scorable the score is the mean of the clamped profit
   * margin and the clamped revenue growth.
   */
  lemma ScoredIsMeanOfClampedMetrics(fetched: Option<seq<IncomeStatement>>)
    requires Scorable(fetched)
    ensures var latest, previous := fetched.value[0], fetched.value[1];
            FundamentalScore(fetched)
            == (Clamp01(ProfitMargin(latest.netIncome.value, latest.revenue.value))
                + Clamp01(RevenueGrowth(latest.revenue.value, previous.revenue.value))) / 2.0
  {
  }

  /** Statements beyond the two most recent ones never influence the score. */
  lemma OnlyTwoLatestStatementsMatter(data: seq<IncomeStatement>)
    requires |data| >= 2
    ensures FundamentalScore(Some(data)) == FundamentalScore(Some(data[..2]))
  {
  }

  /**
   * A scorable company reaches the top score exactly when both its margin and
   * its growth are at least 100%, and the bottom score exactly when neither is
   * positive: magnitude beyond the unit range is discarded.
   */
  lemma ScoreExtremes(fetched: Option<seq<IncomeStatement>>)
    requires Scorable(fetched)
    ensures var latest, previous := fetched.value[0], fetched.value[1];
            var margin := ProfitMargin(latest.netIncome.value, latest.revenue.value);
            var growth := RevenueGrowth(latest.revenue.value, previous.revenue.value);
            && (FundamentalScore(fetched) == 1.0 <==> margin >= 1.0 && growth >= 1.0)
            && (FundamentalScore(fetched) == 0.0 <==> margin <= 0.0 && growth <= 0.0)
  {
    ScoredIsMeanOfClampedMetrics(fetched);
  }

  /** With revenue held fixed and positive, more net income never lowers the score. */
  lemma ScoreMonotoneInNetIncome(revenue: real, lowIncome: real, highIncome: real, previous: IncomeStatement)
    requires revenue > 0.0 && lowIncome <= highIncome
    ensures PairScore(IncomeStatement(Some(revenue), Some(lowIncome)), previous)
            <= PairScore(IncomeStatement(Some(revenue), Some(highIncome)), previous)
  {
    assert lowIncome / revenue <= highIncome / revenue;
  }
}
