# InvestingChecker decision engine in Dafny

This project models the decision engine of `InvestingChecker.py`, a script that
gives one stock a trade recommendation ("Buy", "Sell" or "Hold"). The engine has
six parts:

- the **fundamental scorer**: the arithmetic of `get_fundamental_score` applied
  to the income statements the provider returned;
- the **technical chance**: a ratio built from the distances to the stop-loss and
  to the target;
- the **composite chance**: a weighted blend of the technical chance and the
  fundamental score;
- the **expectancy**: a signed expected value;
- the **final decision**: two thresholds applied to the composite chance and the
  expectancy;
- the **technical recommendation**: a rule cascade over market cap, the moving
  averages and the position in the day's range.

Prices and amounts are exact `real`s. Python floats are not modelled.

Modules, one per component:

- `Wrappers` (`wrappers.dfy`): `Option`.
- `Fundamentals` (`fundamentals.dfy`): income statements and the fundamental score.
  A failed fetch is `None`. A field missing from the payload is a `None` field.
- `Probability` (`probability.dfy`): the technical chance, the composite chance and
  the expectancy. Python's default weights 0.7/0.3 are the constants
  `DefaultTechWeight`/`DefaultFundWeight`, passed explicitly.
- `Recommendations` (`recommendations.dfy`): the three labels, as a datatype. `Label()`
  gives the string the program returns.
- `Decision` (`decision.dfy`): `final_decision`. The default thresholds 0.55 and 0 are
  constants, passed explicitly.
- `Signals` (`signals.dfy`): `evaluate_stock_for_trade`. It is an imperative method with
  the source's sequence of overwriting assignments. It is proved equal to
  `TechnicalRecommendation`, a declarative statement of the rules' precedence.

Where the source and its own doc-comment disagree, the model follows the code.
The doc-comment of `final_decision` says a weak chance *or* a negative
expectancy gives "Sell". The code requires both (`and`). `FinalDecision`
models the `and`. `Decision.HoldOnMixedSignals` states the consequence: a strong
chance with a losing expectancy gives "Hold".

## Model

| member | source | states |
|---|---|---|
| `Fundamentals.Clamp01` | InvestingChecker.py:60-62 | the clamp lies in [0,1], sends every value ≤ 0 to 0 and every value ≥ 1 to 1, and keeps values in between |
| `Fundamentals.PairScore` | InvestingChecker.py:45-65 | the score of a pair of statements always lies in [0,1] |
| `Fundamentals.FundamentalScore` | InvestingChecker.py:42-72 | the score lies in [0,1]; it is exactly 0.5 in each of these cases: the fetch failed, fewer than two statements, latest revenue missing or 0, previous revenue missing or 0, latest net income missing |
| `Fundamentals.ScoredIsMeanOfClampedMetrics` | InvestingChecker.py:54-65 | when the data is scorable, the score is the mean of the clamped profit margin (net income / latest revenue) and the clamped revenue growth ((latest − previous) / previous) |
| `Fundamentals.OnlyTwoLatestStatementsMatter` | InvestingChecker.py:42-46 | statements after the two most recent ones do not affect the score |
| `Fundamentals.ScoreExtremes` | InvestingChecker.py:60-65 | a scorable company scores 1 iff margin and growth are both ≥ 100%, and scores 0 iff neither is positive |
| `Fundamentals.ScoreMonotoneInNetIncome` | InvestingChecker.py:55-65 | with a fixed positive revenue, higher net income never lowers the score |
| `Probability.TechnicalChance` | InvestingChecker.py:78-82 | the chance lies in [0,1]; it is 0.5 when current, target and stop-loss are all equal; otherwise the distance sum is positive and the chance is stop distance / (stop distance + target distance) |
| `Probability.TechnicalChanceExtremes` | InvestingChecker.py:78-82 | the chance is 1 iff target = current ≠ stop-loss, and 0 iff stop-loss = current ≠ target |
| `Probability.TechnicalChanceMonotoneInStopDistance` | InvestingChecker.py:78-82 | with the target distance fixed and non-zero, a farther stop-loss gives a strictly higher chance |
| `Probability.TechnicalChanceSwapComplements` | InvestingChecker.py:78-82 | swapping target and stop-loss gives the complementary chance; the two always sum to 1 |
| `Probability.TechnicalChanceMirrorInvariant` | InvestingChecker.py:78-79 | negating all three prices leaves the chance unchanged, so it does not depend on whether the trade is long or short |
| `Probability.TechnicalChanceShiftInvariant` | InvestingChecker.py:78-79 | shifting all three prices by one amount leaves the chance unchanged |
| `Probability.TechnicalChanceScaleInvariant` | InvestingChecker.py:78-82 | scaling all three prices by one positive factor leaves the chance unchanged |
| `Probability.CompositeChance` | InvestingChecker.py:84-92 | with non-negative weights that sum to 1 and a fundamental score in [0,1], the composite chance lies in [0,1] |
| `Probability.CompositeBetweenComponents` | InvestingChecker.py:90-91 | with non-negative weights that sum to 1, the composite chance lies between the technical chance and the fundamental score |
| `Probability.Expectancy` | InvestingChecker.py:94-100 | with chance 1 the expectancy is target − current; with chance 0 it is stop-loss − current |
| `Probability.ExpectancyBetweenOutcomes` | InvestingChecker.py:100 | for a chance in [0,1], the expectancy lies between the stop-loss outcome and the target outcome |
| `Probability.ExpectancyMonotoneInChance` | InvestingChecker.py:100 | with the target above the stop-loss, a higher chance gives a strictly higher expectancy |
| `Decision.FinalDecision` | InvestingChecker.py:102-119 | Buy iff chance ≥ threshold and expectancy > its threshold; Sell iff chance < threshold and expectancy < its threshold; Hold iff neither holds |
| `Decision.HoldOnMixedSignals` | InvestingChecker.py:114-119 | a strong chance with expectancy below its threshold gives Hold, not Sell; an expectancy exactly at its threshold always gives Hold |
| `Decision.DecisionMonotone` | InvestingChecker.py:114-119 | raising both chance and expectancy keeps a Buy a Buy; lowering both keeps a Sell a Sell |
| `Decision.DefaultThresholdBoundaries` | InvestingChecker.py:102-119 | at the default thresholds: (0.55, 0.0001) gives Buy, (0.55, 0) gives Hold, (0.54, −0.0001) gives Sell, (0.54, 0.0001) gives Hold |
| `Decision.NeutralFundamentalsChanceBar` | InvestingChecker.py:84-114 | with default weights and the neutral score 0.5, the composite chance reaches the default chance threshold 0.55 iff the technical chance is at least 4/7 |
| `Signals.DayRangePosition` | InvestingChecker.py:147-150 | the position is 0.5 when day high equals day low; otherwise position × (high − low) = current − low |
| `Signals.DayRangePositionInUnitInterval` | InvestingChecker.py:147-150 | for a price inside a proper day range, the position lies in [0,1] |
| `Signals.EvaluateStockForTrade` | InvestingChecker.py:121-158 | the rule cascade returns exactly the label given by the declarative precedence of the rules |
| `Signals.RangeRulesWin` | InvestingChecker.py:146-156 | a position below 0.3 gives Buy, and a position above 0.7 gives Sell, whatever the market-cap and moving-average rules set; Buy occurs only near the day's low |
| `Signals.MiddleOfRangeFollowsTrend` | InvestingChecker.py:126-156 | for a position in [0.3, 0.7], the result is Sell iff market cap < 1e9, current ≤ avg50, or current ≤ avg200; otherwise it is Hold |
| `Signals.TechnicalRecommendationExamples` | InvestingChecker.py:121-158 | worked cases: a bullish stock in mid-range gives Hold; a price at the day's high gives Sell; a small-cap stock in mid-range gives Sell |

## Left out

- `get_current_price` (InvestingChecker.py:3-25) is not modelled: it is network I/O through `requests`.
- The HTTP and JSON part of `get_fundamental_score` (lines 37-41) is not modelled either. Its outcome is an input, `Option<seq<IncomeStatement>>`.
- The `except Exception` fallbacks are not modelled as exceptions. A failed fetch or a malformed payload is the `None` input, and the score is then 0.5.
- `main` (lines 160-208) is not modelled: console prompts, `float()` parsing of user input, formatted printing and the wiring of the calls.
- The `print` diagnostics inside the core functions are not modelled. They are logging only and are not part of any return value.
- Float rounding is not modelled: all quantities are exact reals.
- A missing (`None`) market cap is not modelled: Python raises on the comparison at line 129. Market cap and the other quote fields are required real inputs.
- Python truthiness of non-numeric JSON values (strings, lists) in a revenue field is not modelled. A field is either a number or absent.
