# Trading agents, fallback arbiter and prediction check — a Dafny model

This project models the deterministic decision logic of the Money stock-analysis backend. It has three parts.

- **The statistical ensemble** (`trading_agents/agents.py`).
  - Four strategy agents: swing, momentum, value and quant. Each reads the last value of rolling statistics over a daily price/volume table and returns a recommendation: an action of BUY, SELL or HOLD, a confidence, a risk level and an expected return.
  - A `TradingBoss` scores every recommendation with a fixed linear formula and multiplies each score by a per-agent weight.
  - The boss picks the best weighted score, ties going to the earliest agent in registration order. It appends the decision to its history.
  - Its weight table can be replaced by normalised performance figures.
- **The language-model desk** (`openai_agents.py`).
  - When there is no API key, or a remote call raises, each analyst falls back to a moving-average rule (MA20/MA50). In the same cases the boss falls back to a majority vote over the analysts' recommendations.
  - The vote averages the numbers and credits the most confident analyst.
- **The prediction check** (`companies/management/commands/fetch_data.py`).
  - For each company that has a price change, every prediction of that company made within the last seven days that has not been checked yet is labelled with the actual movement, the price change, whether it was right, and when it was checked.

Modules:

| file | module | contents |
|---|---|---|
| `wrappers.dfy` | `Wrappers` | `Option` |
| `stats.dfy` | `Stats` | sum, mean, min, max, sample standard deviation, `tail`, `min(1, x)` and Python's `max(key=...)` on exact reals |
| `market.dfy` | `Market` | the daily table, its columns, daily returns and the trailing moving average |
| `agents.dfy` | `Agents` | the four strategy agents |
| `boss.dfy` | `Boss` | the scoring, the weights and the `TradingBoss` class with its history |
| `openai_agents.dfy` | `OpenAIAgents` | the basic analysis, the analyst and boss fallbacks, and the majority vote |
| `prediction_check.dfy` | `PredictionCheck` | the verification pass over an array of predictions |

Prices are exact `real`s. The square root is a parameter `sqrt` of type `Stats.SquareRoot`: any function that is nonnegative on nonnegative arguments. The sample variance divides by `n - 1`, as pandas' default does.

Instead of NaN, each statistic gets a length precondition, so that every rolling window it reads is full:
- 5 rows for swing;
- 30 for momentum (its returns window needs 11);
- 90 for value;
- 21 for quant;
- 50 for the basic analysis.

Positive closes keep every relative change defined.

Two behaviours of the code are kept as written:
- `decide` does not skip an agent that cannot produce a recommendation. A missing weight makes it fail, which here is a precondition.
- `update_weights` replaces the whole weight table. It does not keep the weights of agents absent from the performance figures.

## Model

| member | source | states |
|---|---|---|
| Stats.Min | trading_agents/agents.py:56 | the result is at most every element and equal to one of them |
| Stats.Max | trading_agents/agents.py:57 | the result is at least every element and equal to one of them |
| Stats.Tail | trading_agents/agents.py:48 | `tail(k)` keeps the last `min(k, n)` elements, in order |
| Stats.StdDev | trading_agents/agents.py:37-38 | the sample standard deviation is nonnegative |
| Stats.Mean | trading_agents/agents.py:49 | pandas `mean`: the sum divided by the number of elements (its bounds are `Stats.MeanBounds`) |
| Stats.SampleVariance | trading_agents/agents.py:37-38 | the variance under `std` (divisor n - 1) is nonnegative |
| Stats.RelativeSign | trading_agents/agents.py:99 | a relative change `(a - b) / b` over a positive base is positive iff a > b and negative iff a < b |
| Stats.RatioAgainstOne | trading_agents/agents.py:148 | a ratio of positive numbers is positive, below 1 iff the first is smaller, above 1 iff it is larger |
| Stats.Cap | trading_agents/agents.py:39 | `min(1.0, x)` is at most 1, at most `x`, and equal to one of the two |
| Stats.ArgMax | trading_agents/agents.py:288 | `max(..., key=...)` picks a maximal key, the first one on a tie |
| Stats.MeanBounds | openai_agents.py:254-257 | a mean lies between the smallest and the largest element |
| Stats.MeanOfConstant | openai_agents.py:254-257 | the mean of equal values is that value |
| Market.Closes | trading_agents/agents.py:37 | the close column, row for row |
| Market.Lows | trading_agents/agents.py:56 | the low column, row for row |
| Market.Highs | trading_agents/agents.py:57 | the high column, row for row |
| Market.Volumes | trading_agents/agents.py:38 | the volume column, row for row |
| Market.Returns | trading_agents/agents.py:43 | `pct_change` has one entry per consecutive pair of rows |
| Market.MovingAverage | trading_agents/agents.py:97-98 | the trailing mean lies within the window's min and max, and is positive on positive closes |
| Agents.SwingSupport | trading_agents/agents.py:56-60 | support is the lowest low of the last five rows |
| Agents.SwingResistance | trading_agents/agents.py:57-61 | resistance is the highest high of the last five rows |
| Agents.SwingConfidence | trading_agents/agents.py:35-39 | the confidence lies in [0, 1] |
| Agents.SwingRisk | trading_agents/agents.py:41-44 | the risk lies in [0, 1] |
| Agents.SwingExpectedReturn | trading_agents/agents.py:46-49 | 100 times the mean of the last 14 returns, so between 100 times their smallest and 100 times their largest |
| Agents.SwingRecommend | trading_agents/agents.py:51-87 | BUY iff the close is below support; SELL iff it is at or above support and above resistance; SELL's expected return is minus BUY's; HOLD is exactly (0.5, 0.5, 0); confidence and risk lie in [0, 1] |
| Agents.SwingHoldsOnWellFormedBar | trading_agents/agents.py:56-78 | when the last bar closes within its own low/high range, the swing agent holds with (0.5, 0.5, 0) |
| Agents.MomentumConfidence | trading_agents/agents.py:95-100 | the confidence lies in [0, 1] |
| Agents.Momentum | trading_agents/agents.py:97-100 | the momentum is positive iff MA10 > MA30 and negative iff MA10 < MA30 |
| Agents.MomentumExpectedReturn | trading_agents/agents.py:108-113 | the expected return is a gain iff MA10 > MA30 and a loss iff MA10 < MA30 |
| Agents.MomentumRisk | trading_agents/agents.py:102-106 | the risk lies in [0, 1] |
| Agents.MomentumRecommend | trading_agents/agents.py:115-139 | never HOLD; BUY iff MA10 > MA30; the numbers are the agent's three statistics |
| Agents.MomentumBuysIffGain | trading_agents/agents.py:108-126 | BUY iff the expected return is positive |
| Agents.MomentumConfidenceIsGainSize | trading_agents/agents.py:95-113 | confidence = min(1, \|expected return\| / 100) |
| Agents.MomentumBuysOnRisingCloses | trading_agents/agents.py:119-126 | closes that rise on each of the last 30 days make the momentum agent buy |
| Agents.ShortAverageAboveLong | trading_agents/agents.py:119-123 | on such rising closes MA10 > MA30 |
| Agents.ValueConfidence | trading_agents/agents.py:146-149 | the confidence lies in [0, 1] |
| Agents.PriceToAverage | trading_agents/agents.py:148 | close / MA90 is positive, below 1 iff the close is below the average, above 1 iff above |
| Agents.ValueRisk | trading_agents/agents.py:151-155 | the risk lies in [0, 1] |
| Agents.ValueExpectedReturn | trading_agents/agents.py:157-161 | the expected return is a gain iff the close is below MA90 and a loss iff it is above |
| Agents.ValueRecommend | trading_agents/agents.py:163-189 | BUY iff close < 0.95·MA90; SELL iff close > 1.05·MA90; BUY ⇒ expected return > 0; SELL ⇒ < 0; HOLD ⇒ confidence ≤ 0.05 |
| Agents.ValueFacts | trading_agents/agents.py:157-176 | the sign of the expected return and the hold-band bound on the price/average gap |
| Agents.QuantVolatility | trading_agents/agents.py:203-207 | the 20-return volatility is nonnegative |
| Agents.QuantMomentum | trading_agents/agents.py:209-213 | the mean of the last 20 returns lies between their smallest and largest |
| Agents.QuantRecommend | trading_agents/agents.py:197-242 | trades only when volatility < 0.02, in the sign of the mean return (zero mean holds); any trade has risk < 0.2; expected return = 100·mean; confidence ≥ 0 iff volatility ≤ 1 |
| Agents.Agent.MinLength | trading_agents/agents.py:141-144 | every agent's window fits in 90 rows |
| Agents.Agent.Recommend | trading_agents/agents.py:35-242 | every agent's confidence and risk are at most 1, and its risk is nonnegative |
| Boss.Score | trading_agents/agents.py:260-268 | with confidence and risk in [0, 1], the score lies between 0.004·expected return and that plus 0.6 |
| Boss.WeightedScore | trading_agents/agents.py:282-285 | a positive weight keeps the sign of the score, both ways |
| Boss.ScoreMonotone | trading_agents/agents.py:260-268 | the score never falls when confidence or expected return rises or risk falls, and is strictly higher unless all three are equal |
| Boss.ScoreUnbounded | trading_agents/agents.py:260-268 | the score is not clamped: the expected return drives it past any bound in both directions |
| Boss.Bind | trading_agents/agents.py:244-251 | the boss's agent table in registration order, each entry recommending what its agent does |
| Boss.Ranking | trading_agents/agents.py:282-285 | one weighted score per agent, in registration order |
| Boss.Outputs | trading_agents/agents.py:276-279 | one recommendation per agent, in registration order |
| Boss.RegistryNames | trading_agents/agents.py:244-258 | the four names are distinct, and each has an initial weight |
| Boss.BoundRegistry | trading_agents/agents.py:244-258 | on 90 rows with positive closes the boss's table can serve `decide` |
| Boss.NameSetStep | trading_agents/agents.py:276-279 | adding one agent's entry adds its name to the keys |
| Boss.Normalized | trading_agents/agents.py:309-312 | the new table's keys are exactly the agents in the figures |
| Boss.NormalizedAt | trading_agents/agents.py:311-312 | each agent's new weight is its figure divided by the total |
| Boss.NormalizedSumsToOne | trading_agents/agents.py:305-312 | with a positive total the new weights sum to one |
| Boss.NormalizedCoversIff | trading_agents/agents.py:283-312 | after a replacement, `decide` finds a weight for every agent iff every agent was in the figures |
| Boss.PerformanceOfAt | trading_agents/agents.py:311-312 | the figure looked up for an agent is the one listed for it |
| Boss.TotalPerformance | trading_agents/agents.py:307-308 | the total is not positive when no figure is, so such figures leave the table unchanged |
| Boss.TradingBoss.constructor | trading_agents/agents.py:244-258 | four registered agents, each weighted 0.25, and an empty history; the boss is `Valid`: distinct registered names, and every agent defined on 90 rows with positive closes, with confidence at most 1 and risk in [0, 1] there |
| Boss.TradingBoss.Evaluate | trading_agents/agents.py:276-279 | exactly one recommendation and one score per agent name |
| Boss.TradingBoss.Rank | trading_agents/agents.py:282-285 | the weighted scores, listed in registration order |
| Boss.TradingBoss.Decide | trading_agents/agents.py:270-303 | on any valid boss whose weights cover its agents and any 90 rows with positive closes: one recommendation per agent; the chosen agent is a registered name, the first with the maximal weighted score; the decision's confidence is at most 1 and its risk lies in [0, 1]; the decision copies its recommendation; the history grows by exactly this decision |
| Boss.TradingBoss.UpdateWeights | trading_agents/agents.py:305-312 | a total ≤ 0 changes nothing; otherwise the table becomes exactly the figures' agents with shares summing to one |
| OpenAIAgents.BasicRisk | openai_agents.py:25-46 | the risk lies in [0, 1] and is min(10·vol20, 1) |
| OpenAIAgents.BasicExpectedReturn | openai_agents.py:49-50 | 100·(close[-1] - close[-5]) / close[-5] (its sign is `OpenAIAgents.BasicTrend`) |
| OpenAIAgents.BasicRule | openai_agents.py:35-43 | BUY iff the close is above both averages; SELL iff it is below both; confidence 0.7 for a trade and 0.5 for HOLD |
| OpenAIAgents.BasicAnalyze | openai_agents.py:19-58 | the rule is applied to the last close, MA20 and MA50; its risk and expected return are the ones defined above |
| OpenAIAgents.BasicTrend | openai_agents.py:49-50 | the expected return is positive (negative) iff the last close is above (below) `close[-5]` |
| OpenAIAgents.AgentAnalyze | openai_agents.py:67-117 | the basic analysis when there is no key or the call raises; the remote reply otherwise |
| OpenAIAgents.HasKey | openai_agents.py:70 | a key is configured when it is present and not the empty string, the truth of `openai.api_key` |
| OpenAIAgents.Count | openai_agents.py:244-245 | a vote count never exceeds the number of recommendations |
| OpenAIAgents.VoteCounts | openai_agents.py:239 | the vote table has one count per action BUY, SELL and HOLD |
| OpenAIAgents.MajorityIndex | openai_agents.py:251 | the winning action has a maximal count, and BUY, SELL, HOLD order breaks ties |
| OpenAIAgents.MostConfident | openai_agents.py:260 | the chosen recommendation has the greatest confidence, the first one on a tie |
| OpenAIAgents.BasicDecision | openai_agents.py:236-270 | the final action is a counted vote, and all recommendations are returned unchanged |
| OpenAIAgents.DecisionAverages | openai_agents.py:244-257 | confidence, risk and expected return are the means of the inputs, each within the inputs' min and max |
| OpenAIAgents.DecisionChoices | openai_agents.py:251-260 | the chosen agent is the most confident (first on ties); the action has the maximal count (earliest on ties) |
| OpenAIAgents.CountsSumToLength | openai_agents.py:239-248 | the three vote counts sum to the number of recommendations |
| OpenAIAgents.CountsOfTwo | openai_agents.py:244-245 | any two different actions together receive at most one vote per recommendation |
| OpenAIAgents.MajorityWins | openai_agents.py:239-251 | an action backed by more than half of the recommendations is the final action |
| OpenAIAgents.CountUnanimous | openai_agents.py:244-245 | when all agree, their action gets every vote and the others none |
| OpenAIAgents.FirstOfEqualConfidence | openai_agents.py:260 | among equally confident analysts the first one is chosen |
| OpenAIAgents.UnanimousDecision | openai_agents.py:236-270 | identical recommendations give a verdict with that action and those numbers, credited to the first analyst |
| OpenAIAgents.Tally | openai_agents.py:239-248 | the loop's counts are the vote counts and its totals are the sums of the three fields |
| OpenAIAgents.MakeBasicDecision | openai_agents.py:236-270 | the loop-based decision equals the majority-vote verdict |
| OpenAIAgents.Consult | openai_agents.py:181-185 | one answer per analyst, in order, under the analyst's name |
| OpenAIAgents.Decide | openai_agents.py:179-234 | with a key and a returned reply, the remote verdict; otherwise the majority vote over the four answers; without a key, the basic analysis credited to the Technical Analyst |
| PredictionCheck.Verify | companies/management/commands/fetch_data.py:52-59 | UP iff change > 0, otherwise DOWN; correct iff (UP and change > 0) or (DOWN and change < 0); records the change and the check time; nothing else changes |
| PredictionCheck.NeverCorrect | companies/management/commands/fetch_data.py:55-58 | a NEUTRAL call, or any call at zero change, is marked incorrect |
| PredictionCheck.Pending | companies/management/commands/fetch_data.py:45-49 | the query: that company, a prediction date no earlier than a week before `now`, no actual movement yet |
| PredictionCheck.SettleChecksDue | companies/management/commands/fetch_data.py:41-60 | visiting the companies checks exactly the due predictions, once each, against their own company's change |
| PredictionCheck.UpdatePredictions | companies/management/commands/fetch_data.py:41-60 | a prediction is checked iff its company has a change and it was made within seven days of `now` and was unchecked; every other prediction is untouched |

## Left out

- The remote model calls are left out: prompts, JSON parsing of replies, reasoning strings and `_prepare_data_summary`. Each call is a `Reply` parameter that either returns a value or raises. A returned value is taken as already parsed into an `Analysis` or a `FinalDecision`.
- Any reply text other than BUY, SELL or HOLD is `Action.Other`. When the boss falls back, the vote-table lookup would fail on such text, so `OpenAIAgents.Decide` requires counted votes then.
- OpenAIAgents.Decide takes the basic analysis of the table as a value, `fallback` (intended to be `BasicAnalyze(sqrt, s)`), instead of computing it from the table itself.
- Floating point and NaN: prices are exact reals and every window is required to be full. The square root is abstract, with only its nonnegativity used.
- Timestamps are left out: the `timestamp` and `datetime.now()` fields of recommendations and decisions. The prediction check uses one instant `now`, a parameter, for both the seven-day filter and `verified_at`.
- The prediction check does not model the key lookup `stock_data[ticker]` failing for a company without price data: it requires every visited company to have an entry (possibly `None`).
- Database persistence is left out: `save()`, the ORM query machinery (its filter is `PredictionCheck.Pending`), and the fields `news_article`, `confidence_score` and `days_to_verify`, which the prediction check does not read.
- The news and stock fetching of `fetch_data.py` (lines 16-38) and its HTTP clients are not part of this model.
- Console output is left out: the `print` calls in the `except` blocks (openai_agents.py:116, 233) and the progress messages of `fetch_data.py`.
- The unused `past_recommendations`/`past_performance` lists of `BaseAgent` are left out.
- `trading_agents.py` (fixed HOLD placeholders), `main.py`, and the views, serializers and admin modules are not part of this model.
- Boss.TradingBoss: each entry of the agent table is a function value (`Recommender`) that `Boss.Bind` ties to `Agents.Agent.Recommend`. The decision never reads the agent objects' names.
- Boss.TradingBoss.Decide: gives no lower bound on the decision's confidence, because the quant agent's confidence can be negative (next line).
- Agents.QuantRecommend: its confidence `min(1, 1 - volatility)` is negative when the volatility exceeds 1. This is stated as an if-and-only-if, not ruled out.
