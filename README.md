# Crypto analyzer rules and workout load rules, verified in Dafny

This project models the decision logic of two applications and proves properties of the model.

The first is a crypto and stock analyzer, modelled in five modules:

- **`Indicators`** (`real_data_collector.py`): the indicator math.
  - RSI, EMA, ATR, the volume-trend classifier and the support-based invalidation level.
  - The long (about one year) and short (about one month) indicator dictionaries, as records of optional fields.
  - The watchlist price-alert check.
- **`TrendFusion`** (`advanced_ai_analyzer.py`): the analyzer.
  - Integer trend scores and their 60/40 label fusion.
  - Confidence, the volatility band, the price projection, pattern tags and risk/reward.
  - The per-asset analysis record, and the single-horizon variants the analyzer still carries.
- **`DecisionEngine`** (`decision_engine.py`): the recommendation engine.
  - The ordered guard cascade from one analysis to an action, reason, risk, confidence, target, stop and colour.
  - Position sizing, the portfolio summary and its two classifiers.
  - The engine object with its two setters.
- **`Positions`** (`position_manager.py`): the position store.
  - A class holding a dictionary from symbol to position records, changed in place by add, refresh, close and delete.
  - The signal classifier, its interpretation table and the summary.
- **`Workout`** (`script.js`): the load rules of the workout tracker.
  - Performance and fatigue analysis, and the weight recommendation cascade with rounding to 0.5 kg.
  - Deload detection.
  - The bounded ten-entry progress history.
  - The A/B routine tables.
  - A `Trainer` class for the stored data that `saveExerciseData`, `completeWorkout` and `checkDeloadNeed` change or read.

Three helper modules support them:

- `Wrappers`: `Option`, and Python truthiness of an optional number.
- `SeqMath`: sums, means, extremes, Python tail slices and an insertion sort.
- `Text`: ASCII case mapping and substring search.

## Conventions

- **Numbers:** floating-point values are `real`, and `round(x, n)` is the identity.
- **Square root and standard deviation:** `** 0.5`, `Math.sqrt` and `statistics.stdev` are abstract. They are the two fields of `SeqMath.Roots`, which callers pass in. The model uses only the fact that their results are non-negative.
- **Dictionaries with optional keys:** they become records of `Option` fields. The defaults that consumers read for a missing key are written once, as member functions of those records (`LongSet`, `ShortSet`, `AssetAnalysis`).
- **Caught exceptions:** a `try` block whose only failure is a division by zero becomes an explicit branch that returns the handler's value. This covers ATR, the volume trend, the invalidation level, the indicator builders, the analyzer's fallback record and the engine's error record.
- **Divisions the source leaves uncaught:** each becomes a `requires`.
  - In the Python files such a division raises `ZeroDivisionError`. For example, the signal classifier needs a non-zero entry price.
  - In `script.js` a division by zero raises nothing. It yields `Infinity` or `NaN`, and the script carries on with that value. Reals cannot hold those values, so the completion ratio's non-zero target is a `requires` too.

Where the source's comments and its code disagree, the model follows the code. The lemmas state these cases outright:

- **Unreachable signals.** For a positive entry, TAKE_PROFIT and HOLDING cannot be reached (`Positions.TradingSignalThreeValued`). An entry of 100 and a price of 106 reads WAIT_FOR_DIP (`Positions.SixPercentGainWaitsForDip`).
- **Automatic closure.** Both take-profit and stop-loss closure are checked only when a take-profit price is set (`Positions.Refresh`).
- **BEARISH_WEAK volume.** It leaves HOLD with risk MEDIUM (`DecisionEngine.SellCharacterized`).
- **STRONG_* trends.** STRONG_BULLISH and STRONG_BEARISH match no branch of the cascade (`DecisionEngine.StrongTrendsHaveNoBranch`).
- **Colliding ids.** A position's id is its list length plus one. After a delete, a new position can therefore reuse a surviving id (`Positions.IdsCanCollide`).
- **MACD lines.** The MACD signal line is the EMA of a one-element list, so it equals the MACD and the histogram is 0 (`Indicators.MacdLines`).
- **Deload check.** The tracker itself never fills a workout's `completedExercises`, so it never advises a deload (`Workout.NoExercisesNoDeload`).

## Model

| member | source | states |
|---|---|---|
| Indicators.Gains | crypto_stock_analyzer/src/real_data_collector.py:609-619 | one gain per consecutive pair of prices, each non-negative |
| Indicators.Losses | crypto_stock_analyzer/src/real_data_collector.py:609-619 | one loss per consecutive pair of prices, each non-negative |
| Indicators.RsiFromAverages | crypto_stock_analyzer/src/real_data_collector.py:621-628 | the RSI formula lies in [0, 100] and equals 100 exactly when the average loss is 0 |
| Indicators.Rsi | crypto_stock_analyzer/src/real_data_collector.py:604-630 | every RSI, including the 50 returned for a short series, lies in [0, 100] |
| Indicators.CollectChanges | crypto_stock_analyzer/src/real_data_collector.py:609-619 | the loop builds exactly the gains and losses lists |
| Indicators.CalculateRsi | crypto_stock_analyzer/src/real_data_collector.py:604-630 | the RSI routine computes `Rsi`; 50 below period+1 prices |
| Indicators.CalculateEma | crypto_stock_analyzer/src/real_data_collector.py:768-779 | the smoothing loop computes the EMA seeded by the SMA of the first `period` prices |
| Indicators.Ema | crypto_stock_analyzer/src/real_data_collector.py:768-779 | 0 for an empty list; for period >= 1 the EMA of a non-empty series lies between its minimum and maximum, whether it is the last price of a short series or the smoothed value |
| Indicators.TrueRange | crypto_stock_analyzer/src/real_data_collector.py:683-692 | with high = low = close, a true range is the absolute change since the previous close |
| Indicators.TrueRanges | crypto_stock_analyzer/src/real_data_collector.py:679-693 | one non-negative true range per consecutive pair |
| Indicators.CalculateAtr | crypto_stock_analyzer/src/real_data_collector.py:673-705 | the ATR routine computes `Atr`: 2 % of the last price when short (or for period 0), else the mean of the last `period` true ranges |
| Indicators.Atr | crypto_stock_analyzer/src/real_data_collector.py:673-705 | 2 % of the last price for a short series or period 0; a computed ATR, and any ATR of a non-negative last price, is non-negative |
| Indicators.AtrOfConstant | crypto_stock_analyzer/src/real_data_collector.py:679-697 | the ATR of a constant series is 0 |
| Indicators.CalculateVolumeTrend | crypto_stock_analyzer/src/real_data_collector.py:632-667 | INSUFFICIENT_DATA exactly below ten prices or volumes; ERROR exactly for a zero price ten samples back; otherwise, with the ten-sample price change c and the earlier and recent volume averages, each label holds exactly on its band: BULLISH_CONFIRMED iff c > 2% and recent > 1.2 × earlier, BULLISH_WEAK iff c > 2% and recent < 0.8 × earlier, the BEARISH pair likewise for c < -2%, ACCUMULATION iff \|c\| ≤ 2% and recent > 1.5 × earlier (each with a positive earlier average) |
| Indicators.VolumeTrendDirection | crypto_stock_analyzer/src/real_data_collector.py:632-667 | a bullish label means the price rose more than 2 % over ten samples, a bearish one that it fell more than 2 % (both directions) |
| Indicators.ZeroVolumeTrend | crypto_stock_analyzer/src/real_data_collector.py:642-667 | with all-zero volumes only the neutral labels (or ERROR) are possible |
| Indicators.Returns | crypto_stock_analyzer/src/real_data_collector.py:751-751 | the returns list has one entry per consecutive pair |
| Indicators.SupportsCharacterized | crypto_stock_analyzer/src/real_data_collector.py:716-725 | a value is a support exactly when it is a local minimum (at most both neighbours on each side) at an index from 2 on |
| Indicators.FindSupports | crypto_stock_analyzer/src/real_data_collector.py:716-725 | the scan collects exactly the supports of the last 20 prices, in order |
| Indicators.Below | crypto_stock_analyzer/src/real_data_collector.py:740-740 | the valid supports are exactly the supports strictly below the current price |
| Indicators.AdjustedLevel | crypto_stock_analyzer/src/real_data_collector.py:749-760 | the adjusted level is the base lowered by at most 5 % of the price, floored at 85 % of it |
| Indicators.InvalidationLevel | crypto_stock_analyzer/src/real_data_collector.py:707-766 | 95 % of the last price below 20 prices or with a zero among the first ten; otherwise never below 85 % of the current price, and never below it for a non-negative price |
| Indicators.CalculateInvalidationLevel | crypto_stock_analyzer/src/real_data_collector.py:707-766 | the routine computes `InvalidationLevel`, including the handler's 95 % on a zero among the first ten prices |
| Indicators.RangePosition | crypto_stock_analyzer/src/real_data_collector.py:576-579 | with a non-zero range, the position of the last price lies in [0, 1] |
| Indicators.MacdLines | crypto_stock_analyzer/src/real_data_collector.py:556-563 | MACD = EMA12 - EMA26, its signal equals it and the histogram is 0 |
| Indicators.Bands | crypto_stock_analyzer/src/real_data_collector.py:547-554 | the upper Bollinger band is never below the lower one |
| Indicators.LongSetOf | crypto_stock_analyzer/src/real_data_collector.py:524-598 | the long set carries the RSI, range position, invalidation level and ATR of the series, and a signal equal to the MACD |
| Indicators.LongIndicators | crypto_stock_analyzer/src/real_data_collector.py:519-602 | `{}` exactly below 50 samples or when the builder meets a zero divisor; any non-empty set has a position in [0, 1], an RSI in [0, 100], histogram 0, and an invalidation level and ATR |
| Indicators.ShortSetOf | crypto_stock_analyzer/src/real_data_collector.py:267-308 | the short set carries the RSI, month position and ATR of the series |
| Indicators.ShortIndicators | crypto_stock_analyzer/src/real_data_collector.py:262-312 | `{}` exactly below 20 samples or when the builder meets a zero divisor; any non-empty set has a month position in [0, 1], an RSI in [0, 100] and an ATR |
| Indicators.FindQuote | crypto_stock_analyzer/src/real_data_collector.py:89-97 | the quote found is the first whose key contains the symbol, case-insensitively; none exactly when no key does |
| Indicators.ItemAlertsCharacterized | crypto_stock_analyzer/src/real_data_collector.py:99-125 | no match, no alert; otherwise BUY iff a buy price is set and the price is at or below it, SELL iff a sell price is set and the price is at or above it, at the matched price and key |
| Indicators.ItemAlerts | crypto_stock_analyzer/src/real_data_collector.py:99-125 | at most a BUY then a SELL alert, none without data; each names the upper-cased symbol, and a BUY is at or below its set buy price, a SELL at or above its set sell price |
| Indicators.PriceAlerts | crypto_stock_analyzer/src/real_data_collector.py:79-127 | at most two alerts per watchlist entry, none without data; every alert is on its correct side of its target and names a watchlist symbol |
| Indicators.LookupQuote | crypto_stock_analyzer/src/real_data_collector.py:93-97 | the inner loop returns the first matching quote |
| Indicators.QuoteAlerts | crypto_stock_analyzer/src/real_data_collector.py:103-125 | the two checks of an entry with a matched quote append exactly its alerts |
| Indicators.CheckPriceAlerts | crypto_stock_analyzer/src/real_data_collector.py:79-127 | the alert loop returns every entry's alerts in watchlist order |
| TrendFusion.ScoreTrend | crypto_stock_analyzer/src/advanced_ai_analyzer.py:421-431 | each of the five labels exactly on its score band: STRONG_* at or beyond the strong threshold, BULLISH/BEARISH from 1 to one short of it on either side, NEUTRAL exactly at 0 |
| TrendFusion.AnnualScore | crypto_stock_analyzer/src/advanced_ai_analyzer.py:354-420 | the annual score lies in [-10, 10] |
| TrendFusion.AnnualTrend | crypto_stock_analyzer/src/advanced_ai_analyzer.py:354-431 | one of the five labels: STRONG_BULLISH exactly from score 4, BULLISH from 1 to 3, NEUTRAL exactly at 0, and the bearish labels mirrored |
| TrendFusion.AnnualTrendAntisymmetric | crypto_stock_analyzer/src/advanced_ai_analyzer.py:354-431 | mirroring every input mirrors the annual label |
| TrendFusion.EmptyAnnualIsNeutral | crypto_stock_analyzer/src/advanced_ai_analyzer.py:354-431 | an empty long set scores 0 and reads NEUTRAL |
| TrendFusion.MissingSma200Bias | crypto_stock_analyzer/src/advanced_ai_analyzer.py:354-431 | a missing SMA-200 reads 0, so a positive SMA-50 adds +3 |
| TrendFusion.AnnualScoreAntisymmetric | crypto_stock_analyzer/src/advanced_ai_analyzer.py:354-420 | mirroring every input negates the annual score |
| TrendFusion.MonthlyScore | crypto_stock_analyzer/src/advanced_ai_analyzer.py:105-130 | the monthly score lies in [-5, 5] |
| TrendFusion.MonthlyTrend | crypto_stock_analyzer/src/advanced_ai_analyzer.py:100-142 | NEUTRAL for an empty set; otherwise each label exactly on its band of the monthly score: STRONG_BULLISH at 3 or more, BULLISH at 1–2, NEUTRAL at 0, BEARISH at −1 to −2, STRONG_BEARISH at −3 or less |
| TrendFusion.WeightMonotone | crypto_stock_analyzer/src/advanced_ai_analyzer.py:146-155 | the fusion weights grow with the trend order |
| TrendFusion.FusionBandMonotone | crypto_stock_analyzer/src/advanced_ai_analyzer.py:160-169 | the fused bands grow with the score |
| TrendFusion.CombineTrends | crypto_stock_analyzer/src/advanced_ai_analyzer.py:144-169 | with s = 3 x annual weight + 2 x monthly weight: STRONG_BULLISH iff s >= 10, BULLISH iff 3 <= s < 10, NEUTRAL iff -3 < s < 3, and the bearish labels mirrored; never an unknown label |
| TrendFusion.CombineMonotone | crypto_stock_analyzer/src/advanced_ai_analyzer.py:144-169 | `combine_trends` is monotone in each argument |
| TrendFusion.CombineSignSymmetric | crypto_stock_analyzer/src/advanced_ai_analyzer.py:144-169 | mirroring both inputs mirrors the output |
| TrendFusion.CombineFacts | crypto_stock_analyzer/src/advanced_ai_analyzer.py:144-169 | unknown labels weigh like NEUTRAL; BULLISH with BULLISH gives STRONG_BULLISH, and likewise for BEARISH |
| TrendFusion.DualConfidence | crypto_stock_analyzer/src/advanced_ai_analyzer.py:171-203 | the confidence lies in [25, 95], and in fact in [50, 85] |
| TrendFusion.DualVolatility | crypto_stock_analyzer/src/advanced_ai_analyzer.py:205-234 | MEDIUM for two empty sets, else the band of the one present volatility or of their mean |
| TrendFusion.TrendMultiplierMonotone | crypto_stock_analyzer/src/advanced_ai_analyzer.py:239-247 | the trend multiplier grows with the trend order |
| TrendFusion.DualPricePrediction | crypto_stock_analyzer/src/advanced_ai_analyzer.py:236-278 | with no indicators the projection is the price times the trend multiplier |
| TrendFusion.EmptyProjection | crypto_stock_analyzer/src/advanced_ai_analyzer.py:236-278 | with no indicators the projection is price times the trend multiplier, above a positive price exactly for non-bearish labels |
| TrendFusion.AnnualTags | crypto_stock_analyzer/src/advanced_ai_analyzer.py:285-296 | no annual tag is a confirmation or the fallback; none exactly when the RSI and position are inside their bands |
| TrendFusion.MonthlyTags | crypto_stock_analyzer/src/advanced_ai_analyzer.py:299-310 | the same for the monthly tags and their bands |
| TrendFusion.TrendTags | crypto_stock_analyzer/src/advanced_ai_analyzer.py:313-316 | a confirmation tag exactly for the matching STRONG_* trend |
| TrendFusion.DualPatterns | crypto_stock_analyzer/src/advanced_ai_analyzer.py:280-318 | the pattern list is never empty |
| TrendFusion.DualConfirmations | crypto_stock_analyzer/src/advanced_ai_analyzer.py:280-318 | DUAL_BULLISH_CONFIRMATION iff STRONG_BULLISH and DUAL_BEARISH_CONFIRMATION iff STRONG_BEARISH; NEUTRAL_PATTERN only as the whole list |
| TrendFusion.DualNeutralCharacterized | crypto_stock_analyzer/src/advanced_ai_analyzer.py:280-318 | the list is `[NEUTRAL_PATTERN]` exactly when no tag rule fires |
| TrendFusion.DualRiskReward | crypto_stock_analyzer/src/advanced_ai_analyzer.py:320-352 | the default 2.0 with no indicators; never negative for a positive price inside every present set's high-low range |
| TrendFusion.FallbackAnalysis | crypto_stock_analyzer/src/advanced_ai_analyzer.py:82-96 | LIMITED, NEUTRAL everywhere, confidence 50, MEDIUM, the default tags, no details; the projection equals the price (100 when missing) and the change is 0 |
| TrendFusion.AnalyzeAsset | crypto_stock_analyzer/src/advanced_ai_analyzer.py:24-96 | the fallback record (LIMITED) exactly for a missing or zero price; otherwise every field of the DUAL_1YR_1MO record: the annual, monthly and combined trends, confidence, volatility, tags, projection, the change, invalidation and ATR percentages relative to the price, risk/reward, volume trend, SMA-200 distance and the price − 2·ATR stop |
| TrendFusion.Percent | crypto_stock_analyzer/src/advanced_ai_analyzer.py:67-78 | a percentage of the price, times the price, is a hundred times the part |
| TrendFusion.AnalyzeWithoutIndicators | crypto_stock_analyzer/src/advanced_ai_analyzer.py:58-80 | a priced asset with no indicators: NEUTRAL, MEDIUM, only NEUTRAL_PATTERN, +1 % projection, risk/reward 2, invalidation 5 % and ATR 2 % away |
| TrendFusion.AnalyzeMarket | crypto_stock_analyzer/src/advanced_ai_analyzer.py:22-98 | one analysis per asset key |
| TrendFusion.AdvancedConfidence | crypto_stock_analyzer/src/advanced_ai_analyzer.py:433-475 | the single-horizon confidence lies in [50, 95] |
| TrendFusion.AdvancedVolatility | crypto_stock_analyzer/src/advanced_ai_analyzer.py:477-494 | each of the five bands exactly on its range of the mean of annual volatility and Bollinger width |
| TrendFusion.EmptyAdvancedVolatility | crypto_stock_analyzer/src/advanced_ai_analyzer.py:477-494 | an empty set reads LOW volatility |
| TrendFusion.AdvancedPricePrediction | crypto_stock_analyzer/src/advanced_ai_analyzer.py:496-530 | with the price mid-range, no 3-month momentum and a moderate volatility, the projection is the price times the trend multiplier |
| TrendFusion.AdvancedMultiplierMonotone | crypto_stock_analyzer/src/advanced_ai_analyzer.py:496-530 | while the momentum factor is not negative, a more bullish label never lowers the multiplier |
| TrendFusion.CorrectionsMonotone | crypto_stock_analyzer/src/advanced_ai_analyzer.py:511-528 | the range, momentum and volatility corrections each keep the order of two multipliers |
| TrendFusion.AnnualTrendTags | crypto_stock_analyzer/src/advanced_ai_analyzer.py:532-570 | the tags before the MACD rule hold no MACD or neutral tag; a golden cross means SMA-20 above SMA-200 |
| TrendFusion.AnnualPatterns | crypto_stock_analyzer/src/advanced_ai_analyzer.py:532-575 | the annual pattern list is never empty |
| TrendFusion.AnnualPatternsFacts | crypto_stock_analyzer/src/advanced_ai_analyzer.py:532-575 | it ends with exactly one MACD tag, never falls back to NEUTRAL_PATTERN, and a golden cross means SMA-20 above SMA-200 |
| TrendFusion.DefaultRiskReward | crypto_stock_analyzer/src/advanced_ai_analyzer.py:577-591 | the default year high and low give a ratio of 1 |
| TrendFusion.RiskRewardRatio | crypto_stock_analyzer/src/advanced_ai_analyzer.py:577-591 | for a positive price: 2.0 exactly when the price is at or below the year low; otherwise the distance up to the year high over the distance down to the year low, non-negative when the price lies in the range |
| TrendFusion.DistanceRatio | crypto_stock_analyzer/src/advanced_ai_analyzer.py:582-588 | the downside is positive exactly when the low is below the price, and the ratio of the relative distances is the ratio of the distances |
| DecisionEngine.FromAnalysis | crypto_stock_analyzer/src/decision_engine.py:44-69 | the engine reads back the analyzer's price and confidence |
| DecisionEngine.Recommend | crypto_stock_analyzer/src/decision_engine.py:42-260 | the error record exactly when generation raises: no early return and a zero price |
| DecisionEngine.Recommendations | crypto_stock_analyzer/src/decision_engine.py:18-40 | one outcome per asset, the error record exactly for the assets that raise |
| DecisionEngine.AnalyzedAssetRaises | crypto_stock_analyzer/src/decision_engine.py:27-38 | an analyzer record raises only for a present zero price and a minimum confidence of at most 50 |
| DecisionEngine.Prefilter | crypto_stock_analyzer/src/decision_engine.py:80-104 | returns early exactly for risk/reward below 1 or an RSI above 80 more than 30 % above the SMA-200; GRAY exactly for the risk/reward case, otherwise ORANGE |
| DecisionEngine.BullishDecision | crypto_stock_analyzer/src/decision_engine.py:125-160 | never SELL; BUY exactly within 15 % of the SMA-200 with validated volume and LOW, or MEDIUM above 75, volatility, at the full confidence; HOLD is HIGH risk; penalties take at most 35 points |
| DecisionEngine.BearishDecision | crypto_stock_analyzer/src/decision_engine.py:162-189 | never BUY; SELL exactly with validated volume and LOW, or MEDIUM above 75, volatility, at the full confidence; penalties take at most 25 points |
| DecisionEngine.TrendDecision | crypto_stock_analyzer/src/decision_engine.py:125-195 | BUY only for BULLISH above 70, SELL only for BEARISH above 70; every other case holds at its confidence, LOW risk for NEUTRAL and MEDIUM otherwise |
| DecisionEngine.Override | crypto_stock_analyzer/src/decision_engine.py:197-202 | only a HOLD changes: BUY above +5 %, SELL below -5 %; risk and confidence untouched |
| DecisionEngine.PriceTargets | crypto_stock_analyzer/src/decision_engine.py:262-293 | HOLD: both the price; BUY: target at least 5 % up and the predicted price, stop by volatility; SELL mirrored |
| DecisionEngine.PriceTargetsSides | crypto_stock_analyzer/src/decision_engine.py:262-293 | for a positive price the stop is on the losing side and the target on the winning side |
| DecisionEngine.RefinedStop | crypto_stock_analyzer/src/decision_engine.py:210-220 | BUY: the highest of ATR stop, invalidation and rule stop; SELL: the lowest, ignoring a zero invalidation |
| DecisionEngine.Gate | crypto_stock_analyzer/src/decision_engine.py:223-226 | a tolerance below 0.3 turns every HIGH-risk call into HOLD, nothing else |
| DecisionEngine.Institutional | crypto_stock_analyzer/src/decision_engine.py:228-242 | no flag, no change; the oversold flag gives BUY with an oversold-bounce reason and unchanged risk, adding 10 confidence (capped at 95) unless already BUY |
| DecisionEngine.PrefilterDecides | crypto_stock_analyzer/src/decision_engine.py:80-104 | risk/reward below 1 gives HOLD/GRAY, an overextended RSI above the SMA-200 HOLD/ORANGE, both with risk HIGH, target the price and stop 95 % |
| DecisionEngine.LowConfidenceHolds | crypto_stock_analyzer/src/decision_engine.py:106-122 | below the minimum confidence: HOLD, GRAY, HIGH, confidence unchanged, even when oversold |
| DecisionEngine.BuyCharacterized | crypto_stock_analyzer/src/decision_engine.py:125-160 | BUY exactly for BULLISH above 70, at most 15 % above the SMA-200, validated volume, and LOW volatility or MEDIUM above 75 |
| DecisionEngine.SellCharacterized | crypto_stock_analyzer/src/decision_engine.py:162-189 | SELL exactly for BEARISH above 70 with validated volume and LOW or MEDIUM-above-75 volatility; BEARISH_WEAK holds at MEDIUM, BULLISH_CONFIRMED at HIGH |
| DecisionEngine.StrongTrendsHaveNoBranch | crypto_stock_analyzer/src/decision_engine.py:125-195 | STRONG_* and unknown labels keep HOLD, no clear signal, MEDIUM |
| DecisionEngine.OversoldBuys | crypto_stock_analyzer/src/decision_engine.py:228-242 | with the oversold flag and no early return: BUY in GREEN past the gate; +10 confidence (capped at 95) unless already BUY |
| DecisionEngine.ColorAndStop | crypto_stock_analyzer/src/decision_engine.py:210-236 | otherwise the colour follows the final action, and the stop obeys the ATR refinement |
| DecisionEngine.FallbackAnalysisHolds | crypto_stock_analyzer/src/decision_engine.py:106-122 | an analyzer fallback record is held in GRAY by an engine demanding more than 50 |
| DecisionEngine.PositionSize | crypto_stock_analyzer/src/decision_engine.py:295-312 | the size is the smaller of the base fraction times the tolerance and the maximum: it is one of the two and exceeds neither |
| DecisionEngine.PositionSizeOrdered | crypto_stock_analyzer/src/decision_engine.py:295-312 | lower risk never gets a smaller size, and no size is negative |
| DecisionEngine.CountAction | crypto_stock_analyzer/src/decision_engine.py:321-328 | an action count never exceeds the number of recommendations |
| DecisionEngine.CountRisk | crypto_stock_analyzer/src/decision_engine.py:321-328 | a risk count never exceeds the number of recommendations |
| DecisionEngine.CountsPartition | crypto_stock_analyzer/src/decision_engine.py:321-328 | each recommendation is counted under exactly one action and one risk |
| DecisionEngine.MarketSentiment | crypto_stock_analyzer/src/decision_engine.py:345-360 | BULLISH iff more than 3/5 BUY, BEARISH iff more than 3/5 SELL, NEUTRAL with no calls |
| DecisionEngine.OverallRisk | crypto_stock_analyzer/src/decision_engine.py:362-376 | HIGH iff more than half HIGH, LOW iff some calls and at most a fifth HIGH, MEDIUM with no calls |
| DecisionEngine.PortfolioSummary | crypto_stock_analyzer/src/decision_engine.py:314-343 | the loop's counters, average and classifications are those of the recommendations |
| DecisionEngine.Clamp | crypto_stock_analyzer/src/decision_engine.py:378-384 | the value in range, else the nearer bound |
| DecisionEngine.Engine.constructor | crypto_stock_analyzer/src/decision_engine.py:6-9 | tolerance 0.5, minimum confidence 60, cap 10 % |
| DecisionEngine.Engine.CurrentSettings | crypto_stock_analyzer/src/decision_engine.py:6-9 | the settings are the engine's fields |
| DecisionEngine.Engine.SetRiskTolerance | crypto_stock_analyzer/src/decision_engine.py:378-380 | the tolerance is stored clamped to [0, 1]; the minimum is unchanged |
| DecisionEngine.Engine.SetMinConfidence | crypto_stock_analyzer/src/decision_engine.py:382-384 | the minimum is stored clamped to [0, 100]; the tolerance is unchanged |
| DecisionEngine.DefaultEngineFacts | crypto_stock_analyzer/src/decision_engine.py:6-9 | a new engine holds every analyzer fallback and sizes a LOW-risk call at 7.5 % |
| Positions.SideOf | crypto_stock_analyzer/src/position_manager.py:84-89 | LONG and SHORT exactly for those upper-cased type names |
| Positions.TradingSignal | crypto_stock_analyzer/src/position_manager.py:119-152 | UNKNOWN exactly for another side; WAIT_FOR_DIP only for a LONG more than 2 % up, WAIT_FOR_RALLY only for a SHORT more than 2 % down, ENTRY_ZONE only within 2 %; never TAKE_PROFIT or HOLDING for a positive entry |
| Positions.TradingSignalThreeValued | crypto_stock_analyzer/src/position_manager.py:119-152 | for a positive entry, three outcomes per side with their exact conditions; TAKE_PROFIT and HOLDING unreachable |
| Positions.SixPercentGainWaitsForDip | crypto_stock_analyzer/src/position_manager.py:122-135 | entry 100, price 106: WAIT_FOR_DIP |
| Positions.SignalInterpretation | crypto_stock_analyzer/src/position_manager.py:261-307 | the black REVIEW entry exactly for an unknown signal |
| Positions.ReachableInterpretations | crypto_stock_analyzer/src/position_manager.py:261-307 | the blue and gray entries are never shown for a positive entry |
| Positions.NewPosition | crypto_stock_analyzer/src/position_manager.py:41-57 | a new record is ACTIVE with P&L 0, ENTRY_ZONE, and current price equal to the entry |
| Positions.Added | crypto_stock_analyzer/src/position_manager.py:34-61 | exactly one record appended to the symbol's list; other symbols unchanged |
| Positions.SidePnlSign | crypto_stock_analyzer/src/position_manager.py:84-89 | a LONG gains iff the price is above the entry, any other side iff below |
| Positions.Refresh | crypto_stock_analyzer/src/position_manager.py:70-115 | closed records unchanged; active ones get price, signal, ATR stop, P&L and P&L % and keep every other field; TP/SL closure only with a take-profit, with exact conditions and reasons |
| Positions.RefreshAll | crypto_stock_analyzer/src/position_manager.py:70-115 | every record refreshed, in place |
| Positions.Refreshed | crypto_stock_analyzer/src/position_manager.py:63-117 | the same symbols; the symbol's records refreshed one by one in place, closed ones and all ids kept; other symbols untouched |
| Positions.FirstActive | crypto_stock_analyzer/src/position_manager.py:226-228 | the first ACTIVE record with the id, or none |
| Positions.Close | crypto_stock_analyzer/src/position_manager.py:229-241 | status CLOSED_<REASON>; close price the given one or the last seen; final P&L and P&L % by side; every other field kept |
| Positions.ClosedBook | crypto_stock_analyzer/src/position_manager.py:219-245 | no record to close, no change; otherwise the first ACTIVE record with the id is replaced by `Close` of it (status CLOSED_<REASON>, the close price, its final P&L and P&L percentage) and every other record and symbol stays as it was; only that record needs a non-zero entry price, because only it is divided by |
| Positions.Filter | crypto_stock_analyzer/src/position_manager.py:154-161 | keeps exactly the records meeting the criterion, each as often as in the input |
| Positions.FilterAppend | crypto_stock_analyzer/src/position_manager.py:154-161 | filtering keeps relative order: the filter of a concatenation is the concatenation of the filters |
| Positions.WithoutId | crypto_stock_analyzer/src/position_manager.py:247-259 | keeps exactly the records with another id, each as often as in the input |
| Positions.Deleted | crypto_stock_analyzer/src/position_manager.py:247-259 | every record with the id goes; an emptied symbol is dropped; other symbols unchanged |
| Positions.IdsCanCollide | crypto_stock_analyzer/src/position_manager.py:41-41 | after deleting id 1 of [1, 2], the next id is 2 again |
| Positions.RefreshKeepsClosedRecords | crypto_stock_analyzer/src/position_manager.py:70-72 | a refresh never changes a non-ACTIVE record |
| Positions.TallyFacts | crypto_stock_analyzer/src/position_manager.py:163-217 | every record counted once as active or closed, P&L split the same way, winners closed |
| Positions.TallyCounts | crypto_stock_analyzer/src/position_manager.py:186-211 | the tally counts the ACTIVE records, the closed records and the closed records with a positive P&L |
| Positions.TallySignals | crypto_stock_analyzer/src/position_manager.py:200-205 | each of the five tracked signal counts is the number of ACTIVE records with that signal |
| Positions.BySymbolValues | crypto_stock_analyzer/src/position_manager.py:186-194 | each symbol's entry holds its number of records, of ACTIVE and of closed records, and the sum of its P&L |
| Positions.TallySums | crypto_stock_analyzer/src/position_manager.py:186-211 | the tally adds up the P&L of all records, of the ACTIVE ones and of the closed ones |
| Positions.PlusEmpty | crypto_stock_analyzer/src/position_manager.py:163-217 | the empty tally is neutral |
| Positions.PlusAssociative | crypto_stock_analyzer/src/position_manager.py:163-217 | tallies add associatively |
| Positions.TallyAppend | crypto_stock_analyzer/src/position_manager.py:163-217 | the tally of a concatenation is the sum of tallies |
| Positions.WinRate | crypto_stock_analyzer/src/position_manager.py:213-215 | a percentage in [0, 100], 0 with nothing closed, and otherwise exactly the share of winners among closed trades (rate × closed = 100 × winners) |
| Positions.TotalTally | crypto_stock_analyzer/src/position_manager.py:163-217 | winners never exceed closed records |
| Positions.BySymbolSnoc | crypto_stock_analyzer/src/position_manager.py:163-217 | one more symbol adds its own entry |
| Positions.TotalTallyIsTallyOfAll | crypto_stock_analyzer/src/position_manager.py:163-217 | the symbol-by-symbol totals are the tally of all records |
| Positions.SummaryOf | crypto_stock_analyzer/src/position_manager.py:163-217 | active and closed counts are the numbers of ACTIVE and closed records; total, active and closed P&L are the sums over those records; the win rate is winners (closed with positive P&L) over closed × 100, 0 with nothing closed; each tracked signal counts the ACTIVE records that carry it, and together they are at most the ACTIVE count; one entry per symbol, holding that symbol's record count, ACTIVE and closed counts and P&L sum |
| Positions.Remove | crypto_stock_analyzer/src/position_manager.py:257-257 | removing a key keeps the others, distinct |
| Positions.PositionManager.constructor | crypto_stock_analyzer/src/position_manager.py:8-12 | an empty store |
| Positions.PositionManager.AddPosition | crypto_stock_analyzer/src/position_manager.py:34-61 | the new record with id = list length + 1 is appended; a new symbol joins the key order |
| Positions.PositionManager.UpdatePositionSignals | crypto_stock_analyzer/src/position_manager.py:63-117 | the symbol's records are refreshed in place (ATR default 2 %); unknown symbol, no change |
| Positions.PositionManager.ActivePositions | crypto_stock_analyzer/src/position_manager.py:154-161 | every symbol with exactly its ACTIVE records, each as often as stored |
| Positions.PositionManager.GetPositionSummary | crypto_stock_analyzer/src/position_manager.py:163-217 | the loop computes `SummaryOf` over the symbols in insertion order, so its counts, sums and win rate are those stated there |
| Positions.PositionManager.ClosePosition | crypto_stock_analyzer/src/position_manager.py:219-245 | True exactly when an ACTIVE record with the id exists; the first such is closed |
| Positions.PositionManager.DeletePosition | crypto_stock_analyzer/src/position_manager.py:247-259 | False only for an absent symbol; the book becomes `Deleted` |
| Workout.Completions | script.js:421-423 | the completion of each session, in order |
| Workout.DropScalesTrend | script.js:425-429 | the fatigue drop is the older-minus-recent difference scaled by (n-2)/n |
| Workout.DetectFatigue | script.js:452-465 | 0 below three sessions; high iff drop > 0.15, low iff drop <= 0.08 |
| Workout.FatigueFollowsTrend | script.js:452-465 | medium or high fatigue needs a real decline; a flat trend reads low |
| Workout.AnalyzePerformance | script.js:419-450 | average, recent average, trend (recent minus older average) and volatility (root of the mean squared deviation) of the completions; consistency = 1 - volatility; fatigue is `detectFatigue`; plateau iff flat trend and average above 0.85 |
| Workout.RoundHalf | script.js:508-533 | the nearest multiple of 0.5, ties upwards |
| Workout.RoundHalfUnique | script.js:508-533 | the rounding is determined by its contract |
| Workout.RoundHalfFixes | script.js:508-533 | a half-kilo weight is left unchanged |
| Workout.RoundHalfMonotone | script.js:508-533 | rounding is monotone |
| Workout.AdjustmentBand | script.js:502-507 | adjustment in {0.05, 0.03, 0, -0.05}, negative iff average below 0.80 |
| Workout.Progression | script.js:502-533 | the weight is the current one scaled by the band's adjustment and rounded to the 0.5 grid (within 0.25 of the target), never negative; the band's confidence; increase, decrease or maintain by the sign of the adjustment |
| Workout.AiRecommendation | script.js:467-534 | the first matching rule wins: deload at 85 %, plateau unchanged, technique at 95 %, then the progression |
| Workout.FinalRuleCharacterized | script.js:502-533 | at the final rule: increase iff average >= 0.90 and volatility < 0.15, decrease iff average < 0.80 |
| Workout.SuggestionDirection | script.js:467-534 | on the 0.5 grid, an increase never lowers and anything else never raises the weight |
| Workout.PlateauAlwaysWins | script.js:472-490 | a detected plateau always reaches the plateau rule |
| Workout.SteadySeries | script.js:419-534 | a constant series: no fatigue, plateau iff above 0.85, else maintain or decrease |
| Workout.Appended | script.js:624-638 | the history stays within ten entries and ends with the new one |
| Workout.HistoryKeepsLastTen | script.js:624-638 | after any saves the history is the last ten entries of everything recorded, in order |
| Workout.GetAIRecommendation | script.js:306-320 | maintain at confidence 0.5 without three entries; otherwise the cascade on the last five |
| Workout.OnlyLastFiveCount | script.js:306-320 | only the last five entries matter |
| Workout.ExerciseSamples | script.js:550-560 | one sample per recorded exercise, in order, carrying its name and its completed over target repetitions |
| Workout.GroupCollects | script.js:550-560 | grouping collects exactly each name's samples, in order |
| Workout.CountOverload | script.js:562-580 | over distinct names: the total is the number of exercises with at least three samples, and the declining and stalled counts are the numbers of those that decline or stall; declining plus stalled at most the total |
| Workout.CountedSnoc | script.js:570-579 | a name appended to a list of distinct names adds one to each tally it shows |
| Workout.Verdict | script.js:582-596 | high iff more than 2/5 decline; medium iff not and more than 3/5 stall or more than 1/4 decline; none with no qualifying exercise |
| Workout.DeloadCheck | script.js:536-597 | null exactly below ten workouts; otherwise the verdict over the exercises with at least three samples in the last eight workouts, and how many of them decline or stall |
| Workout.GroupedTallies | script.js:545-580 | the tallies over the grouped samples are the tallies over the samples themselves, by exercise name |
| Workout.SampledNameOccurs | script.js:547-556 | an exercise with a sample is one of the recorded names |
| Workout.NoExercisesNoDeload | script.js:536-597 | no recorded exercises, no deload |
| Workout.DetermineWeekType | script.js:1073-1080 | A exactly for even weeks |
| Workout.Toggle | script.js:660-662 | the week type changes |
| Workout.TodaysRoutine | script.js:1082-1105 | rest exactly on Monday, Thursday and Saturday |
| Workout.NextWorkoutDay | script.js:1107-1133 | the next non-rest day is one or two days ahead, and two only after a rest day |
| Workout.UntickedCountsNothing | script.js:612-622 | unticked series add nothing |
| Workout.TotalSeries | script.js:612-622 | the loop sums the repetitions and the load of the ticked series |
| Workout.GroupSessions | script.js:545-561 | the loops fill exactly the grouped completions |
| Workout.GroupExercises | script.js:548-560 | one workout's exercises are added to the grouping |
| Workout.Record | script.js:553-558 | one push into an exercise's list |
| Workout.SampleStep | script.js:550-560 | one more exercise adds one sample |
| Workout.GroupStep | script.js:550-560 | one more sample is one push |
| Workout.CountExercises | script.js:562-580 | the counting loop computes `CountOverload` |
| Workout.Trainer.constructor | script.js:1236-1245 | a new user: no progress, no workouts, the starting routine, this week's type |
| Workout.Trainer.SaveExerciseData | script.js:599-645 | the entry totals the ticked series; the history gets it, within ten |
| Workout.Trainer.CompleteWorkout | script.js:647-678 | the workout joins the history; the week toggles on Sunday; today's routine becomes current; the history bound on every exercise's progress is kept |
| Workout.Trainer.CheckDeloadNeed | script.js:536-597 | the check computes `DeloadCheck` |

## Left out

- **I/O and the outside world:**
  - network calls, `time.sleep` and the wall clock;
  - files: the JSON watchlist and data files, `load_positions` and `save_positions`, and the disk load in `analyze_market`.
  - The store starts empty and is never persisted.
- **Other files:** the Tkinter UI and its threads, the position dialogs, and the SQLite layer. They hold no logic of their own.
- **Analyzer construction:** `get_recommendations` builds the analyzer and loads its data. `DecisionEngine.Recommendations` takes the analyzer's result as a parameter instead.
- **Engine state:** the engine's embedded `PositionManager` is not part of the engine model.
- **Timestamps and dates** on positions, watchlist entries and workouts. Where a date decides something, it is a parameter: the week number, the weekday, and `today` in `completeWorkout`.
- **Texts:** reason, message, emoji and description texts, and `extract_key_metrics`. A reason is a constructor, and the formatted metric dictionaries are dropped. The analyzer's annual RSI is kept as a number, so the string-to-float parse is not modelled.
- **Floating point:**
  - NaN, infinities and rounding, including every `round(x, n)`;
  - the exact value of square roots and standard deviations.
- **Unused inputs:** the `change_24h` arguments of the dual-horizon functions. They play no part in the result.
- **Exceptions other than division by zero,** such as a missing key read with `[]` or a wrong type. Divisions that the source does not catch are preconditions.
- **`getRecommendedWeight`:** it repeats `getAIRecommendation`'s weight and is not modelled separately.
- **The DOM side of `saveExerciseData`:** reading the inputs, and the toast and re-rendering. The inputs are a parameter.
- **The script's UI:** themes, users, charts, `setTimeout` and the `Math.random` placeholder data.
- Workout.AnalyzePerformance: requires at least three sessions. Every caller guarantees this, and a shorter list would divide `0 / 0`.
- Indicators.LongIndicators: the builders are stated without the exact values of their volatility and Bollinger-width fields. Those fields depend on the abstract standard deviation.
- Workout.Trainer.SaveExerciseData: requires series times target repetitions to be positive. With zero the script divides by zero and carries on: it stores `Infinity` when some ticked series has repetitions, and `NaN` otherwise. Reals cannot represent either value.
- Text.Upper, Text.Lower: the case mapping covers ASCII letters only. Python's `str.upper` and `str.lower` map every Unicode letter, and some mappings change the length (`'ß'.upper()` is `'SS'`). Symbols, position types and close reasons with non-ASCII letters are therefore not modelled faithfully.
