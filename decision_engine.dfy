/** The trading-decision engine (crypto_stock_analyzer/src/decision_engine.py):
    the ordered rule cascade that turns one asset's analysis into an action,
    price targets and stops, and the portfolio-level classifiers. */
module DecisionEngine {
  import opened Wrappers
  import opened SeqMath
  import Indicators
  import opened TrendFusion

  datatype Action = Buy | Sell | Hold

  datatype RiskLevel = LowRisk | MediumRisk | HighRisk

  datatype Color = Gray | Orange | Green | Red | Yellow

  /** The reason texts, one constructor per distinct message. */
  datatype Reason =
    | NoClearSignal
    | BadRiskReward
    | Overextended
    | LowConfidence(confidence: real)
    | AboveSma200(distance: real)
    | BullishWithoutVolume
    | BullishContradictedByVolume
    | StrongBullishEntry
    | BullishEntry
    | BullishWaitForEntry
    | BearishWithoutVolume
    | BearishContradictedByVolume
    | StrongBearishExit
    | BearishExit
    | BearishWaitForConfirmation
    | NeutralTrend
    | PredictedIncrease(pct: real)
    | PredictedDecrease(pct: real)
    | BelowRiskTolerance(original: Reason)
    | OversoldBounce(detail: Reason)

  /** The messages whose text begins with "Bullish trend". */
  predicate StartsWithBullishTrend(r: Reason) {
    r.AboveSma200? || r.BullishWithoutVolume? || r.BullishContradictedByVolume?
    || r.BullishEntry? || r.BullishWaitForEntry?
  }

  /** The analysis record as the engine reads it; `None` is a missing key.
      The defaults are those of the `analysis.get` calls. */
  datatype AssetAnalysis = AssetAnalysis(
    trend: Option<Trend>, confidence: Option<real>, volatility: Option<Volatility>,
    priceChangePct: Option<real>, currentPrice: Option<real>, predictedPrice: Option<real>,
    volumeTrend: Option<Indicators.VolumeTrend>, distanceToSma200Pct: Option<real>,
    invalidationLevel: Option<real>, annualRsi14: Option<real>,
    riskRewardRatio: Option<real>, atr: Option<real>)
  {
    function Trend(): Trend { trend.GetOr(Unknown) }
    function Confidence(): real { confidence.GetOr(0.0) }
    function Volatility(): Volatility { volatility.GetOr(Medium) }
    function PriceChangePct(): real { priceChangePct.GetOr(0.0) }
    function Current(): real { currentPrice.GetOr(0.0) }
    function Predicted(): real { predictedPrice.GetOr(Current()) }
    function VolumeTrend(): Indicators.VolumeTrend { volumeTrend.GetOr(Indicators.Neutral) }
    function Distance(): real { distanceToSma200Pct.GetOr(0.0) }
    function Invalidation(): real { invalidationLevel.GetOr(Current() * 0.95) }
    function Rsi(): real { annualRsi14.GetOr(50.0) }
    function RiskReward(): real { riskRewardRatio.GetOr(1.5) }
    function Atr(): real { atr.GetOr(Current() * 0.02) }
  }

  /** The record the analyzer produces, read back by key. */
  function FromAnalysis(a: Analysis): (r: AssetAnalysis)
    ensures r.Current() == a.currentPrice && r.Confidence() == a.confidence as real
  {
    var d := a.details;
    AssetAnalysis(
      Some(a.trend), Some(a.confidence as real), Some(a.volatility),
      Some(a.priceChangePct), Some(a.currentPrice), Some(a.predictedPrice),
      if d.Some? then Some(d.value.volumeTrend) else None,
      if d.Some? then Some(d.value.distanceToSma200Pct) else None,
      if d.Some? then Some(d.value.invalidationLevel) else None,
      if d.Some? then d.value.annualRsi14 else None,
      if d.Some? then Some(d.value.riskReward) else None,
      if d.Some? then Some(d.value.atr) else None)
  }

  /** The engine's tunable fields. */
  datatype Settings = Settings(riskTolerance: real, minConfidence: real, maxPositionSize: real)

  /** The keys only a recommendation that runs the whole cascade carries. */
  datatype Extras = Extras(
    predictedChange: real, volatility: Volatility, volumeTrend: Indicators.VolumeTrend,
    distanceToSma200Pct: real, invalidationLevel: real,
    atr: real, atrPct: real, dynamicStopLoss: real)

  datatype Recommendation = Recommendation(
    action: Action, reason: Reason, risk: RiskLevel, confidence: real,
    target: real, stop: real, color: Color, extras: Option<Extras>)

  /** A recommendation, or the record `get_recommendations` stores when
      generating one raised (HOLD, risk HIGH, confidence 0, no prices). */
  datatype Outcome = Recommended(rec: Recommendation) | ErrorFallback
  {
    function Action(): Action { if Recommended? then rec.action else Hold }
    function Risk(): RiskLevel { if Recommended? then rec.risk else HighRisk }
    function Confidence(): real { if Recommended? then rec.confidence else 0.0 }
  }

  /** The state of the cascade's locals between stages. */
  datatype Decision = Decision(action: Action, reason: Reason, risk: RiskLevel, confidence: real)

  // ---------------------------------------------------------------- cascade stages

  /** The institutional pre-filters that return at once. */
  function Prefilter(riskReward: real, rsi: real, distance: real): (r: Option<(Reason, Color)>)
    ensures r.Some? <==> riskReward < 1.0 || (rsi > 80.0 && distance > 30.0)
    ensures r.Some? ==> (r.value.1 == Gray <==> riskReward < 1.0)
    ensures r.Some? ==> r.value == (BadRiskReward, Gray) || r.value == (Overextended, Orange)
  {
    if riskReward < 1.0 then Some((BadRiskReward, Gray))
    else if rsi > 80.0 && distance > 30.0 then Some((Overextended, Orange))
    else None
  }

  /** The oversold-bounce flag (only reached when no pre-filter fired). */
  predicate Oversold(rsi: real, distance: real) {
    rsi < 25.0 && distance < -20.0
  }

  /** The BULLISH branch: SMA-200 distance and volume penalties, then the
      volatility-gated entry. */
  function BullishDecision(confidence: real, volatility: Volatility,
                           volumeTrend: Indicators.VolumeTrend, distance: real): (r: Decision)
    ensures r.action != Sell
    ensures r.action == Buy <==>
      && distance <= 15.0
      && volumeTrend != Indicators.BullishWeak && volumeTrend != Indicators.BearishConfirmed
      && (volatility == Low || (volatility == Medium && confidence > 75.0))
    ensures r.action == Buy ==> r.confidence == confidence && r.risk == (if volatility == Low then LowRisk else MediumRisk)
    ensures r.action == Hold ==> r.risk == HighRisk
    ensures confidence - 35.0 <= r.confidence <= confidence
  {
    var penalty := distance > 15.0;
    var c1 := if penalty then confidence - 15.0 else confidence;
    var r1 := if penalty then AboveSma200(distance) else NoClearSignal;
    var risk1 := if penalty then HighRisk else MediumRisk;
    var validated := volumeTrend != Indicators.BullishWeak && volumeTrend != Indicators.BearishConfirmed;
    var c2 :=
      if volumeTrend == Indicators.BullishWeak then c1 - 10.0
      else if volumeTrend == Indicators.BearishConfirmed then c1 - 20.0
      else c1;
    var r2 :=
      if volumeTrend == Indicators.BullishWeak then BullishWithoutVolume
      else if volumeTrend == Indicators.BearishConfirmed then BullishContradictedByVolume
      else r1;
    if !penalty && validated && volatility == Low then Decision(Buy, StrongBullishEntry, LowRisk, c2)
    else if !penalty && validated && volatility == Medium && c2 > 75.0 then Decision(Buy, BullishEntry, MediumRisk, c2)
    else Decision(Hold, if StartsWithBullishTrend(r2) then r2 else BullishWaitForEntry, HighRisk, c2)
  }

  /** The BEARISH branch: volume validation, then the volatility-gated exit. */
  function BearishDecision(confidence: real, volatility: Volatility,
                           volumeTrend: Indicators.VolumeTrend): (r: Decision)
    ensures r.action != Buy
    ensures r.action == Sell <==>
      && volumeTrend != Indicators.BearishWeak && volumeTrend != Indicators.BullishConfirmed
      && (volatility == Low || (volatility == Medium && confidence > 75.0))
    ensures r.action == Sell ==> r.confidence == confidence && r.risk == (if volatility == Low then LowRisk else MediumRisk)
    ensures confidence - 25.0 <= r.confidence <= confidence
  {
    if volumeTrend == Indicators.BearishWeak then
      Decision(Hold, BearishWithoutVolume, MediumRisk, confidence - 10.0)
    else if volumeTrend == Indicators.BullishConfirmed then
      Decision(Hold, BearishContradictedByVolume, HighRisk, confidence - 25.0)
    else if volatility == Low then Decision(Sell, StrongBearishExit, LowRisk, confidence)
    else if volatility == Medium && confidence > 75.0 then Decision(Sell, BearishExit, MediumRisk, confidence)
    else Decision(Hold, BearishWaitForConfirmation, HighRisk, confidence)
  }

  /** The main decision: only the exact labels BULLISH and BEARISH (with
      confidence above 70) and NEUTRAL have a branch. */
  function TrendDecision(trend: Trend, confidence: real, volatility: Volatility,
                         volumeTrend: Indicators.VolumeTrend, distance: real): (r: Decision)
    ensures r.action == Buy ==> trend == Bullish && confidence > 70.0
    ensures r.action == Sell ==> trend == Bearish && confidence > 70.0
    ensures !(trend == Bullish && confidence > 70.0) && !(trend == Bearish && confidence > 70.0) ==>
      && r.action == Hold && r.confidence == confidence
      && r.risk == (if trend == Neutral then LowRisk else MediumRisk)
  {
    if trend == Bullish && confidence > 70.0 then BullishDecision(confidence, volatility, volumeTrend, distance)
    else if trend == Bearish && confidence > 70.0 then BearishDecision(confidence, volatility, volumeTrend)
    else if trend == Neutral then Decision(Hold, NeutralTrend, LowRisk, confidence)
    else Decision(Hold, NoClearSignal, MediumRisk, confidence)
  }

  /** The ±5 % predicted-change override. */
  function Override(d: Decision, pct: real): (r: Decision)
    ensures r.risk == d.risk && r.confidence == d.confidence
    ensures d.action != Hold ==> r == d
    ensures d.action == Hold ==> r.action == (if pct > 5.0 then Buy else if pct < -5.0 then Sell else Hold)
  {
    if pct > 5.0 && d.action == Hold then d.(action := Buy, reason := PredictedIncrease(pct))
    else if pct < -5.0 && d.action == Hold then d.(action := Sell, reason := PredictedDecrease(pct))
    else d
  }

  /** `calculate_price_targets`: (target, stop). */
  function PriceTargets(current: real, predicted: real, action: Action, volatility: Volatility): (t: (real, real))
    ensures action == Hold ==> t == (current, current)
    ensures action == Buy ==>
      && t.0 >= current * 1.05 && t.0 >= predicted && (t.0 == predicted || t.0 == current * 1.05)
      && t.1 == current * (if volatility == Low then 0.98 else if volatility == Medium then 0.95 else 0.92)
    ensures action == Sell ==>
      && t.0 <= current * 0.95 && t.0 <= predicted && (t.0 == predicted || t.0 == current * 0.95)
      && t.1 == current * (if volatility == Low then 1.02 else if volatility == Medium then 1.05 else 1.08)
  {
    match action
    case Buy =>
      (MaxReal(predicted, current * 1.05),
       if volatility == Low then current * 0.98 else if volatility == Medium then current * 0.95 else current * 0.92)
    case Sell =>
      (MinReal(predicted, current * 0.95),
       if volatility == Low then current * 1.02 else if volatility == Medium then current * 1.05 else current * 1.08)
    case Hold => (current, current)
  }

  /** For a positive price the stop lies on the losing side and the target
      on the winning side of the current price. */
  lemma PriceTargetsSides(current: real, predicted: real, action: Action, volatility: Volatility)
    requires current > 0.0
    ensures action == Buy ==>
      PriceTargets(current, predicted, action, volatility).1 < current < PriceTargets(current, predicted, action, volatility).0
    ensures action == Sell ==>
      PriceTargets(current, predicted, action, volatility).0 < current < PriceTargets(current, predicted, action, volatility).1
  {
  }

  /** The ATR refinement: a BUY keeps the highest of the ATR stop, the
      invalidation level (0 when it is 0) and the rule stop; a SELL the
      lowest of them, ignoring an invalidation level of 0. */
  function RefinedStop(action: Action, ruleStop: real, atrStop: real, invalidation: real): (stop: real)
    ensures action == Hold ==> stop == ruleStop
    ensures action == Buy ==>
      && stop >= atrStop && stop >= invalidation && stop >= ruleStop
      && (stop == atrStop || stop == invalidation || stop == ruleStop)
    ensures action == Sell ==>
      && stop <= atrStop && stop <= ruleStop && (invalidation != 0.0 ==> stop <= invalidation)
      && (stop == atrStop || stop == invalidation || stop == ruleStop)
  {
    match action
    case Buy => MaxReal(MaxReal(atrStop, if invalidation != 0.0 then invalidation else 0.0), ruleStop)
    case Sell =>
      if invalidation != 0.0 then MinReal(MinReal(atrStop, invalidation), ruleStop)
      else MinReal(atrStop, ruleStop)
    case Hold => ruleStop
  }

  /** The risk-tolerance gate: a cautious engine holds every HIGH-risk call. */
  function Gate(riskTolerance: real, d: Decision): (r: Decision)
    ensures r.risk == d.risk && r.confidence == d.confidence
    ensures r.action == (if riskTolerance < 0.3 && d.risk == HighRisk then Hold else d.action)
  {
    if riskTolerance < 0.3 && d.risk == HighRisk then d.(action := Hold, reason := BelowRiskTolerance(d.reason))
    else d
  }

  function ColorOf(action: Action): Color {
    match action
    case Buy => Green
    case Sell => Red
    case Hold => Yellow
  }

  /** The oversold-bounce preference applied last. */
  function Institutional(oversold: bool, d: Decision): (r: Decision)
    ensures !oversold ==> r == d
    ensures oversold ==> r.action == Buy && r.risk == d.risk && r.reason == OversoldBounce(d.reason)
    ensures oversold && d.action == Buy ==> r.confidence == d.confidence
    ensures oversold && d.action != Buy ==>
      r.confidence <= 95.0 && (d.confidence <= 85.0 ==> r.confidence == d.confidence + 10.0)
  {
    if !oversold then d
    else if d.action == Buy then d.(reason := OversoldBounce(d.reason))
    else d.(action := Buy, reason := OversoldBounce(d.reason), confidence := MinReal(95.0, d.confidence + 10.0))
  }

  /** The decision after the trend branches, the override and the gate. */
  function GatedDecision(s: Settings, a: AssetAnalysis): Decision {
    Gate(s.riskTolerance,
         Override(TrendDecision(a.Trend(), a.Confidence(), a.Volatility(), a.VolumeTrend(), a.Distance()),
                  a.PriceChangePct()))
  }

  /** The action the price targets and the stop refinement see (before the gate). */
  function TargetAction(a: AssetAnalysis): Action {
    Override(TrendDecision(a.Trend(), a.Confidence(), a.Volatility(), a.VolumeTrend(), a.Distance()),
             a.PriceChangePct()).action
  }

  /** `generate_single_recommendation`, with the exception handler of
      `get_recommendations`: the final `atr / current_price` fails for a
      zero price. */
  function Recommend(s: Settings, a: AssetAnalysis): (o: Outcome)
    ensures o == ErrorFallback <==> Raises(s, a)
  {
    var current := a.Current();
    var pre := Prefilter(a.RiskReward(), a.Rsi(), a.Distance());
    if pre.Some? then
      Recommended(Recommendation(Hold, pre.value.0, HighRisk, a.Confidence(), current, current * 0.95, pre.value.1, None))
    else if a.Confidence() < s.minConfidence then
      Recommended(Recommendation(Hold, LowConfidence(a.Confidence()), HighRisk, a.Confidence(),
                                 current, current * 0.95, Gray, None))
    else if current == 0.0 then ErrorFallback
    else
      var oversold := Oversold(a.Rsi(), a.Distance());
      var targets := PriceTargets(current, a.Predicted(), TargetAction(a), a.Volatility());
      var atrStop := current - 2.0 * a.Atr();
      var stop := RefinedStop(TargetAction(a), targets.1, atrStop, a.Invalidation());
      var g := GatedDecision(s, a);
      var f := Institutional(oversold, g);
      Recommended(Recommendation(
        f.action, f.reason, f.risk, f.confidence, targets.0, stop,
        if oversold then Green else ColorOf(g.action),
        Some(Extras(a.PriceChangePct(), a.Volatility(), a.VolumeTrend(), a.Distance(),
                    a.Invalidation(), a.Atr(), a.Atr() / current * 100.0, atrStop))))
  }

  /** Generating a recommendation raises only at the final `atr /
      current_price`, reached with a zero price. */
  predicate Raises(s: Settings, a: AssetAnalysis) {
    Prefilter(a.RiskReward(), a.Rsi(), a.Distance()).None? && a.Confidence() >= s.minConfidence
    && a.Current() == 0.0
  }

  /** `get_recommendations` over the analyzer's result: one outcome per asset. */
  function Recommendations(s: Settings, results: map<string, Analysis>): (r: map<string, Outcome>)
    ensures r.Keys == results.Keys
    ensures forall k :: k in results ==> r[k] == Recommend(s, FromAnalysis(results[k]))
    ensures forall k :: k in results ==> (r[k] == ErrorFallback <==> Raises(s, FromAnalysis(results[k])))
  {
    map k | k in results :: Recommend(s, FromAnalysis(results[k]))
  }

  /** Of the analyzer's records only the fallback of an asset whose price is
      present and 0 can raise, and only for an engine that accepts its
      confidence of 50; a missing price reads as 100. */
  lemma AnalyzedAssetRaises(s: Settings, data: AssetData)
    ensures Raises(s, FromAnalysis(AnalyzeAsset(data))) <==>
      data.currentPrice == Some(0.0) && s.minConfidence <= 50.0
  {
    if AnalyzeAsset(data).depth == Limited {
      assert AnalyzeAsset(data) == FallbackAnalysis(data);
    }
  }

  // ---------------------------------------------------------------- cascade properties

  /** The pre-filters decide alone: a bad risk/reward gives GRAY, an
      overextended RSI above the SMA-200 gives ORANGE; both hold with risk
      HIGH, target = price and stop = 95 % of it, whatever the trend. */
  lemma PrefilterDecides(s: Settings, a: AssetAnalysis)
    ensures a.RiskReward() < 1.0 ==>
      Recommend(s, a) == Recommended(Recommendation(Hold, BadRiskReward, HighRisk, a.Confidence(),
                                                    a.Current(), a.Current() * 0.95, Gray, None))
    ensures a.RiskReward() >= 1.0 && a.Rsi() > 80.0 && a.Distance() > 30.0 ==>
      Recommend(s, a) == Recommended(Recommendation(Hold, Overextended, HighRisk, a.Confidence(),
                                                    a.Current(), a.Current() * 0.95, Orange, None))
  {
  }

  /** Below the minimum confidence the answer is HOLD / GRAY / HIGH with the
      confidence unchanged, even when the oversold flag was set. */
  lemma LowConfidenceHolds(s: Settings, a: AssetAnalysis)
    requires Prefilter(a.RiskReward(), a.Rsi(), a.Distance()).None?
    requires a.Confidence() < s.minConfidence
    ensures Recommend(s, a).Recommended?
    ensures Recommend(s, a).rec.action == Hold && Recommend(s, a).rec.color == Gray
    ensures Recommend(s, a).rec.risk == HighRisk && Recommend(s, a).rec.confidence == a.Confidence()
  {
  }

  /** The trend branches yield BUY exactly for the label BULLISH with
      confidence above 70, at most 15 % above the SMA-200, a volume trend
      other than BULLISH_WEAK and BEARISH_CONFIRMED, and LOW volatility or
      MEDIUM volatility with confidence above 75. */
  lemma BuyCharacterized(trend: Trend, c: real, vol: Volatility, vt: Indicators.VolumeTrend, dist: real)
    ensures TrendDecision(trend, c, vol, vt, dist).action == Buy <==>
      && trend == Bullish && c > 70.0 && dist <= 15.0
      && vt != Indicators.BullishWeak && vt != Indicators.BearishConfirmed
      && (vol == Low || (vol == Medium && c > 75.0))
  {
  }

  /** They yield SELL exactly for BEARISH with confidence above 70, a volume
      trend other than BEARISH_WEAK and BULLISH_CONFIRMED, and LOW volatility
      or MEDIUM volatility with confidence above 75. A BEARISH_WEAK volume
      leaves HOLD at risk MEDIUM, a BULLISH_CONFIRMED one HOLD at risk HIGH. */
  lemma SellCharacterized(trend: Trend, c: real, vol: Volatility, vt: Indicators.VolumeTrend, dist: real)
    ensures TrendDecision(trend, c, vol, vt, dist).action == Sell <==>
      && trend == Bearish && c > 70.0
      && vt != Indicators.BearishWeak && vt != Indicators.BullishConfirmed
      && (vol == Low || (vol == Medium && c > 75.0))
    ensures trend == Bearish && c > 70.0 && vt == Indicators.BearishWeak ==>
      TrendDecision(trend, c, vol, vt, dist) == Decision(Hold, BearishWithoutVolume, MediumRisk, c - 10.0)
    ensures trend == Bearish && c > 70.0 && vt == Indicators.BullishConfirmed ==>
      TrendDecision(trend, c, vol, vt, dist) == Decision(Hold, BearishContradictedByVolume, HighRisk, c - 25.0)
  {
  }

  /** STRONG_BULLISH, STRONG_BEARISH and unknown labels match no branch. */
  lemma StrongTrendsHaveNoBranch(trend: Trend, c: real, vol: Volatility, vt: Indicators.VolumeTrend, dist: real)
    requires trend == StrongBullish || trend == StrongBearish || trend == Unknown
    ensures TrendDecision(trend, c, vol, vt, dist) == Decision(Hold, NoClearSignal, MediumRisk, c)
  {
  }

  /** With the oversold flag and no early return, the answer is BUY in GREEN
      even past the risk-tolerance gate; the confidence gains 10 (capped at
      95) only when the gated action was not already BUY. */
  lemma OversoldBuys(s: Settings, a: AssetAnalysis)
    requires Prefilter(a.RiskReward(), a.Rsi(), a.Distance()).None?
    requires Oversold(a.Rsi(), a.Distance())
    requires a.Confidence() >= s.minConfidence && a.Current() != 0.0
    ensures Recommend(s, a).Recommended?
    ensures Recommend(s, a).rec.action == Buy && Recommend(s, a).rec.color == Green
    ensures Recommend(s, a).rec.reason == OversoldBounce(GatedDecision(s, a).reason)
    ensures Recommend(s, a).rec.confidence ==
      if GatedDecision(s, a).action == Buy then GatedDecision(s, a).confidence
      else MinReal(95.0, GatedDecision(s, a).confidence + 10.0)
  {
  }

  /** Without the oversold flag the colour follows the final action: GREEN
      for BUY, RED for SELL, YELLOW for HOLD; and the stop obeys the ATR
      refinement of the action the targets were computed for. */
  lemma ColorAndStop(s: Settings, a: AssetAnalysis)
    requires Prefilter(a.RiskReward(), a.Rsi(), a.Distance()).None?
    requires !Oversold(a.Rsi(), a.Distance())
    requires a.Confidence() >= s.minConfidence && a.Current() != 0.0
    ensures Recommend(s, a).Recommended?
    ensures Recommend(s, a).rec.color == ColorOf(Recommend(s, a).rec.action)
    ensures TargetAction(a) == Buy ==>
      Recommend(s, a).rec.stop >= a.Current() - 2.0 * a.Atr() && Recommend(s, a).rec.stop >= a.Invalidation()
    ensures TargetAction(a) == Sell ==>
      Recommend(s, a).rec.stop <= a.Current() - 2.0 * a.Atr()
  {
  }

  /** The analyzer's fallback record (confidence 50, no risk/reward and no
      RSI) passes the pre-filters and is held in GRAY by an engine demanding
      more than 50. */
  lemma FallbackAnalysisHolds(s: Settings, data: AssetData)
    requires s.minConfidence > 50.0
    ensures Recommend(s, FromAnalysis(FallbackAnalysis(data))).Recommended?
    ensures Recommend(s, FromAnalysis(FallbackAnalysis(data))).rec.action == Hold
    ensures Recommend(s, FromAnalysis(FallbackAnalysis(data))).rec.color == Gray
  {
  }

  // ---------------------------------------------------------------- sizing

  function BaseSize(risk: RiskLevel): real {
    match risk
    case LowRisk => 0.15
    case MediumRisk => 0.10
    case HighRisk => 0.05
  }

  /** `calculate_position_size`: the base fraction scaled by the risk
      tolerance and capped at the maximum position size. */
  function PositionSize(s: Settings, risk: RiskLevel): (size: real)
    ensures size <= s.maxPositionSize && size <= BaseSize(risk) * s.riskTolerance
    ensures size == s.maxPositionSize || size == BaseSize(risk) * s.riskTolerance
  {
    MinReal(BaseSize(risk) * s.riskTolerance, s.maxPositionSize)
  }

  /** Lower risk never gets a smaller position, and with a non-negative
      tolerance and cap no size is negative. */
  lemma PositionSizeOrdered(s: Settings)
    requires s.riskTolerance >= 0.0 && s.maxPositionSize >= 0.0
    ensures PositionSize(s, LowRisk) >= PositionSize(s, MediumRisk) >= PositionSize(s, HighRisk) >= 0.0
  {
    MulMonotone(0.10, 0.15, s.riskTolerance);
    MulMonotone(0.05, 0.10, s.riskTolerance);
    MulMonotone(0.0, 0.05, s.riskTolerance);
  }

  // ---------------------------------------------------------------- portfolio summary

  datatype Sentiment = BullishMarket | BearishMarket | NeutralMarket

  datatype Summary = Summary(
    totalAssets: nat, buys: nat, sells: nat, holds: nat,
    lowRisk: nat, mediumRisk: nat, highRisk: nat,
    averageConfidence: real, sentiment: Sentiment, overallRisk: RiskLevel)

  function CountAction(recs: seq<Outcome>, action: Action): (n: nat)
    ensures n <= |recs|
    decreases |recs|
  {
    if |recs| == 0 then 0
    else CountAction(recs[..|recs| - 1], action) + (if recs[|recs| - 1].Action() == action then 1 else 0)
  }

  function CountRisk(recs: seq<Outcome>, risk: RiskLevel): (n: nat)
    ensures n <= |recs|
    decreases |recs|
  {
    if |recs| == 0 then 0
    else CountRisk(recs[..|recs| - 1], risk) + (if recs[|recs| - 1].Risk() == risk then 1 else 0)
  }

  function SumConfidence(recs: seq<Outcome>): real
    decreases |recs|
  {
    if |recs| == 0 then 0.0 else SumConfidence(recs[..|recs| - 1]) + recs[|recs| - 1].Confidence()
  }

  /** Every recommendation is counted under exactly one action and one risk level. */
  lemma {:induction false} CountsPartition(recs: seq<Outcome>)
    ensures CountAction(recs, Buy) + CountAction(recs, Sell) + CountAction(recs, Hold) == |recs|
    ensures CountRisk(recs, LowRisk) + CountRisk(recs, MediumRisk) + CountRisk(recs, HighRisk) == |recs|
    decreases |recs|
  {
    if |recs| > 0 {
      CountsPartition(recs[..|recs| - 1]);
    }
  }

  /** `calculate_market_sentiment`. In whole numbers: BULLISH when more
      than 3/5 of the calls are BUY, BEARISH when more than 3/5 are SELL
      (the two cannot both hold), NEUTRAL otherwise and for no calls. */
  function MarketSentiment(buys: nat, sells: nat, holds: nat): (r: Sentiment)
    ensures var total := buys + sells + holds;
      && (r == BullishMarket <==> 5 * buys > 3 * total)
      && (r == BearishMarket <==> 5 * sells > 3 * total)
      && (total == 0 ==> r == NeutralMarket)
  {
    var total := buys + sells + holds;
    if total == 0 then NeutralMarket
    else
      RatioAbove(buys as real, total as real, 0.6);
      RatioAbove(sells as real, total as real, 0.6);
      if buys as real / total as real > 0.6 then BullishMarket
      else if sells as real / total as real > 0.6 then BearishMarket
      else NeutralMarket
  }

  /** `calculate_overall_risk`. In whole numbers: HIGH when more than half
      the calls are HIGH, LOW when at most a fifth are, MEDIUM in between
      and for no calls. */
  function OverallRisk(low: nat, medium: nat, high: nat): (r: RiskLevel)
    ensures var total := low + medium + high;
      && (r == HighRisk <==> 2 * high > total)
      && (r == LowRisk <==> total > 0 && 5 * high <= total)
      && (total == 0 ==> r == MediumRisk)
  {
    var total := low + medium + high;
    if total == 0 then MediumRisk
    else
      RatioAbove(high as real, total as real, 0.5);
      RatioAbove(high as real, total as real, 0.2);
      if high as real / total as real > 0.5 then HighRisk
      else if high as real / total as real > 0.2 then MediumRisk
      else LowRisk
  }

  /** `generate_portfolio_summary` over the recommendations in dictionary order. */
  method PortfolioSummary(recs: seq<Outcome>) returns (summary: Summary)
    ensures summary.totalAssets == |recs|
    ensures summary.buys == CountAction(recs, Buy) && summary.sells == CountAction(recs, Sell)
    ensures summary.holds == CountAction(recs, Hold)
    ensures summary.lowRisk == CountRisk(recs, LowRisk) && summary.mediumRisk == CountRisk(recs, MediumRisk)
    ensures summary.highRisk == CountRisk(recs, HighRisk)
    ensures summary.averageConfidence ==
      if |recs| > 0 then SumConfidence(recs) / |recs| as real else 0.0
    ensures summary.sentiment == MarketSentiment(summary.buys, summary.sells, summary.holds)
    ensures summary.overallRisk == OverallRisk(summary.lowRisk, summary.mediumRisk, summary.highRisk)
  {
    var buys, sells, holds := 0, 0, 0;
    var low, medium, high := 0, 0, 0;
    var confidence := 0.0;
    var i := 0;
    while i < |recs|
      invariant 0 <= i <= |recs|
      invariant buys == CountAction(recs[..i], Buy) && sells == CountAction(recs[..i], Sell)
      invariant holds == CountAction(recs[..i], Hold)
      invariant low == CountRisk(recs[..i], LowRisk) && medium == CountRisk(recs[..i], MediumRisk)
      invariant high == CountRisk(recs[..i], HighRisk)
      invariant confidence == SumConfidence(recs[..i])
    {
      assert recs[..i + 1][..i] == recs[..i];
      var rec := recs[i];
      match rec.Action() {
        case Buy => buys := buys + 1;
        case Sell => sells := sells + 1;
        case Hold => holds := holds + 1;
      }
      match rec.Risk() {
        case LowRisk => low := low + 1;
        case MediumRisk => medium := medium + 1;
        case HighRisk => high := high + 1;
      }
      confidence := confidence + rec.Confidence();
      i := i + 1;
    }
    assert recs[..|recs|] == recs;
    var average := if |recs| > 0 then confidence / |recs| as real else 0.0;
    summary := Summary(|recs|, buys, sells, holds, low, medium, high, average,
                       MarketSentiment(buys, sells, holds), OverallRisk(low, medium, high));
  }

  // ---------------------------------------------------------------- the engine's settings

  /** `max(lo, min(hi, x))`. */
  function Clamp(x: real, lo: real, hi: real): (r: real)
    requires lo <= hi
    ensures lo <= r <= hi
    ensures lo <= x <= hi ==> r == x
    ensures x < lo ==> r == lo
    ensures x > hi ==> r == hi
  {
    MaxReal(lo, MinReal(hi, x))
  }

  /** The engine object: its two tunable fields and the fixed 10 % cap. */
  class Engine {
    var riskTolerance: real
    var minConfidence: real
    const maxPositionSize: real

    ghost predicate Valid()
      reads this
    {
      0.0 <= riskTolerance <= 1.0 && 0.0 <= minConfidence <= 100.0 && maxPositionSize == 0.1
    }

    constructor()
      ensures Valid()
      ensures riskTolerance == 0.5 && minConfidence == 60.0 && maxPositionSize == 0.1
    {
      riskTolerance := 0.5;
      minConfidence := 60.0;
      maxPositionSize := 0.1;
    }

    function CurrentSettings(): (s: Settings)
      reads this
      ensures s.riskTolerance == riskTolerance && s.minConfidence == minConfidence
      ensures s.maxPositionSize == maxPositionSize
    {
      Settings(riskTolerance, minConfidence, maxPositionSize)
    }

    /** `set_risk_tolerance`: stored clamped to [0, 1]. */
    method SetRiskTolerance(tolerance: real)
      requires Valid()
      modifies this
      ensures Valid()
      ensures riskTolerance == Clamp(tolerance, 0.0, 1.0)
      ensures minConfidence == old(minConfidence)
    {
      riskTolerance := Clamp(tolerance, 0.0, 1.0);
    }

    /** `set_min_confidence`: stored clamped to [0, 100]. */
    method SetMinConfidence(confidence: real)
      requires Valid()
      modifies this
      ensures Valid()
      ensures minConfidence == Clamp(confidence, 0.0, 100.0)
      ensures riskTolerance == old(riskTolerance)
    {
      minConfidence := Clamp(confidence, 0.0, 100.0);
    }
  }

  /** A freshly built engine (tolerance 0.5, minimum 60) holds every
      analyzer fallback in GRAY, and sizes at most 7.5 % of the portfolio. */
  lemma DefaultEngineFacts(data: AssetData)
    ensures Recommend(Settings(0.5, 60.0, 0.1), FromAnalysis(FallbackAnalysis(data))).rec.action == Hold
    ensures PositionSize(Settings(0.5, 60.0, 0.1), LowRisk) == 0.075
  {
    FallbackAnalysisHolds(Settings(0.5, 60.0, 0.1), data);
  }
}
