/** The dual-horizon analyzer (crypto_stock_analyzer/src/advanced_ai_analyzer.py):
    integer trend scores over the long (about one year) and short (about one
    month) indicator sets, their 60/40 fusion, confidence, volatility band,
    price projection, pattern tags, risk/reward, and the per-asset analysis
    record. The single-horizon variants the analyzer still carries are
    modelled at the end. */
module TrendFusion {
  import opened Wrappers
  import opened SeqMath
  import Indicators

  type LongSet = Indicators.LongSet
  type ShortSet = Indicators.ShortSet

  /** A trend label. `Unknown` stands for any other label string. */
  datatype Trend = StrongBullish | Bullish | Neutral | Bearish | StrongBearish | Unknown

  datatype Volatility = VeryLow | Low | Medium | High | VeryHigh

  datatype Pattern =
    | OverboughtAnnual | OversoldAnnual
    | YearHighProximity | YearLowProximity
    | OverboughtMonthly | OversoldMonthly
    | MonthHighProximity | MonthLowProximity
    | DualBullishConfirmation | DualBearishConfirmation
    | GoldenCrossAnnual | DeathCrossAnnual
    | StrongAnnualUptrend | StrongAnnualDowntrend
    | MacdBullishCross | MacdBearishCross
    | NeutralPattern

  /** +up / -up / 0 for a value above `hi`, below `lo`, or in between. */
  function Points(x: real, lo: real, hi: real, up: int): int {
    if x > hi then up else if x < lo then -up else 0
  }

  /** Bands a score: at least `strong` is STRONG_BULLISH, at least 1 BULLISH,
      and symmetrically below zero. */
  function ScoreTrend(score: int, strong: int): (t: Trend)
    requires strong > 1
    ensures t != Unknown
    ensures (t == StrongBullish <==> score >= strong) && (t == StrongBearish <==> score <= -strong)
    ensures (t == Bullish <==> 1 <= score < strong) && (t == Bearish <==> -strong < score <= -1)
    ensures t == Neutral <==> score == 0
  {
    if score >= strong then StrongBullish
    else if score >= 1 then Bullish
    else if score <= -strong then StrongBearish
    else if score <= -1 then Bearish
    else Neutral
  }

  // ---------------------------------------------------------------- annual trend

  /** SMA-20 against SMA-50: ±2. */
  function SmaShortPoints(ind: LongSet): int {
    if ind.Sma20() > ind.Sma50() then 2 else if ind.Sma20() < ind.Sma50() then -2 else 0
  }

  /** SMA-50 against SMA-200: ±3. */
  function SmaLongPoints(ind: LongSet): int {
    if ind.Sma50() > ind.Sma200() then 3 else if ind.Sma50() < ind.Sma200() then -3 else 0
  }

  /** Both RSIs high (14 > 60, 30 > 55) or both low (14 < 40, 30 < 45): ±1. */
  function AnnualRsiPoints(ind: LongSet): int {
    if ind.Rsi14() > 60.0 && ind.Rsi30() > 55.0 then 1
    else if ind.Rsi14() < 40.0 && ind.Rsi30() < 45.0 then -1
    else 0
  }

  /** The score of `advanced_trend_analysis`. */
  function AnnualScore(ind: LongSet): (score: int)
    ensures -10 <= score <= 10
  {
    SmaShortPoints(ind) + SmaLongPoints(ind)
    + Points(ind.Momentum3m(), -10.0, 10.0, 1)
    + Points(ind.Momentum6m(), -15.0, 15.0, 2)
    + Points(ind.CurrentPosition(), 0.2, 0.8, 1)
    + AnnualRsiPoints(ind)
  }

  /** `advanced_trend_analysis` (its 24-hour change argument is unused). */
  function AnnualTrend(ind: LongSet): (t: Trend)
    ensures t != Unknown
    ensures t == StrongBullish <==> AnnualScore(ind) >= 4
    ensures t == Bullish <==> 1 <= AnnualScore(ind) < 4
    ensures t == Neutral <==> AnnualScore(ind) == 0
    ensures t == Bearish <==> -4 < AnnualScore(ind) <= -1
    ensures t == StrongBearish <==> AnnualScore(ind) <= -4
  {
    ScoreTrend(AnnualScore(ind), 4)
  }

  /** An empty long set scores 0, so its trend is NEUTRAL. */
  lemma EmptyAnnualIsNeutral()
    ensures AnnualScore(Indicators.EmptyLong) == 0
    ensures AnnualTrend(Indicators.EmptyLong) == Neutral
  {
  }

  /** A missing SMA-200 reads as 0, so any positive SMA-50 adds +3. */
  lemma MissingSma200Bias(ind: LongSet)
    requires ind.sma200.None? && ind.Sma50() > 0.0
    ensures SmaLongPoints(ind) == 3
  {
  }

  function Negate(x: Option<real>): Option<real> {
    match x
    case Some(v) => Some(-v)
    case None => None
  }

  function Reflect(x: Option<real>, pivot: real): Option<real> {
    match x
    case Some(v) => Some(pivot - v)
    case None => None
  }

  /** The mirror image of a long set: averages and momenta negated, RSIs
      reflected about 50 and the range position about 1/2. */
  function MirrorLong(ind: LongSet): LongSet {
    ind.(sma20 := Negate(ind.sma20), sma50 := Negate(ind.sma50), sma200 := Negate(ind.sma200),
         momentum3m := Negate(ind.momentum3m), momentum6m := Negate(ind.momentum6m),
         rsi14 := Reflect(ind.rsi14, 100.0), rsi30 := Reflect(ind.rsi30, 100.0),
         currentPosition := Reflect(ind.currentPosition, 1.0))
  }

  /** The annual score is odd under mirroring: every rule has a mirrored twin,
      and the defaults for missing keys are their own mirror image. */
  lemma AnnualScoreAntisymmetric(ind: LongSet)
    ensures AnnualScore(MirrorLong(ind)) == -AnnualScore(ind)
  {
    var m := MirrorLong(ind);
    assert m.Sma20() == -ind.Sma20() && m.Sma50() == -ind.Sma50() && m.Sma200() == -ind.Sma200();
    assert m.Momentum3m() == -ind.Momentum3m() && m.Momentum6m() == -ind.Momentum6m();
    assert m.Rsi14() == 100.0 - ind.Rsi14() && m.Rsi30() == 100.0 - ind.Rsi30();
    assert m.CurrentPosition() == 1.0 - ind.CurrentPosition();
  }

  /** Mirroring the indicators mirrors the annual label. */
  lemma AnnualTrendAntisymmetric(ind: LongSet)
    ensures AnnualTrend(MirrorLong(ind)) == Mirror(AnnualTrend(ind))
  {
    AnnualScoreAntisymmetric(ind);
  }

  // ---------------------------------------------------------------- monthly trend

  /** The score of `monthly_trend_analysis` for a non-empty set. */
  function MonthlyScore(ind: ShortSet): (score: int)
    ensures -5 <= score <= 5
  {
    Points(ind.Rsi14(), 40.0, 60.0, 2)
    + Points(ind.Momentum1w(), -5.0, 5.0, 2)
    + Points(ind.CurrentMonthPosition(), 0.2, 0.8, 1)
  }

  /** `monthly_trend_analysis`: NEUTRAL for `{}`, otherwise bands ±3 / ±1. */
  function MonthlyTrend(ind: ShortSet): (t: Trend)
    ensures ind == Indicators.EmptyShort ==> t == Neutral
    ensures t != Unknown
    ensures ind != Indicators.EmptyShort ==>
      && (t == StrongBullish <==> MonthlyScore(ind) >= 3)
      && (t == Bullish <==> 1 <= MonthlyScore(ind) < 3)
      && (t == Neutral <==> MonthlyScore(ind) == 0)
      && (t == Bearish <==> -3 < MonthlyScore(ind) <= -1)
      && (t == StrongBearish <==> MonthlyScore(ind) <= -3)
  {
    if ind == Indicators.EmptyShort then Neutral else ScoreTrend(MonthlyScore(ind), 3)
  }

  // ---------------------------------------------------------------- fusion

  function Weight(t: Trend): int {
    match t
    case StrongBullish => 3
    case Bullish => 2
    case Neutral => 0
    case Bearish => -2
    case StrongBearish => -3
    case Unknown => 0
  }

  /** Bands the fused score at ±2 and ±0.5. */
  function FusionBand(score: real): Trend {
    if score >= 2.0 then StrongBullish
    else if score >= 0.5 then Bullish
    else if score <= -2.0 then StrongBearish
    else if score <= -0.5 then Bearish
    else Neutral
  }

  /** `combine_trends`: 60 % annual, 40 % monthly. */
  function CombineTrends(annual: Trend, monthly: Trend): (t: Trend)
    ensures t != Unknown
    ensures var s := 3 * Weight(annual) + 2 * Weight(monthly);
      && (t == StrongBullish <==> s >= 10)
      && (t == Bullish <==> 3 <= s < 10)
      && (t == Neutral <==> -3 < s < 3)
      && (t == Bearish <==> -10 < s <= -3)
      && (t == StrongBearish <==> s <= -10)
  {
    FusionBand(Weight(annual) as real * 0.6 + Weight(monthly) as real * 0.4)
  }

  /** Position in the order STRONG_BEARISH < BEARISH < NEUTRAL < BULLISH <
      STRONG_BULLISH; an unknown label weighs like NEUTRAL. */
  function Rank(t: Trend): int {
    match t
    case StrongBearish => 0
    case Bearish => 1
    case Neutral => 2
    case Unknown => 2
    case Bullish => 3
    case StrongBullish => 4
  }

  function Mirror(t: Trend): Trend {
    match t
    case StrongBullish => StrongBearish
    case Bullish => Bearish
    case Neutral => Neutral
    case Bearish => Bullish
    case StrongBearish => StrongBullish
    case Unknown => Unknown
  }

  lemma WeightMonotone(a: Trend, b: Trend)
    requires Rank(a) <= Rank(b)
    ensures Weight(a) <= Weight(b)
  {
  }

  lemma FusionBandMonotone(x: real, y: real)
    requires x <= y
    ensures Rank(FusionBand(x)) <= Rank(FusionBand(y))
  {
  }

  /** `combine_trends` is monotone in each argument. */
  lemma CombineMonotone(a1: Trend, a2: Trend, m1: Trend, m2: Trend)
    requires Rank(a1) <= Rank(a2) && Rank(m1) <= Rank(m2)
    ensures Rank(CombineTrends(a1, m1)) <= Rank(CombineTrends(a2, m2))
  {
    WeightMonotone(a1, a2);
    WeightMonotone(m1, m2);
    FusionBandMonotone(Weight(a1) as real * 0.6 + Weight(m1) as real * 0.4,
                       Weight(a2) as real * 0.6 + Weight(m2) as real * 0.4);
  }

  /** Mirroring both inputs mirrors the fused label. */
  lemma CombineSignSymmetric(a: Trend, m: Trend)
    ensures CombineTrends(Mirror(a), Mirror(m)) == Mirror(CombineTrends(a, m))
  {
    assert Weight(Mirror(a)) == -Weight(a) && Weight(Mirror(m)) == -Weight(m);
  }

  /** Unknown labels weigh 0, exactly like NEUTRAL; two BULLISH make STRONG_BULLISH. */
  lemma CombineFacts(t: Trend)
    ensures CombineTrends(Unknown, t) == CombineTrends(Neutral, t)
    ensures CombineTrends(t, Unknown) == CombineTrends(t, Neutral)
    ensures CombineTrends(Bullish, Bullish) == StrongBullish
    ensures CombineTrends(Bearish, Bearish) == StrongBearish
  {
  }

  // ---------------------------------------------------------------- confidence

  /** `calculate_dual_confidence` (its 24-hour change argument is unused). */
  function DualConfidence(annual: LongSet, monthly: ShortSet, volume: real): (c: int)
    ensures 25 <= c <= 95
    ensures 50 <= c <= 85
  {
    var annualPart :=
      if annual == Indicators.EmptyLong then 0
      else (if Abs(annual.Rsi14() - annual.Rsi30()) < 10.0 then 9 else 0)
           + (if 0.2 < annual.VolatilityAnnual() < 0.8 then 6 else 0);
    var monthlyPart :=
      if monthly == Indicators.EmptyShort then 0
      else (if 40.0 <= monthly.Rsi14() <= 60.0 then 6 else 0)
           + (if 0.1 < monthly.Volatility10d() < 0.4 then 4 else 0);
    var volumePart := if volume > 10000000.0 then 10 else if volume > 5000000.0 then 5 else 0;
    MinInt(95, MaxInt(25, 50 + annualPart + monthlyPart + volumePart))
  }

  // ---------------------------------------------------------------- volatility

  function VolatilityBand(v: real): Volatility {
    if v > 0.8 then VeryHigh
    else if v > 0.5 then High
    else if v > 0.3 then Medium
    else if v > 0.15 then Low
    else VeryLow
  }

  /** The volatilities present: the annual one (default 0.5) if the long set
      is non-empty, then the 10-day one (default 0.5) if the short set is. */
  function VolatilityScores(annual: LongSet, monthly: ShortSet): seq<real> {
    (if annual != Indicators.EmptyLong then [annual.VolatilityAnnual()] else [])
    + (if monthly != Indicators.EmptyShort then [monthly.Volatility10d()] else [])
  }

  /** `determine_dual_volatility`: MEDIUM when both sets are empty;
      otherwise the band of the present volatility, or of the mean of both. */
  function DualVolatility(annual: LongSet, monthly: ShortSet): (v: Volatility)
    ensures annual == Indicators.EmptyLong && monthly == Indicators.EmptyShort ==> v == Medium
    ensures annual != Indicators.EmptyLong && monthly == Indicators.EmptyShort ==>
      v == VolatilityBand(annual.VolatilityAnnual())
    ensures annual == Indicators.EmptyLong && monthly != Indicators.EmptyShort ==>
      v == VolatilityBand(monthly.Volatility10d())
    ensures annual != Indicators.EmptyLong && monthly != Indicators.EmptyShort ==>
      v == VolatilityBand((annual.VolatilityAnnual() + monthly.Volatility10d()) / 2.0)
  {
    var scores := VolatilityScores(annual, monthly);
    if |scores| == 0 then Medium
    else
      MeanOfOneOrTwo(scores);
      VolatilityBand(Mean(scores))
  }

  /** The mean of a one- or two-element list. */
  lemma MeanOfOneOrTwo(s: seq<real>)
    requires 1 <= |s| <= 2
    ensures |s| == 1 ==> Mean(s) == s[0]
    ensures |s| == 2 ==> Mean(s) == (s[0] + s[1]) / 2.0
  {
    if |s| == 1 {
      assert Sum(s) == Sum(s[..0]) + s[0];
    } else {
      assert s[..1][..0] == [];
      assert Sum(s) == Sum(s[..1]) + s[1];
      assert Sum(s[..1]) == s[0];
    }
  }

  // ---------------------------------------------------------------- projection

  function TrendMultiplier(t: Trend): real {
    match t
    case StrongBullish => 1.05
    case Bullish => 1.03
    case Neutral => 1.01
    case Bearish => 0.98
    case StrongBearish => 0.95
    case Unknown => 1.01
  }

  /** The trend multiplier grows with the trend's rank. */
  lemma TrendMultiplierMonotone(a: Trend, b: Trend)
    requires Rank(a) <= Rank(b)
    ensures TrendMultiplier(a) <= TrendMultiplier(b)
  {
  }

  /** `dual_price_prediction`. */
  function DualPricePrediction(current: real, annual: LongSet, monthly: ShortSet, trend: Trend): (r: real)
    ensures annual == Indicators.EmptyLong && monthly == Indicators.EmptyShort ==>
      r == current * TrendMultiplier(trend)
  {
    var m0 := TrendMultiplier(trend);
    var m1 :=
      if annual == Indicators.EmptyLong then m0
      else if annual.CurrentPosition() > 0.85 then m0 * 0.98
      else if annual.CurrentPosition() < 0.15 then m0 * 1.02
      else m0;
    var m2 :=
      if monthly == Indicators.EmptyShort then m1
      else if monthly.CurrentMonthPosition() > 0.9 then m1 * 0.99
      else if monthly.CurrentMonthPosition() < 0.1 then m1 * 1.01
      else m1;
    var momentum :=
      1.0
      + (if annual == Indicators.EmptyLong then 0.0 else annual.Momentum3m() / 100.0 * 0.2)
      + (if monthly == Indicators.EmptyShort then 0.0 else monthly.Momentum1w() / 100.0 * 0.1);
    current * (m2 * momentum)
  }

  /** With no indicators the projection is the current price times the trend
      multiplier; with a positive price it is above the current price
      exactly for the non-bearish labels. */
  lemma EmptyProjection(current: real, trend: Trend)
    ensures DualPricePrediction(current, Indicators.EmptyLong, Indicators.EmptyShort, trend) ==
      current * TrendMultiplier(trend)
    ensures current > 0.0 ==>
      (DualPricePrediction(current, Indicators.EmptyLong, Indicators.EmptyShort, trend) > current
       <==> Rank(trend) >= 2)
  {
    if current > 0.0 {
      var m := TrendMultiplier(trend);
      MulSign(m - 1.0, current);
      assert (m - 1.0) * current == current * m - current;
    }
  }

  // ---------------------------------------------------------------- patterns

  /** No single-horizon tag is a confirmation or the neutral fallback; the
      list is empty exactly when the RSI and the position are inside their
      bands (or the set is empty). */
  function AnnualTags(annual: LongSet): (r: seq<Pattern>)
    ensures forall i :: 0 <= i < |r| ==> r[i] !in {NeutralPattern, DualBullishConfirmation, DualBearishConfirmation}
    ensures r == [] <==>
      (annual == Indicators.EmptyLong || (30.0 <= annual.Rsi14() <= 70.0 && 0.1 <= annual.CurrentPosition() <= 0.9))
  {
    if annual == Indicators.EmptyLong then []
    else
      (if annual.Rsi14() > 70.0 then [OverboughtAnnual]
       else if annual.Rsi14() < 30.0 then [OversoldAnnual] else [])
      + (if annual.CurrentPosition() > 0.9 then [YearHighProximity]
         else if annual.CurrentPosition() < 0.1 then [YearLowProximity] else [])
  }

  function MonthlyTags(monthly: ShortSet): (r: seq<Pattern>)
    ensures forall i :: 0 <= i < |r| ==> r[i] !in {NeutralPattern, DualBullishConfirmation, DualBearishConfirmation}
    ensures r == [] <==>
      (monthly == Indicators.EmptyShort || (30.0 <= monthly.Rsi14() <= 70.0 && 0.15 <= monthly.CurrentMonthPosition() <= 0.85))
  {
    if monthly == Indicators.EmptyShort then []
    else
      (if monthly.Rsi14() > 70.0 then [OverboughtMonthly]
       else if monthly.Rsi14() < 30.0 then [OversoldMonthly] else [])
      + (if monthly.CurrentMonthPosition() > 0.85 then [MonthHighProximity]
         else if monthly.CurrentMonthPosition() < 0.15 then [MonthLowProximity] else [])
  }

  function TrendTags(trend: Trend): (r: seq<Pattern>)
    ensures NeutralPattern !in r
    ensures DualBullishConfirmation in r <==> trend == StrongBullish
    ensures DualBearishConfirmation in r <==> trend == StrongBearish
    ensures r == [] <==> trend != StrongBullish && trend != StrongBearish
  {
    if trend == StrongBullish then [DualBullishConfirmation]
    else if trend == StrongBearish then [DualBearishConfirmation]
    else []
  }

  /** `identify_dual_patterns`. */
  function DualPatterns(annual: LongSet, monthly: ShortSet, trend: Trend): (ps: seq<Pattern>)
    ensures |ps| > 0
  {
    var tags := AnnualTags(annual) + MonthlyTags(monthly) + TrendTags(trend);
    if |tags| > 0 then tags else [NeutralPattern]
  }

  /** The tag list contains DUAL_BULLISH_CONFIRMATION exactly for a
      STRONG_BULLISH trend (and likewise for the bearish side), and
      NEUTRAL_PATTERN only as the whole list. */
  lemma DualConfirmations(annual: LongSet, monthly: ShortSet, trend: Trend)
    ensures DualBullishConfirmation in DualPatterns(annual, monthly, trend) <==> trend == StrongBullish
    ensures DualBearishConfirmation in DualPatterns(annual, monthly, trend) <==> trend == StrongBearish
    ensures NeutralPattern in DualPatterns(annual, monthly, trend) ==>
      DualPatterns(annual, monthly, trend) == [NeutralPattern]
  {
    var a, m, t := AnnualTags(annual), MonthlyTags(monthly), TrendTags(trend);
    assert NeutralPattern !in a && NeutralPattern !in m;
    assert DualBullishConfirmation !in a + m && DualBearishConfirmation !in a + m;
    if |a + m + t| > 0 {
      assert (a + m + t)[0] in a + m + t;
    }
  }

  /** The list is `[NEUTRAL_PATTERN]` exactly when no rule fires: each
      present set has an RSI in [30, 70] and a position inside its proximity
      bands, and the trend is not STRONG_*. */
  lemma DualNeutralCharacterized(annual: LongSet, monthly: ShortSet, trend: Trend)
    ensures DualPatterns(annual, monthly, trend) == [NeutralPattern] <==>
      && (annual == Indicators.EmptyLong ||
          (30.0 <= annual.Rsi14() <= 70.0 && 0.1 <= annual.CurrentPosition() <= 0.9))
      && (monthly == Indicators.EmptyShort ||
          (30.0 <= monthly.Rsi14() <= 70.0 && 0.15 <= monthly.CurrentMonthPosition() <= 0.85))
      && trend != StrongBullish && trend != StrongBearish
  {
    var a, m, t := AnnualTags(annual), MonthlyTags(monthly), TrendTags(trend);
    if |a + m + t| > 0 {
      assert (a + m + t)[0] != NeutralPattern;
    }
  }

  // ---------------------------------------------------------------- risk / reward

  /** `calculate_dual_risk_reward`: weighted upside over weighted downside,
      or 2.0 when there is no downside. The source divides by the current
      price whenever a set is present. */
  function DualRiskReward(annual: LongSet, monthly: ShortSet, current: real): (r: real)
    requires current != 0.0 || (annual == Indicators.EmptyLong && monthly == Indicators.EmptyShort)
    ensures annual == Indicators.EmptyLong && monthly == Indicators.EmptyShort ==> r == 2.0
    ensures current > 0.0 && Brackets(annual, monthly, current) ==> r >= 0.0
  {
    var upside :=
      (if annual == Indicators.EmptyLong then 0.0
       else (annual.YearHigh(current) - current) / current * 0.7)
      + (if monthly == Indicators.EmptyShort then 0.0
         else (monthly.MonthHigh(current) - current) / current * 0.3);
    var downside :=
      (if annual == Indicators.EmptyLong then 0.0
       else (current - annual.YearLow(current)) / current * 0.7)
      + (if monthly == Indicators.EmptyShort then 0.0
         else (current - monthly.MonthLow(current)) / current * 0.3);
    if downside > 0.0 then upside / downside else 2.0
  }

  /** Each present set's high is at or above the current price and its low
      at or below it. */
  predicate Brackets(annual: LongSet, monthly: ShortSet, current: real) {
    && (annual == Indicators.EmptyLong || annual.YearLow(current) <= current <= annual.YearHigh(current))
    && (monthly == Indicators.EmptyShort || monthly.MonthLow(current) <= current <= monthly.MonthHigh(current))
  }

  // ---------------------------------------------------------------- per-asset record

  /** One asset's entry in the collected data file; `None` is a missing key.
      An asset without `indicators` / `monthly_indicators` has the empty sets. */
  datatype AssetData = AssetData(
    currentPrice: Option<real>, volume24h: Option<real>,
    indicators: LongSet, monthlyIndicators: ShortSet)

  datatype Depth = Dual1Yr1Mo | Limited

  /** The `indicators` text: the detected tags joined, or the fixed
      `RSI, MACD, Volume, SMA` of the fallback record. */
  datatype Tags = Detected(patterns: seq<Pattern>) | DefaultTags

  /** The keys only the full record carries. Of the formatted metric
      dictionaries only the annual RSI is kept, because the decision engine
      reads it back. */
  datatype Details = Details(
    annualRsi14: Option<real>,
    riskReward: real, volumeTrend: Indicators.VolumeTrend, distanceToSma200Pct: real,
    invalidationLevel: real, invalidationDistancePct: real,
    atr: real, atrPct: real, dynamicStopLoss: real)

  datatype Analysis = Analysis(
    trend: Trend, annualTrend: Trend, monthlyTrend: Trend,
    confidence: int, volatility: Volatility, tags: Tags,
    predictedPrice: real, currentPrice: real, priceChangePct: real,
    depth: Depth, details: Option<Details>)

  /** The record the exception handler stores: every division by the current
      price fails when it is 0. */
  function FallbackAnalysis(data: AssetData): (r: Analysis)
    ensures r.depth == Limited && r.details.None? && r.tags == DefaultTags
    ensures r.trend == Neutral && r.annualTrend == Neutral && r.monthlyTrend == Neutral
    ensures r.confidence == 50 && r.volatility == Medium
    ensures r.predictedPrice == r.currentPrice && r.priceChangePct == 0.0
    ensures r.currentPrice == if data.currentPrice.Some? then data.currentPrice.value else 100.0
  {
    var price := data.currentPrice.GetOr(100.0);
    Analysis(Neutral, Neutral, Neutral, 50, Medium, DefaultTags, price, price, 0.0, Limited, None)
  }

  /** The loop body of `analyze_market` for one asset. */
  function AnalyzeAsset(data: AssetData): (a: Analysis)
    ensures a.depth == Limited <==> data.currentPrice.GetOr(0.0) == 0.0
    ensures a.depth == Limited ==> a == FallbackAnalysis(data)
    ensures a.depth == Dual1Yr1Mo ==> a.currentPrice != 0.0 && a.details.Some?
    ensures a.depth == Dual1Yr1Mo ==>
      var current, annual, monthly := data.currentPrice.value, data.indicators, data.monthlyIndicators;
      && a.currentPrice == current
      && a.annualTrend == AnnualTrend(annual) && a.monthlyTrend == MonthlyTrend(monthly)
      && a.trend == CombineTrends(a.annualTrend, a.monthlyTrend)
      && a.confidence == DualConfidence(annual, monthly, data.volume24h.GetOr(0.0))
      && a.volatility == DualVolatility(annual, monthly)
      && a.tags == Detected(DualPatterns(annual, monthly, a.trend))
      && a.predictedPrice == DualPricePrediction(current, annual, monthly, a.trend)
      && a.priceChangePct == Percent(a.predictedPrice - current, current)
      && a.details.value.annualRsi14 == annual.rsi14
      && a.details.value.riskReward == DualRiskReward(annual, monthly, current)
      && a.details.value.volumeTrend == annual.VolumeTrendOr()
      && a.details.value.distanceToSma200Pct == annual.DistanceToSma200()
      && a.details.value.invalidationLevel == annual.InvalidationLevelOr(current)
      && a.details.value.invalidationDistancePct == Percent(current - a.details.value.invalidationLevel, current)
      && a.details.value.atr == annual.AtrOr(current)
      && a.details.value.atrPct == Percent(a.details.value.atr, current)
      && a.details.value.dynamicStopLoss == current - 2.0 * a.details.value.atr
  {
    var current := data.currentPrice.GetOr(0.0);
    if current == 0.0 then FallbackAnalysis(data)
    else
      var annual, monthly := data.indicators, data.monthlyIndicators;
      var annualTrend := AnnualTrend(annual);
      var monthlyTrend := MonthlyTrend(monthly);
      var trend := CombineTrends(annualTrend, monthlyTrend);
      var predicted := DualPricePrediction(current, annual, monthly, trend);
      var invalidation := annual.InvalidationLevelOr(current);
      var atr := annual.AtrOr(current);
      var details := Details(
        annual.rsi14,
        DualRiskReward(annual, monthly, current),
        annual.VolumeTrendOr(), annual.DistanceToSma200(),
        invalidation, Percent(current - invalidation, current),
        atr, Percent(atr, current), current - 2.0 * atr);
      Analysis(trend, annualTrend, monthlyTrend,
               DualConfidence(annual, monthly, data.volume24h.GetOr(0.0)),
               DualVolatility(annual, monthly),
               Detected(DualPatterns(annual, monthly, trend)),
               predicted, current, Percent(predicted - current, current),
               Dual1Yr1Mo, Some(details))
  }

  /** `part` as a percentage of `whole`: times `whole` it is a hundred times
      `part`. */
  function Percent(part: real, whole: real): (r: real)
    requires whole != 0.0
    ensures r * whole == part * 100.0
  {
    assert part / whole * whole == part;
    part / whole * 100.0
  }

  /** An asset with a price but no indicators: NEUTRAL everywhere, MEDIUM
      volatility, only NEUTRAL_PATTERN, a 1 % projected rise, a 2.0
      risk/reward, and the default 5 % invalidation and 2 % ATR. */
  lemma AnalyzeWithoutIndicators(data: AssetData)
    requires data.currentPrice.GetOr(0.0) != 0.0
    requires data.indicators == Indicators.EmptyLong && data.monthlyIndicators == Indicators.EmptyShort
    ensures AnalyzeAsset(data).trend == Neutral
    ensures AnalyzeAsset(data).volatility == Medium
    ensures AnalyzeAsset(data).tags == Detected([NeutralPattern])
    ensures AnalyzeAsset(data).priceChangePct == 1.0
    ensures AnalyzeAsset(data).details.value.riskReward == 2.0
    ensures AnalyzeAsset(data).details.value.invalidationDistancePct == 5.0
    ensures AnalyzeAsset(data).details.value.atrPct == 2.0
  {
    var c := data.currentPrice.GetOr(0.0);
    EmptyAnnualIsNeutral();
    assert MonthlyTrend(Indicators.EmptyShort) == Neutral;
    assert CombineTrends(Neutral, Neutral) == Neutral;
    EmptyProjection(c, Neutral);
    DualNeutralCharacterized(Indicators.EmptyLong, Indicators.EmptyShort, Neutral);
    assert (c * 1.01 - c) / c == 0.01;
    assert (c - c * 0.95) / c == 0.05;
    assert c * 0.02 / c == 0.02;
  }

  /** The whole result: one record per asset key. */
  function AnalyzeMarket(latest: map<string, AssetData>): (results: map<string, Analysis>)
    ensures results.Keys == latest.Keys
    ensures forall k :: k in latest ==> results[k] == AnalyzeAsset(latest[k])
  {
    map k | k in latest :: AnalyzeAsset(latest[k])
  }

  // ---------------------------------------------------------------- single-horizon variants

  /** `calculate_advanced_confidence`. */
  function AdvancedConfidence(ind: LongSet, change24h: real, volume: real): (c: int)
    ensures 50 <= c <= 95
  {
    var volatility := ind.VolatilityAnnual();
    var m3, m6 := ind.Momentum3m(), ind.Momentum6m();
    var total :=
      50
      + (if Abs(ind.Rsi14() - ind.Rsi30()) < 10.0 then 15 else 0)
      + (if volume > 10000000.0 then 10 else if volume > 5000000.0 then 5 else 0)
      + (if 0.2 < volatility < 0.8 then 10 else if volatility <= 0.2 then 15 else 0)
      + (if 0.3 <= ind.CurrentPosition() <= 0.7 then 10 else 0)
      + (if (m3 > 0.0 && m6 > 0.0) || (m3 < 0.0 && m6 < 0.0) then 15 else 0)
      + (if Abs(change24h) > 5.0 then 10 else if Abs(change24h) > 2.0 then 5 else 0);
    MinInt(95, MaxInt(25, total))
  }

  /** `determine_advanced_volatility`: the band of the mean of the annual
      volatility and the Bollinger width. */
  function AdvancedVolatility(ind: LongSet): (v: Volatility)
    ensures var c := (ind.VolatilityAnnual() + ind.BbWidth()) / 2.0;
      && (v == VeryHigh <==> c > 0.8)
      && (v == High <==> 0.5 < c <= 0.8)
      && (v == Medium <==> 0.3 < c <= 0.5)
      && (v == Low <==> 0.15 < c <= 0.3)
      && (v == VeryLow <==> c <= 0.15)
  {
    VolatilityBand((ind.VolatilityAnnual() + ind.BbWidth()) / 2.0)
  }

  /** An empty set reads volatility 0.5 and width 0.1; their mean 0.3 is
      not above the MEDIUM threshold, so the band is LOW. */
  lemma EmptyAdvancedVolatility()
    ensures AdvancedVolatility(Indicators.EmptyLong) == Low
  {
  }

  /** `advanced_price_prediction`: the trend multiplier, corrected near the
      ends of the yearly range, by 30 % of the 3-month momentum, and for a
      very high or very low volatility. Without any of these corrections it
      is the trend multiplier alone. */
  function AdvancedPricePrediction(current: real, ind: LongSet, trend: Trend): (r: real)
    ensures 0.15 <= ind.CurrentPosition() <= 0.85 && ind.Momentum3m() == 0.0 &&
            0.2 <= ind.VolatilityAnnual() <= 0.7 ==>
      r == current * TrendMultiplier(trend)
  {
    current * AdvancedMultiplier(ind, trend)
  }

  /** The multiplier of `advanced_price_prediction`, corrected step by step. */
  function AdvancedMultiplier(ind: LongSet, trend: Trend): real {
    VolatilityCorrection(ind, MomentumCorrection(ind, RangeCorrection(ind, TrendMultiplier(trend))))
  }

  /** Near the top of the yearly range the multiplier drops 2 %, near the
      bottom it rises 2 %. */
  function RangeCorrection(ind: LongSet, m: real): real {
    if ind.CurrentPosition() > 0.85 then m * 0.98
    else if ind.CurrentPosition() < 0.15 then m * 1.02
    else m
  }

  /** 30 % of the 3-month momentum. */
  function MomentumCorrection(ind: LongSet, m: real): real {
    m * (1.0 + ind.Momentum3m() / 100.0 * 0.3)
  }

  /** A very volatile asset moves 1 % more, a very calm one 1 % less. */
  function VolatilityCorrection(ind: LongSet, m: real): real {
    if ind.VolatilityAnnual() > 0.7 then m * 1.01
    else if ind.VolatilityAnnual() < 0.2 then m * 0.99
    else m
  }

  /** While the 3-month momentum is above -1000/3 % (so that its
      correction factor is not negative), a more bullish label never lowers
      the multiplier. */
  lemma AdvancedMultiplierMonotone(ind: LongSet, a: Trend, b: Trend)
    requires 1.0 + ind.Momentum3m() / 100.0 * 0.3 >= 0.0
    requires Rank(a) <= Rank(b)
    ensures AdvancedMultiplier(ind, a) <= AdvancedMultiplier(ind, b)
  {
    TrendMultiplierMonotone(a, b);
    var r1a, r1b := RangeCorrection(ind, TrendMultiplier(a)), RangeCorrection(ind, TrendMultiplier(b));
    CorrectionsMonotone(ind, TrendMultiplier(a), TrendMultiplier(b));
    CorrectionsMonotone(ind, r1a, r1b);
    CorrectionsMonotone(ind, MomentumCorrection(ind, r1a), MomentumCorrection(ind, r1b));
  }

  /** Each correction keeps the order of two multipliers. */
  lemma CorrectionsMonotone(ind: LongSet, x: real, y: real)
    requires x <= y && 1.0 + ind.Momentum3m() / 100.0 * 0.3 >= 0.0
    ensures RangeCorrection(ind, x) <= RangeCorrection(ind, y)
    ensures MomentumCorrection(ind, x) <= MomentumCorrection(ind, y)
    ensures VolatilityCorrection(ind, x) <= VolatilityCorrection(ind, y)
  {
    MulMonotone(x, y, 1.0 + ind.Momentum3m() / 100.0 * 0.3);
  }

  /** The tags `identify_annual_patterns` appends before its MACD rule. */
  function AnnualTrendTags(ind: LongSet): (ps: seq<Pattern>)
    ensures forall i :: 0 <= i < |ps| ==> ps[i] !in {MacdBullishCross, MacdBearishCross, NeutralPattern}
    ensures GoldenCrossAnnual in ps ==> ind.Sma20() > ind.Sma200()
  {
    (if ind.Rsi14() > 70.0 then [OverboughtAnnual]
     else if ind.Rsi14() < 30.0 then [OversoldAnnual] else [])
    + (if ind.Sma20() > ind.Sma50() && ind.Sma50() > ind.Sma200() then [GoldenCrossAnnual]
       else if ind.Sma20() < ind.Sma50() && ind.Sma50() < ind.Sma200() then [DeathCrossAnnual] else [])
    + (if ind.CurrentPosition() > 0.9 then [YearHighProximity]
       else if ind.CurrentPosition() < 0.1 then [YearLowProximity] else [])
    + (if ind.Momentum6m() > 30.0 then [StrongAnnualUptrend]
       else if ind.Momentum6m() < -30.0 then [StrongAnnualDowntrend] else [])
  }

  /** `identify_annual_patterns`. */
  function AnnualPatterns(ind: LongSet): (ps: seq<Pattern>)
    ensures |ps| > 0
  {
    AnnualTrendTags(ind) + [if ind.Macd() > ind.MacdSignal() then MacdBullishCross else MacdBearishCross]
  }

  /** The MACD rule always fires, so the annual list ends with exactly one
      MACD tag and never falls back to NEUTRAL_PATTERN; a golden cross
      implies the SMA-20 is above the SMA-200. */
  lemma AnnualPatternsFacts(ind: LongSet)
    ensures var ps := AnnualPatterns(ind);
      && ps[|ps| - 1] == (if ind.Macd() > ind.MacdSignal() then MacdBullishCross else MacdBearishCross)
      && NeutralPattern !in ps
      && (MacdBullishCross in ps) != (MacdBearishCross in ps)
      && (GoldenCrossAnnual in ps ==> ind.Sma20() > ind.Sma200())
  {
    var init := AnnualTrendTags(ind);
    assert MacdBullishCross !in init && MacdBearishCross !in init && NeutralPattern !in init;
  }

  /** `calculate_risk_reward_ratio`: for a positive price, the distance up
      to the year high over the distance down to the year low, or 2.0 when
      the price is at or below the year low. */
  function RiskRewardRatio(ind: LongSet, current: real): (r: real)
    requires current != 0.0
    ensures current > 0.0 && ind.YearLow(current) >= current ==> r == 2.0
    ensures current > 0.0 && ind.YearLow(current) < current ==>
      r == (ind.YearHigh(current) - current) / (current - ind.YearLow(current))
    ensures current > 0.0 && ind.YearLow(current) < current <= ind.YearHigh(current) ==> r >= 0.0
  {
    var upside := (ind.YearHigh(current) - current) / current;
    var downside := (current - ind.YearLow(current)) / current;
    DistanceRatio(ind.YearHigh(current), ind.YearLow(current), current);
    if downside > 0.0 then upside / downside else 2.0
  }

  /** For a positive price the downside is positive exactly when the low is
      below the price, and the ratio of the two relative distances is the
      ratio of the distances. */
  lemma DistanceRatio(high: real, low: real, current: real)
    ensures current > 0.0 ==> ((current - low) / current > 0.0 <==> low < current)
    ensures current > 0.0 && low < current ==>
      ((high - current) / current) / ((current - low) / current) == (high - current) / (current - low)
    ensures current > 0.0 && low < current <= high ==> (high - current) / (current - low) >= 0.0
  {
    if current > 0.0 {
      RatioAbove(current - low, current, 0.0);
      if low < current {
        CancelDivisor(high - current, current - low, current);
        if current <= high {
          DivBetween(high - current, current - low, 0.0, (high - current) / (current - low));
        }
      }
    }
  }

  /** Dividing both terms of a ratio by the same number leaves it unchanged. */
  lemma CancelDivisor(u: real, d: real, c: real)
    requires c != 0.0 && d != 0.0
    ensures (u / c) / (d / c) == u / d
  {
    var q := u / d;
    assert u == q * d;
    assert u / c == q * (d / c);
  }

  /** With the default year high and low (1.5 and 0.5 times a positive
      price) the ratio is 1. */
  lemma DefaultRiskReward(current: real)
    requires current > 0.0
    ensures RiskRewardRatio(Indicators.EmptyLong, current) == 1.0
  {
    assert (current * 1.5 - current) / current == 0.5;
    assert (current - current * 0.5) / current == 0.5;
  }
}
