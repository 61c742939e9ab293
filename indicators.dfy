/** Indicator math of the market-data collector
    (crypto_stock_analyzer/src/real_data_collector.py): RSI, EMA, ATR, the
    volume-trend classifier, the support-based invalidation level, the long
    (about one year) and short (about one month) indicator sets, and the
    watchlist price-alert check.

    An indicator set is a dictionary whose keys may be missing; here it is a
    record of optional fields, `EmptyLong` / `EmptyShort` standing for `{}`.
    The defaults the analyzer reads for a missing key are the member
    functions of the two records, so that each is written once. */
module Indicators {
  import opened Wrappers
  import opened SeqMath
  import Text

  datatype VolumeTrend =
    | InsufficientData
    | BullishConfirmed | BullishWeak | BullishNeutral
    | BearishConfirmed | BearishWeak | BearishNeutral
    | Accumulation | Neutral
    | Error

  /** One sample of a price series (its timestamp is not modelled). */
  datatype PricePoint = PricePoint(price: real, volume: real)

  function Prices(data: seq<PricePoint>): (p: seq<real>)
    ensures |p| == |data| && forall i :: 0 <= i < |data| ==> p[i] == data[i].price
  {
    seq(|data|, i requires 0 <= i < |data| => data[i].price)
  }

  function Volumes(data: seq<PricePoint>): (v: seq<real>)
    ensures |v| == |data| && forall i :: 0 <= i < |data| ==> v[i] == data[i].volume
  {
    seq(|data|, i requires 0 <= i < |data| => data[i].volume)
  }

  // ---------------------------------------------------------------- RSI

  function Gain(change: real): (g: real)
    ensures g >= 0.0
  {
    if change > 0.0 then change else 0.0
  }

  function Loss(change: real): (l: real)
    ensures l >= 0.0
  {
    if change > 0.0 then 0.0 else Abs(change)
  }

  /** The `gains` list of `calculate_rsi`: one entry per consecutive pair. */
  function Gains(prices: seq<real>): (g: seq<real>)
    ensures |g| == if |prices| == 0 then 0 else |prices| - 1
    ensures forall i :: 0 <= i < |g| ==> g[i] >= 0.0
    decreases |prices|
  {
    if |prices| < 2 then []
    else Gains(prices[..|prices| - 1]) + [Gain(prices[|prices| - 1] - prices[|prices| - 2])]
  }

  /** The `losses` list of `calculate_rsi`. */
  function Losses(prices: seq<real>): (l: seq<real>)
    ensures |l| == if |prices| == 0 then 0 else |prices| - 1
    ensures forall i :: 0 <= i < |l| ==> l[i] >= 0.0
    decreases |prices|
  {
    if |prices| < 2 then []
    else Losses(prices[..|prices| - 1]) + [Loss(prices[|prices| - 1] - prices[|prices| - 2])]
  }

  function AvgGain(prices: seq<real>, period: nat): (a: real)
    requires period >= 1 && |prices| >= period + 1
    ensures a >= 0.0
  {
    var g := Last(Gains(prices), period);
    SumNonNeg(g);
    Sum(g) / period as real
  }

  function AvgLoss(prices: seq<real>, period: nat): (a: real)
    requires period >= 1 && |prices| >= period + 1
    ensures a >= 0.0
  {
    var l := Last(Losses(prices), period);
    SumNonNeg(l);
    Sum(l) / period as real
  }

  /** The closing formula of `calculate_rsi`: 100 - 100/(1 + avgGain/avgLoss),
      or 100 when there were no losses. */
  function RsiFromAverages(avgGain: real, avgLoss: real): (r: real)
    requires avgGain >= 0.0 && avgLoss >= 0.0
    ensures 0.0 <= r <= 100.0
    ensures r == 100.0 <==> avgLoss == 0.0
  {
    if avgLoss > 0.0 then
      var rs := avgGain / avgLoss;
      DivBetween(avgGain, avgLoss, 0.0, rs);
      DivBetween(100.0, 1.0 + rs, 0.0, 100.0);
      assert 100.0 / (1.0 + rs) > 0.0 by {
        assert 100.0 / (1.0 + rs) * (1.0 + rs) == 100.0;
      }
      100.0 - 100.0 / (1.0 + rs)
    else 100.0
  }

  /** `calculate_rsi`: simple averages of the last `period` gains and losses. */
  function Rsi(prices: seq<real>, period: nat): (r: real)
    requires period >= 1
    ensures 0.0 <= r <= 100.0
  {
    if |prices| < period + 1 then 50.0
    else RsiFromAverages(AvgGain(prices, period), AvgLoss(prices, period))
  }

  /** The loop of `calculate_rsi` that fills the gains and losses lists. */
  method CollectChanges(prices: seq<real>) returns (gains: seq<real>, losses: seq<real>)
    requires |prices| >= 1
    ensures gains == Gains(prices) && losses == Losses(prices)
  {
    gains, losses := [], [];
    var i := 1;
    while i < |prices|
      invariant 1 <= i <= |prices|
      invariant gains == Gains(prices[..i])
      invariant losses == Losses(prices[..i])
    {
      var change := prices[i] - prices[i - 1];
      if change > 0.0 {
        gains := gains + [change];
        losses := losses + [0.0];
      } else {
        gains := gains + [0.0];
        losses := losses + [Abs(change)];
      }
      assert prices[..i + 1][..i] == prices[..i];
      i := i + 1;
    }
    assert prices[..i] == prices;
  }

  method CalculateRsi(prices: seq<real>, period: nat) returns (rsi: real)
    requires period >= 1
    ensures rsi == Rsi(prices, period)
  {
    if |prices| < period + 1 {
      return 50.0;
    }
    var gains, losses := CollectChanges(prices);
    // len(gains) >= period always holds here, so the source's trailing
    // `return 50.0` is never reached.
    var avgGain := Sum(Last(gains, period)) / period as real;
    var avgLoss := Sum(Last(losses, period)) / period as real;
    assert avgGain == AvgGain(prices, period) && avgLoss == AvgLoss(prices, period);
    rsi := RsiFromAverages(avgGain, avgLoss);
  }

  // ---------------------------------------------------------------- EMA

  function EmaStep(ema: real, price: real, multiplier: real): real {
    price * multiplier + ema * (1.0 - multiplier)
  }

  /** The smoothing loop of `calculate_ema`, from `seed` over `ps` in order. */
  function EmaFold(seed: real, ps: seq<real>, multiplier: real): real
    decreases |ps|
  {
    if |ps| == 0 then seed
    else EmaStep(EmaFold(seed, ps[..|ps| - 1], multiplier), ps[|ps| - 1], multiplier)
  }

  /** `calculate_ema`: the last price (0 for an empty list) when the list is
      shorter than `period`; otherwise seeded with the SMA of the first
      `period` prices and smoothed with multiplier 2/(period+1). */
  function Ema(prices: seq<real>, period: nat): (r: real)
    requires period >= 1
    ensures |prices| == 0 ==> r == 0.0
    ensures |prices| > 0 ==> Min(prices) <= r <= Max(prices)
  {
    if |prices| < period then (if |prices| == 0 then 0.0 else prices[|prices| - 1])
    else
      SmoothedEmaWithinRange(prices, period, Min(prices), Max(prices));
      EmaFold(Mean(prices[..period]), prices[period..], 2.0 / (period as real + 1.0))
  }

  method CalculateEma(prices: seq<real>, period: nat) returns (ema: real)
    requires period >= 1
    ensures ema == Ema(prices, period)
  {
    if |prices| < period {
      return if |prices| == 0 then 0.0 else prices[|prices| - 1];
    }
    var multiplier := 2.0 / (period as real + 1.0);
    ema := Sum(prices[..period]) / period as real;
    var i := period;
    while i < |prices|
      invariant period <= i <= |prices|
      invariant ema == EmaFold(Mean(prices[..period]), prices[period..i], multiplier)
    {
      assert prices[period..i + 1][..i - period] == prices[period..i];
      ema := EmaStep(ema, prices[i], multiplier);
      i := i + 1;
    }
    assert prices[period..i] == prices[period..];
  }

  lemma StepBetween(ema: real, price: real, m: real, lo: real, hi: real)
    requires 0.0 <= m <= 1.0 && lo <= ema <= hi && lo <= price <= hi
    ensures lo <= EmaStep(ema, price, m) <= hi
  {
    ConvexLower(price, ema, m, lo);
    ConvexUpper(price, ema, m, hi);
  }

  lemma {:induction false} FoldBetween(seed: real, ps: seq<real>, m: real, lo: real, hi: real)
    requires 0.0 <= m <= 1.0 && lo <= seed <= hi
    requires forall i :: 0 <= i < |ps| ==> lo <= ps[i] <= hi
    ensures lo <= EmaFold(seed, ps, m) <= hi
    decreases |ps|
  {
    if |ps| > 0 {
      FoldBetween(seed, ps[..|ps| - 1], m, lo, hi);
      StepBetween(EmaFold(seed, ps[..|ps| - 1], m), ps[|ps| - 1], m, lo, hi);
    }
  }

  lemma MultiplierInUnit(period: nat)
    requires period >= 1
    ensures 0.0 <= 2.0 / (period as real + 1.0) <= 1.0
  {
    DivBetween(2.0, period as real + 1.0, 0.0, 1.0);
  }

  /** The seeded-and-smoothed case of `Ema`: within any bounds of the prices. */
  lemma SmoothedEmaWithinRange(prices: seq<real>, period: nat, lo: real, hi: real)
    requires 1 <= period <= |prices|
    requires forall i :: 0 <= i < |prices| ==> lo <= prices[i] <= hi
    ensures lo <= EmaFold(Mean(prices[..period]), prices[period..], 2.0 / (period as real + 1.0)) <= hi
  {
    var head, tail := prices[..period], prices[period..];
    assert forall i :: 0 <= i < |head| ==> lo <= head[i] <= hi;
    assert forall i :: 0 <= i < |tail| ==> lo <= tail[i] <= hi;
    MeanBetween(head, lo, hi);
    MultiplierInUnit(period);
    FoldBetween(Mean(head), tail, 2.0 / (period as real + 1.0), lo, hi);
  }

  // ---------------------------------------------------------------- ATR

  /** True range with high = low = close (no intrabar data). */
  function TrueRange(prevClose: real, close: real): (tr: real)
    ensures tr == Abs(close - prevClose)
  {
    var high, low := close, close;
    MaxReal(MaxReal(high - low, Abs(high - prevClose)), Abs(low - prevClose))
  }

  /** The `true_ranges` list of `calculate_atr`. */
  function TrueRanges(prices: seq<real>): (t: seq<real>)
    ensures |t| == if |prices| == 0 then 0 else |prices| - 1
    ensures forall i :: 0 <= i < |t| ==> t[i] >= 0.0
    decreases |prices|
  {
    if |prices| < 2 then []
    else TrueRanges(prices[..|prices| - 1]) + [TrueRange(prices[|prices| - 2], prices[|prices| - 1])]
  }

  /** `calculate_atr`: 2 % of the last price on a short series; the mean of
      the last `period` true ranges otherwise. With `period == 0` the source
      divides by zero, catches it and also returns 2 % of the last price. */
  function Atr(prices: seq<real>, period: nat): (r: real)
    requires |prices| > 0
    ensures |prices| <= period || period == 0 ==> r == prices[|prices| - 1] * 0.02
    ensures period >= 1 && |prices| > period ==> r >= 0.0
    ensures prices[|prices| - 1] >= 0.0 ==> r >= 0.0
  {
    if |prices| < period + 1 then prices[|prices| - 1] * 0.02
    else if period == 0 then prices[|prices| - 1] * 0.02
    else
      var t := Last(TrueRanges(prices), period);
      SumNonNeg(t);
      Mean(t)
  }

  method CalculateAtr(prices: seq<real>, period: nat) returns (atr: real)
    requires |prices| > 0
    ensures atr == Atr(prices, period)
  {
    if |prices| < period + 1 {
      return prices[|prices| - 1] * 0.02;
    }
    var trueRanges: seq<real> := [];
    var i := 1;
    while i < |prices|
      invariant 1 <= i <= |prices|
      invariant trueRanges == TrueRanges(prices[..i])
    {
      var high, low, prevClose := prices[i], prices[i], prices[i - 1];
      var tr := MaxReal(MaxReal(high - low, Abs(high - prevClose)), Abs(low - prevClose));
      assert prices[..i + 1][..i] == prices[..i];
      trueRanges := trueRanges + [tr];
      i := i + 1;
    }
    assert prices[..i] == prices;
    if period == 0 {
      // sum(true_ranges[-0:]) / 0 raises; the handler returns the default.
      return prices[|prices| - 1] * 0.02;
    }
    atr := Sum(Last(trueRanges, period)) / period as real;
  }

  /** A constant series has no true range, so its ATR is zero. */
  lemma {:induction false} TrueRangesOfConstant(prices: seq<real>)
    requires forall i :: 0 <= i < |prices| ==> prices[i] == prices[0]
    ensures forall i :: 0 <= i < |TrueRanges(prices)| ==> TrueRanges(prices)[i] == 0.0
    decreases |prices|
  {
    if |prices| >= 2 {
      TrueRangesOfConstant(prices[..|prices| - 1]);
    }
  }

  lemma AtrOfConstant(prices: seq<real>, period: nat)
    requires period >= 1 && |prices| >= period + 1
    requires forall i :: 0 <= i < |prices| ==> prices[i] == prices[0]
    ensures Atr(prices, period) == 0.0
  {
    TrueRangesOfConstant(prices);
    SumZero(Last(TrueRanges(prices), period));
  }

  // ---------------------------------------------------------------- volume trend

  /** `calculate_volume_trend`. The 10-day price change divides by the price
      ten samples back; a zero there raises and yields `Error`. */
  function CalculateVolumeTrend(prices: seq<real>, volumes: seq<real>): (v: VolumeTrend)
    ensures v == InsufficientData <==> |prices| < 10 || |volumes| < 10
    ensures v == Error <==> |prices| >= 10 && |volumes| >= 10 && prices[|prices| - 10] == 0.0
    ensures v == BullishConfirmed || v == BearishConfirmed ==>
      HistoricalVolumeAvg(volumes) > 0.0 && RecentVolumeAvg(volumes) > 1.2 * HistoricalVolumeAvg(volumes)
    ensures v == BullishWeak || v == BearishWeak ==>
      HistoricalVolumeAvg(volumes) > 0.0 && RecentVolumeAvg(volumes) < 0.8 * HistoricalVolumeAvg(volumes)
    ensures v == Accumulation ==>
      HistoricalVolumeAvg(volumes) > 0.0 && RecentVolumeAvg(volumes) > 1.5 * HistoricalVolumeAvg(volumes)
    ensures |prices| >= 10 && |volumes| >= 10 && prices[|prices| - 10] != 0.0 ==>
      var c := (prices[|prices| - 1] - prices[|prices| - 10]) / prices[|prices| - 10];
      var h, r := HistoricalVolumeAvg(volumes), RecentVolumeAvg(volumes);
      && (v == BullishConfirmed <==> c > 0.02 && h > 0.0 && r > 1.2 * h)
      && (v == BullishWeak <==> c > 0.02 && h > 0.0 && r < 0.8 * h)
      && (v == BearishConfirmed <==> c < -0.02 && h > 0.0 && r > 1.2 * h)
      && (v == BearishWeak <==> c < -0.02 && h > 0.0 && r < 0.8 * h)
      && (v == Accumulation <==> -0.02 <= c <= 0.02 && h > 0.0 && r > 1.5 * h)
  {
    if |prices| < 10 || |volumes| < 10 then InsufficientData
    else if prices[|prices| - 10] == 0.0 then Error
    else
      var priceChange := (prices[|prices| - 1] - prices[|prices| - 10]) / prices[|prices| - 10];
      var recentVolumeAvg := RecentVolumeAvg(volumes);
      var historicalVolumeAvg := HistoricalVolumeAvg(volumes);
      var volumeRatio := if historicalVolumeAvg > 0.0 then
        (RatioAbove(recentVolumeAvg, historicalVolumeAvg, 1.2);
         RatioAbove(-recentVolumeAvg, historicalVolumeAvg, -0.8);
         RatioAbove(recentVolumeAvg, historicalVolumeAvg, 1.5);
         recentVolumeAvg / historicalVolumeAvg)
        else 1.0;
      if priceChange > 0.02 then
        if volumeRatio > 1.2 then BullishConfirmed
        else if volumeRatio < 0.8 then BullishWeak
        else BullishNeutral
      else if priceChange < -0.02 then
        if volumeRatio > 1.2 then BearishConfirmed
        else if volumeRatio < 0.8 then BearishWeak
        else BearishNeutral
      else if volumeRatio > 1.5 then Accumulation
      else Neutral
  }

  /** The mean volume of the last five samples. */
  function RecentVolumeAvg(volumes: seq<real>): real
    requires |volumes| >= 10
  {
    Sum(Last(volumes, 5)) / 5.0
  }

  /** The mean volume of the five samples before those. */
  function HistoricalVolumeAvg(volumes: seq<real>): real
    requires |volumes| >= 10
  {
    Sum(volumes[|volumes| - 10..|volumes| - 5]) / 5.0
  }

  predicate IsBullishVolume(v: VolumeTrend) {
    v == BullishConfirmed || v == BullishWeak || v == BullishNeutral
  }

  predicate IsBearishVolume(v: VolumeTrend) {
    v == BearishConfirmed || v == BearishWeak || v == BearishNeutral
  }

  /** With a positive reference price, a bullish label means the price rose
      more than 2 % over ten samples and a bearish one that it fell more than 2 %. */
  lemma VolumeTrendDirection(prices: seq<real>, volumes: seq<real>)
    requires |prices| >= 10 && |volumes| >= 10 && prices[|prices| - 10] > 0.0
    ensures IsBullishVolume(CalculateVolumeTrend(prices, volumes)) <==>
      prices[|prices| - 1] > 1.02 * prices[|prices| - 10]
    ensures IsBearishVolume(CalculateVolumeTrend(prices, volumes)) <==>
      prices[|prices| - 1] < 0.98 * prices[|prices| - 10]
  {
    var p10 := prices[|prices| - 10];
    var change := (prices[|prices| - 1] - p10) / p10;
    var up, down := change - 0.02, change + 0.02;
    var upScaled, downScaled := up * p10, down * p10;
    assert change * p10 == prices[|prices| - 1] - p10;
    MulSign(up, p10);
    MulSign(down, p10);
    assert upScaled == prices[|prices| - 1] - 1.02 * p10;
    assert downScaled == prices[|prices| - 1] - 0.98 * p10;
    assert change > 0.02 <==> prices[|prices| - 1] > 1.02 * p10;
    assert change < -0.02 <==> prices[|prices| - 1] < 0.98 * p10;
  }

  /** With all-zero volumes (the CoinGecko series) the ratio is 1, so only
      the neutral labels remain (or `Error` on a zero reference price). */
  lemma ZeroVolumeTrend(prices: seq<real>, volumes: seq<real>)
    requires |prices| >= 10 && |volumes| >= 10
    requires forall i :: 0 <= i < |volumes| ==> volumes[i] == 0.0
    ensures CalculateVolumeTrend(prices, volumes) in {BullishNeutral, BearishNeutral, Neutral, Error}
  {
    SumZero(volumes[|volumes| - 10..|volumes| - 5]);
  }

  // ---------------------------------------------------------------- invalidation level

  /** No zero among the first `n` prices (none of them is used as a divisor in vain). */
  predicate NonZeroBefore(p: seq<real>, n: nat)
    requires n <= |p|
  {
    forall i :: 0 <= i < n ==> p[i] != 0.0
  }

  /** Day-over-day returns `(p[i] - p[i-1]) / p[i-1]` for i = 1 .. n-1. */
  function Returns(p: seq<real>, n: nat): (r: seq<real>)
    requires 1 <= n <= |p| && NonZeroBefore(p, n - 1)
    ensures |r| == n - 1
    decreases n
  {
    if n == 1 then []
    else Returns(p, n - 1) + [(p[n - 1] - p[n - 2]) / p[n - 2]]
  }

  /** A local minimum: no higher than its two neighbours on each side. */
  predicate IsLocalMin(r: seq<real>, i: int)
    requires 2 <= i < |r| - 2
  {
    r[i] <= r[i - 1] && r[i] <= r[i - 2] && r[i] <= r[i + 1] && r[i] <= r[i + 2]
  }

  /** The supports found at indices 2 .. k-1, in index order. */
  function SupportsUpTo(r: seq<real>, k: int): seq<real>
    requires k <= |r| - 2
    decreases k
  {
    if k <= 2 then []
    else SupportsUpTo(r, k - 1) + (if IsLocalMin(r, k - 1) then [r[k - 1]] else [])
  }

  /** The `support_levels` list: local minima at indices 2 .. |r|-3. */
  function Supports(r: seq<real>): seq<real>
    requires |r| >= 2
  {
    SupportsUpTo(r, |r| - 2)
  }

  /** A value is a support exactly when it is a local minimum at some index 2 .. k-1. */
  lemma {:induction false} SupportsCharacterized(r: seq<real>, k: int, x: real)
    requires k <= |r| - 2
    ensures x in SupportsUpTo(r, k) <==> exists i :: 2 <= i < k && IsLocalMin(r, i) && r[i] == x
    decreases k
  {
    if k > 2 {
      SupportsCharacterized(r, k - 1, x);
    }
  }

  /** The supports strictly below `current`, in order. */
  function Below(s: seq<real>, current: real): (b: seq<real>)
    ensures forall i :: 0 <= i < |b| ==> b[i] < current && b[i] in s
    ensures forall i :: 0 <= i < |s| && s[i] < current ==> s[i] in b
    decreases |s|
  {
    if |s| == 0 then []
    else
      var rest := Below(s[..|s| - 1], current);
      assert forall y :: y in s[..|s| - 1] ==> y in s;
      assert forall i :: 0 <= i < |s| - 1 ==> s[i] == s[..|s| - 1][i];
      if s[|s| - 1] < current then rest + [s[|s| - 1]] else rest
  }

  /** Fallback without supports: mean minus two deviations of the lowest
      third of the window, floored at 90 % of the current price. */
  function StatisticalLevel(recent: seq<real>, current: real, roots: Roots): real {
    var lows := SortAsc(recent)[..|recent| / 3];
    if |lows| > 0 then
      var meanLow := Mean(lows);
      var stdDev := roots.sqrt(SumSqDev(lows, meanLow) / |lows| as real);
      MaxReal(meanLow - 2.0 * stdDev, current * 0.9)
    else current * 0.92
  }

  /** The nearest support below the price, or, when every support is at or
      above it, the smaller of their mean and 95 % of the price. */
  function SupportLevel(supports: seq<real>, current: real): real
    requires |supports| > 0
  {
    var valid := Below(supports, current);
    if |valid| > 0 then Max(valid)
    else MinReal(Mean(supports), current * 0.95)
  }

  /** The level before the volatility adjustment and the 15 % clamp. */
  function BaseLevel(recent: seq<real>, current: real, roots: Roots): real
    requires |recent| >= 2
  {
    var supports := Supports(recent);
    if |supports| == 0 then StatisticalLevel(recent, current, roots)
    else SupportLevel(supports, current)
  }

  /** `calculate_invalidation_level`. Its volatility adjustment uses the
      returns of the first ten samples of the whole series; a zero among
      them raises, and the handler returns 95 % of the last price. */
  function InvalidationLevel(prices: seq<real>, roots: Roots): (r: real)
    requires |prices| > 0
    ensures |prices| < 20 || !NonZeroBefore(prices, 10) ==> r == prices[|prices| - 1] * 0.95
    ensures |prices| >= 20 && NonZeroBefore(prices, 10) ==> r >= prices[|prices| - 1] * 0.85
    ensures prices[|prices| - 1] >= 0.0 ==> r >= prices[|prices| - 1] * 0.85
  {
    var current := prices[|prices| - 1];
    if |prices| < 20 then current * 0.95
    else if !NonZeroBefore(prices, 10) then current * 0.95
    else
      AdjustedLevel(BaseLevel(Last(prices, 20), current, roots), current, EarlyVolatility(prices, roots))
  }

  /** The final step: lower the level by the current price times twice the
      volatility (at most 5 %), but never below 85 % of the current price. */
  function AdjustedLevel(base: real, current: real, volatility: real): (level: real)
    ensures level >= current * 0.85
    ensures level == current * 0.85 || level == base - current * MinReal(0.05, volatility * 2.0)
  {
    MaxReal(base - current * MinReal(0.05, volatility * 2.0), current * 0.85)
  }

  /** The volatility used by the invalidation level: the standard deviation
      of the returns of samples 0 .. 10 (ten returns, so the source's
      `else 0.02` for fewer than two returns is not reachable). */
  function EarlyVolatility(prices: seq<real>, roots: Roots): real
    requires |prices| >= 11 && NonZeroBefore(prices, 10)
  {
    roots.stdev(Returns(prices, 11))
  }

  /** The support-finding loop of `calculate_invalidation_level`. */
  method FindSupports(recent: seq<real>) returns (supportLevels: seq<real>)
    requires |recent| >= 4
    ensures supportLevels == Supports(recent)
  {
    supportLevels := [];
    var i := 2;
    while i < |recent| - 2
      invariant 2 <= i <= |recent| - 2
      invariant supportLevels == SupportsUpTo(recent, i)
    {
      if recent[i] <= recent[i - 1] && recent[i] <= recent[i - 2] &&
         recent[i] <= recent[i + 1] && recent[i] <= recent[i + 2] {
        supportLevels := supportLevels + [recent[i]];
      }
      i := i + 1;
    }
  }

  method CalculateInvalidationLevel(prices: seq<real>, roots: Roots) returns (level: real)
    requires |prices| > 0
    ensures level == InvalidationLevel(prices, roots)
  {
    if |prices| < 20 {
      return prices[|prices| - 1] * 0.95;
    }
    var recent := prices[|prices| - 20..];
    var supportLevels := FindSupports(recent);
    if !NonZeroBefore(prices, 10) {
      // a zero among the first ten prices raises in the returns list
      return prices[|prices| - 1] * 0.95;
    }
    var base := if |supportLevels| == 0 then StatisticalLevel(recent, prices[|prices| - 1], roots)
                else SupportLevel(supportLevels, prices[|prices| - 1]);
    assert base == BaseLevel(Last(prices, 20), prices[|prices| - 1], roots);
    level := AdjustedLevel(base, prices[|prices| - 1], EarlyVolatility(prices, roots));
  }

  // ---------------------------------------------------------------- indicator sets

  /** The long-window indicator dictionary of `calculate_crypto_indicators`. */
  datatype LongSet = LongSet(
    rsi14: Option<real>, rsi30: Option<real>,
    sma20: Option<real>, sma50: Option<real>, sma100: Option<real>, sma200: Option<real>,
    distanceToSma200Pct: Option<real>,
    bbUpper: Option<real>, bbLower: Option<real>, bbWidth: Option<real>,
    macd: Option<real>, macdSignal: Option<real>, macdHistogram: Option<real>,
    volatility30d: Option<real>, volatilityAnnual: Option<real>,
    yearHigh: Option<real>, yearLow: Option<real>, yearRange: Option<real>,
    currentPosition: Option<real>,
    invalidationLevel: Option<real>, atr: Option<real>,
    momentum3m: Option<real>, momentum6m: Option<real>,
    volumeTrend: Option<VolumeTrend>)
  {
    // The defaults consumers read for a missing key.
    function Sma20(): real { sma20.GetOr(0.0) }
    function Sma50(): real { sma50.GetOr(0.0) }
    function Sma200(): real { sma200.GetOr(0.0) }
    function Rsi14(): real { rsi14.GetOr(50.0) }
    function Rsi30(): real { rsi30.GetOr(50.0) }
    function Momentum3m(): real { momentum3m.GetOr(0.0) }
    function Momentum6m(): real { momentum6m.GetOr(0.0) }
    function CurrentPosition(): real { currentPosition.GetOr(0.5) }
    function VolatilityAnnual(): real { volatilityAnnual.GetOr(0.5) }
    function BbWidth(): real { bbWidth.GetOr(0.1) }
    function Macd(): real { macd.GetOr(0.0) }
    function MacdSignal(): real { macdSignal.GetOr(0.0) }
    function YearHigh(current: real): real { yearHigh.GetOr(current * 1.5) }
    function YearLow(current: real): real { yearLow.GetOr(current * 0.5) }
    function VolumeTrendOr(): VolumeTrend { volumeTrend.GetOr(Neutral) }
    function DistanceToSma200(): real { distanceToSma200Pct.GetOr(0.0) }
    function InvalidationLevelOr(current: real): real { invalidationLevel.GetOr(current * 0.95) }
    function AtrOr(current: real): real { atr.GetOr(current * 0.02) }
  }

  const EmptyLong := LongSet(None, None, None, None, None, None, None, None, None, None, None, None,
                             None, None, None, None, None, None, None, None, None, None, None, None)

  /** The short-window indicator dictionary of `calculate_monthly_indicators`. */
  datatype ShortSet = ShortSet(
    rsi14: Option<real>, sma20: Option<real>,
    bbUpper: Option<real>, bbLower: Option<real>, bbWidth: Option<real>,
    volatility10d: Option<real>,
    monthHigh: Option<real>, monthLow: Option<real>, monthRange: Option<real>,
    currentMonthPosition: Option<real>,
    momentum1w: Option<real>,
    volumeTrend: Option<VolumeTrend>, atr: Option<real>)
  {
    function Rsi14(): real { rsi14.GetOr(50.0) }
    function Momentum1w(): real { momentum1w.GetOr(0.0) }
    function CurrentMonthPosition(): real { currentMonthPosition.GetOr(0.5) }
    function Volatility10d(): real { volatility10d.GetOr(0.5) }
    function MonthHigh(current: real): real { monthHigh.GetOr(current * 1.2) }
    function MonthLow(current: real): real { monthLow.GetOr(current * 0.8) }
  }

  const EmptyShort := ShortSet(None, None, None, None, None, None, None, None, None, None, None, None, None)

  /** The simple moving average of the last `n` prices. */
  function Sma(prices: seq<real>, n: nat): real
    requires 1 <= n <= |prices|
  {
    Sum(Last(prices, n)) / n as real
  }

  /** The Bollinger deviation: population standard deviation of the last 20 prices. */
  function BandDeviation(prices: seq<real>, roots: Roots): real
    requires |prices| >= 20
  {
    roots.sqrt(SumSqDev(Last(prices, 20), Sma(prices, 20)) / 20.0)
  }

  /** Percentage change against the price `n` samples back. */
  function Momentum(prices: seq<real>, n: nat): real
    requires 1 <= n <= |prices| && prices[|prices| - n] != 0.0
  {
    (prices[|prices| - 1] - prices[|prices| - n]) / prices[|prices| - n] * 100.0
  }

  /** Where the last price sits in the window's [min, max] range. */
  function RangePosition(prices: seq<real>): (pos: real)
    requires |prices| > 0 && Max(prices) != Min(prices)
    ensures 0.0 <= pos <= 1.0
  {
    var low := Min(prices);
    var range := Max(prices) - low;
    DivBetween(prices[|prices| - 1] - low, range, 0.0, 1.0);
    (prices[|prices| - 1] - low) / range
  }

  /** `statistics.stdev` when there are at least two returns, else the fallback. */
  function Volatility(r: seq<real>, roots: Roots, fallback: real): real {
    if |r| > 1 then roots.stdev(r) else fallback
  }

  /** A zero divisor inside `calculate_crypto_indicators`'s try block: the
      SMA-20 (Bollinger width), a price used by the 30-day or annual returns,
      a flat year (range 0), or the price 90 or 180 samples back. */
  predicate LongRaises(p: seq<real>)
    requires |p| >= 50
  {
    || Sma(p, 20) == 0.0
    || !NonZeroBefore(p, 30)
    || (|p| >= 252 && !NonZeroBefore(p, MinInt(253, |p|) - 1))
    || Max(p) == Min(p)
    || (|p| >= 90 && p[|p| - 90] == 0.0)
    || (|p| >= 180 && p[|p| - 180] == 0.0)
  }

  /** MACD line, signal line and histogram. The signal line is the EMA(9)
      of the one-element list [macd], which is shorter than 9, so it is the
      MACD itself and the histogram is always zero. */
  function MacdLines(prices: seq<real>): (lines: (real, real, real))
    ensures lines.0 == Ema(prices, 12) - Ema(prices, 26)
    ensures lines.1 == lines.0 && lines.2 == 0.0
  {
    var macd := Ema(prices, 12) - Ema(prices, 26);
    var macdSignal := Ema([macd], 9);
    (macd, macdSignal, macd - macdSignal)
  }

  /** Upper band, lower band and relative width of the 20-sample Bollinger bands. */
  function Bands(prices: seq<real>, roots: Roots): (b: (real, real, real))
    requires |prices| >= 20 && Sma(prices, 20) != 0.0
    ensures b.0 >= b.1
  {
    var sma20 := Sma(prices, 20);
    var stdDev := BandDeviation(prices, roots);
    var upper, lower := sma20 + 2.0 * stdDev, sma20 - 2.0 * stdDev;
    (upper, lower, (upper - lower) / sma20)
  }

  /** An SMA the series may be too short for. */
  function OptSma(prices: seq<real>, n: nat): Option<real>
    requires n >= 1
  {
    if |prices| >= n then Some(Sma(prices, n)) else None
  }

  /** A momentum the series may be too short for. */
  function OptMomentum(prices: seq<real>, n: nat): Option<real>
    requires n >= 1 && (|prices| >= n ==> prices[|prices| - n] != 0.0)
  {
    if |prices| >= n then Some(Momentum(prices, n)) else None
  }

  /** Distance of the last price to a positive SMA-200, in percent. */
  function DistanceToSma200(prices: seq<real>): Option<real> {
    if |prices| >= 200 && Sma(prices, 200) > 0.0
    then Some((prices[|prices| - 1] - Sma(prices, 200)) / Sma(prices, 200) * 100.0)
    else None
  }

  /** The annual volatility: returns over the first 253 samples (at least 252 needed). */
  function AnnualVolatility(prices: seq<real>, roots: Roots): Option<real>
    requires |prices| >= 252 ==> NonZeroBefore(prices, MinInt(253, |prices|) - 1)
  {
    if |prices| >= 252 then Some(Volatility(Returns(prices, MinInt(253, |prices|)), roots, 0.0)) else None
  }

  /** The averages, bands and MACD of the long set. */
  function LongTrendFields(prices: seq<real>, roots: Roots):
    (f: (real, real, real, real, Option<real>, Option<real>, Option<real>, (real, real, real), (real, real, real)))
    requires |prices| >= 50 && Sma(prices, 20) != 0.0
    ensures f.0 == Rsi(prices, 14) && f.8 == MacdLines(prices)
  {
    (Rsi(prices, 14), Rsi(prices, 30), Sma(prices, 20), Sma(prices, 50),
     OptSma(prices, 100), OptSma(prices, 200), DistanceToSma200(prices),
     Bands(prices, roots), MacdLines(prices))
  }

  /** The volatility, range, risk and momentum fields of the long set. */
  function LongRangeFields(prices: seq<real>, volumes: seq<real>, roots: Roots):
    (f: (real, Option<real>, real, real, real, real, real, real, Option<real>, Option<real>, VolumeTrend))
    requires |prices| >= 50 && NonZeroBefore(prices, 30) && Max(prices) != Min(prices)
    requires |prices| >= 252 ==> NonZeroBefore(prices, MinInt(253, |prices|) - 1)
    requires |prices| >= 90 ==> prices[|prices| - 90] != 0.0
    requires |prices| >= 180 ==> prices[|prices| - 180] != 0.0
    ensures f.5 == RangePosition(prices) && f.6 == InvalidationLevel(prices, roots) && f.7 == Atr(prices, 14)
  {
    (Volatility(Returns(prices, 31), roots, 0.0), AnnualVolatility(prices, roots),
     Max(prices), Min(prices), Max(prices) - Min(prices), RangePosition(prices),
     InvalidationLevel(prices, roots), Atr(prices, 14),
     OptMomentum(prices, 90), OptMomentum(prices, 180),
     CalculateVolumeTrend(prices, volumes))
  }

  /** The long set when no division by zero occurs. */
  function LongSetOf(prices: seq<real>, volumes: seq<real>, roots: Roots): (r: LongSet)
    requires |prices| >= 50
    requires Sma(prices, 20) != 0.0 && NonZeroBefore(prices, 30) && Max(prices) != Min(prices)
    requires |prices| >= 252 ==> NonZeroBefore(prices, MinInt(253, |prices|) - 1)
    requires |prices| >= 90 ==> prices[|prices| - 90] != 0.0
    requires |prices| >= 180 ==> prices[|prices| - 180] != 0.0
    ensures r.currentPosition == Some(RangePosition(prices))
    ensures r.macdSignal == r.macd && r.macdHistogram == Some(0.0)
    ensures r.rsi14 == Some(Rsi(prices, 14))
    ensures r.invalidationLevel == Some(InvalidationLevel(prices, roots)) && r.atr == Some(Atr(prices, 14))
  {
    var (rsi14, rsi30, sma20, sma50, sma100, sma200, distance, bands, macd) := LongTrendFields(prices, roots);
    var (vol30, volAnnual, high, low, range, position, invalidation, atr, mom3m, mom6m, volumeTrend) :=
      LongRangeFields(prices, volumes, roots);
    LongSet(
      Some(rsi14), Some(rsi30), Some(sma20), Some(sma50), sma100, sma200, distance,
      Some(bands.0), Some(bands.1), Some(bands.2),
      Some(macd.0), Some(macd.1), Some(macd.2),
      Some(vol30), volAnnual,
      Some(high), Some(low), Some(range), Some(position),
      Some(invalidation), Some(atr), mom3m, mom6m, Some(volumeTrend))
  }

  /** `calculate_crypto_indicators`: `{}` below 50 samples or when a
      division by zero is caught; otherwise the full long set, whose
      position lies in [0, 1], whose MACD signal equals the MACD (so the
      histogram is 0) and whose RSI lies in [0, 100]. */
  function LongIndicators(data: seq<PricePoint>, roots: Roots): (r: LongSet)
    ensures |data| < 50 ==> r == EmptyLong
    ensures r == EmptyLong <==> |data| < 50 || LongRaises(Prices(data))
    ensures r != EmptyLong ==>
      && r.currentPosition.Some? && 0.0 <= r.currentPosition.value <= 1.0
      && r.macdSignal == r.macd && r.macdHistogram == Some(0.0)
      && r.rsi14.Some? && 0.0 <= r.rsi14.value <= 100.0
      && r.invalidationLevel.Some? && r.atr.Some?
  {
    var prices := Prices(data);
    if |prices| < 50 || LongRaises(prices) then EmptyLong
    else LongSetOf(prices, Volumes(data), roots)
  }

  /** A zero divisor inside `calculate_monthly_indicators`'s try block. */
  predicate ShortRaises(p: seq<real>)
    requires |p| >= 20
  {
    || Sma(p, 20) == 0.0
    || !NonZeroBefore(p, 10)
    || Max(p) == Min(p)
    || p[|p| - 7] == 0.0
  }

  /** The short set when no division by zero occurs. */
  function ShortSetOf(prices: seq<real>, volumes: seq<real>, roots: Roots): (r: ShortSet)
    requires |prices| >= 20
    requires Sma(prices, 20) != 0.0 && NonZeroBefore(prices, 10) && Max(prices) != Min(prices)
    requires prices[|prices| - 7] != 0.0
    ensures r.currentMonthPosition == Some(RangePosition(prices))
    ensures r.rsi14 == Some(Rsi(prices, 14)) && r.atr == Some(Atr(prices, 14))
  {
    var (upper, lower, width) := Bands(prices, roots);
    ShortSet(
      Some(Rsi(prices, 14)), Some(Sma(prices, 20)),
      Some(upper), Some(lower), Some(width),
      Some(Volatility(Returns(prices, 11), roots, 0.0)),
      Some(Max(prices)), Some(Min(prices)), Some(Max(prices) - Min(prices)),
      Some(RangePosition(prices)),
      Some(Momentum(prices, 7)),
      Some(CalculateVolumeTrend(prices, volumes)), Some(Atr(prices, 14)))
  }

  /** `calculate_monthly_indicators`: `{}` below 20 samples or when a
      division by zero is caught; otherwise the full short set. */
  function ShortIndicators(data: seq<PricePoint>, roots: Roots): (r: ShortSet)
    ensures |data| < 20 ==> r == EmptyShort
    ensures r == EmptyShort <==> |data| < 20 || ShortRaises(Prices(data))
    ensures r != EmptyShort ==>
      && r.currentMonthPosition.Some? && 0.0 <= r.currentMonthPosition.value <= 1.0
      && r.rsi14.Some? && 0.0 <= r.rsi14.value <= 100.0
      && r.atr.Some?
  {
    var prices := Prices(data);
    if |prices| < 20 || ShortRaises(prices) then EmptyShort
    else ShortSetOf(prices, Volumes(data), roots)
  }

  // ---------------------------------------------------------------- price alerts

  /** A watchlist entry (its dates are not modelled). */
  datatype WatchItem = WatchItem(symbol: string, customName: string,
                                 buyAlertPrice: Option<real>, sellAlertPrice: Option<real>)

  /** One entry of the current-data dictionary: its key and current price. */
  datatype Quote = Quote(key: string, currentPrice: real)

  datatype AlertKind = BuyAlert | SellAlert

  /** A triggered alert (its message text is not modelled). */
  datatype Alert = Alert(symbol: string, customName: string, kind: AlertKind,
                         currentPrice: real, targetPrice: real, dataSource: string)

  predicate KeyMatches(symbol: string, key: string) {
    Text.Contains(Text.Lower(key), Text.Lower(symbol))
  }

  /** The first quote whose key contains the (lower-cased) symbol. */
  function FindQuote(data: seq<Quote>, symbol: string): (q: Option<Quote>)
    ensures q.Some? ==> q.value in data && KeyMatches(symbol, q.value.key)
    ensures q.None? <==> forall i :: 0 <= i < |data| ==> !KeyMatches(symbol, data[i].key)
    decreases |data|
  {
    if |data| == 0 then None
    else if KeyMatches(symbol, data[0].key) then Some(data[0])
    else FindQuote(data[1..], symbol)
  }

  /** The quote found is the one at the first matching key. */
  lemma {:induction false} FindQuoteIsFirst(data: seq<Quote>, symbol: string)
    requires FindQuote(data, symbol).Some?
    ensures exists i :: (0 <= i < |data| && data[i] == FindQuote(data, symbol).value
                         && forall j :: 0 <= j < i ==> !KeyMatches(symbol, data[j].key))
    decreases |data|
  {
    if !KeyMatches(symbol, data[0].key) {
      var rest := FindQuote(data[1..], symbol);
      FindQuoteIsFirst(data[1..], symbol);
      var i :| 0 <= i < |data[1..]| && data[1..][i] == rest.value
        && forall j :: 0 <= j < i ==> !KeyMatches(symbol, data[1..][j].key);
      assert data[i + 1] == rest.value;
      forall j | 0 <= j < i + 1 ensures !KeyMatches(symbol, data[j].key) {
        if j > 0 { assert data[j] == data[1..][j - 1]; }
      }
    }
  }

  /** The alerts one watchlist entry raises against the current data. */
  function ItemAlerts(item: WatchItem, data: seq<Quote>): (r: seq<Alert>)
    ensures |r| <= 2
    ensures |data| == 0 ==> r == []
    ensures |r| == 2 ==> r[0].kind == BuyAlert && r[1].kind == SellAlert
    ensures forall a :: a in r ==> a.symbol == Text.Upper(item.symbol) && a.customName == item.customName
    ensures forall a :: a in r && a.kind == BuyAlert ==>
      Truthy(item.buyAlertPrice) && a.targetPrice == item.buyAlertPrice.value && a.currentPrice <= a.targetPrice
    ensures forall a :: a in r && a.kind == SellAlert ==>
      Truthy(item.sellAlertPrice) && a.targetPrice == item.sellAlertPrice.value && a.currentPrice >= a.targetPrice
  {
    var symbol := Text.Upper(item.symbol);
    match FindQuote(data, symbol)
    case None => []
    case Some(q) =>
      (if Truthy(item.buyAlertPrice) && q.currentPrice <= item.buyAlertPrice.value
       then [Alert(symbol, item.customName, BuyAlert, q.currentPrice, item.buyAlertPrice.value, q.key)]
       else [])
      + (if Truthy(item.sellAlertPrice) && q.currentPrice >= item.sellAlertPrice.value
         then [Alert(symbol, item.customName, SellAlert, q.currentPrice, item.sellAlertPrice.value, q.key)]
         else [])
  }

  /** All alerts, in watchlist order. */
  function PriceAlerts(watchlist: seq<WatchItem>, data: seq<Quote>): (r: seq<Alert>)
    ensures |r| <= 2 * |watchlist|
    ensures |data| == 0 ==> r == []
    ensures forall a :: a in r && a.kind == BuyAlert ==> a.currentPrice <= a.targetPrice
    ensures forall a :: a in r && a.kind == SellAlert ==> a.currentPrice >= a.targetPrice
    ensures forall a :: a in r ==> exists w :: w in watchlist && a.symbol == Text.Upper(w.symbol)
    decreases |watchlist|
  {
    if |watchlist| == 0 then []
    else PriceAlerts(watchlist[..|watchlist| - 1], data) + ItemAlerts(watchlist[|watchlist| - 1], data)
  }

  /** An entry whose symbol matches no data key raises nothing; otherwise it
      raises a BUY alert exactly when a buy price is set and the price is at
      or below it, and a SELL alert exactly when a sell price is set and the
      price is at or above it, both at the first matching key's price. */
  lemma ItemAlertsCharacterized(item: WatchItem, data: seq<Quote>)
    ensures FindQuote(data, Text.Upper(item.symbol)).None? ==> ItemAlerts(item, data) == []
    ensures FindQuote(data, Text.Upper(item.symbol)).Some? ==>
      var q := FindQuote(data, Text.Upper(item.symbol)).value;
      && ((exists a :: a in ItemAlerts(item, data) && a.kind == BuyAlert) <==>
           Truthy(item.buyAlertPrice) && q.currentPrice <= item.buyAlertPrice.value)
      && ((exists a :: a in ItemAlerts(item, data) && a.kind == SellAlert) <==>
           Truthy(item.sellAlertPrice) && q.currentPrice >= item.sellAlertPrice.value)
      && (forall a :: a in ItemAlerts(item, data) ==> a.currentPrice == q.currentPrice && a.dataSource == q.key)
  {
    var symbol := Text.Upper(item.symbol);
    if FindQuote(data, symbol).Some? {
      var q := FindQuote(data, symbol).value;
      var buy := if Truthy(item.buyAlertPrice) && q.currentPrice <= item.buyAlertPrice.value
                 then [Alert(symbol, item.customName, BuyAlert, q.currentPrice, item.buyAlertPrice.value, q.key)]
                 else [];
      var sell := if Truthy(item.sellAlertPrice) && q.currentPrice >= item.sellAlertPrice.value
                  then [Alert(symbol, item.customName, SellAlert, q.currentPrice, item.sellAlertPrice.value, q.key)]
                  else [];
      assert ItemAlerts(item, data) == buy + sell;
      if Truthy(item.buyAlertPrice) && q.currentPrice <= item.buyAlertPrice.value {
        assert buy[0] in ItemAlerts(item, data);
      }
      if Truthy(item.sellAlertPrice) && q.currentPrice >= item.sellAlertPrice.value {
        assert sell[0] in ItemAlerts(item, data);
      }
    }
  }

  /** The inner loop of `check_price_alerts`: the first matching data key. */
  method LookupQuote(data: seq<Quote>, symbol: string) returns (found: Option<Quote>)
    ensures found == FindQuote(data, symbol)
  {
    var k := 0;
    while k < |data|
      invariant 0 <= k <= |data|
      invariant FindQuote(data, symbol) == FindQuote(data[k..], symbol)
    {
      assert data[k..][1..] == data[k + 1..];
      if KeyMatches(symbol, data[k].key) {
        return Some(data[k]);
      }
      k := k + 1;
    }
    return None;
  }

  /** The two checks of `check_price_alerts` for an entry whose quote was found. */
  method QuoteAlerts(item: WatchItem, data: seq<Quote>, q: Quote) returns (itemAlerts: seq<Alert>)
    requires FindQuote(data, Text.Upper(item.symbol)) == Some(q)
    ensures itemAlerts == ItemAlerts(item, data)
  {
    var symbol := Text.Upper(item.symbol);
    itemAlerts := [];
    if Truthy(item.buyAlertPrice) && q.currentPrice <= item.buyAlertPrice.value {
      itemAlerts := itemAlerts + [Alert(symbol, item.customName, BuyAlert, q.currentPrice, item.buyAlertPrice.value, q.key)];
    }
    if Truthy(item.sellAlertPrice) && q.currentPrice >= item.sellAlertPrice.value {
      itemAlerts := itemAlerts + [Alert(symbol, item.customName, SellAlert, q.currentPrice, item.sellAlertPrice.value, q.key)];
    }
  }

  method CheckPriceAlerts(watchlist: seq<WatchItem>, data: seq<Quote>) returns (alerts: seq<Alert>)
    ensures alerts == PriceAlerts(watchlist, data)
  {
    alerts := [];
    var w := 0;
    while w < |watchlist|
      invariant 0 <= w <= |watchlist|
      invariant alerts == PriceAlerts(watchlist[..w], data)
    {
      var item := watchlist[w];
      var found := LookupQuote(data, Text.Upper(item.symbol));
      assert watchlist[..w + 1][..w] == watchlist[..w];
      if found.Some? {
        var itemAlerts := QuoteAlerts(item, data, found.value);
        alerts := alerts + itemAlerts;
      }
      w := w + 1;
    }
    assert watchlist[..w] == watchlist;
  }
}
