/** The load rules of the workout tracker: performance analysis over an
    exercise's recent sessions, fatigue detection, the weight recommendation
    cascade with rounding to 0.5 kg, deload detection over the whole workout
    history, the bounded per-exercise progress history and the A/B weekly
    routine tables. Dates, the DOM and local storage are not modelled; the
    weekday is a parameter. */
module Workout {
  import opened Wrappers
  import opened SeqMath

  // ---------------------------------------------------------------------
  // Recorded sessions of one exercise
  // ---------------------------------------------------------------------

  /** One saved set of series for an exercise: the completed repetitions, the
      completion ratio against the target and the lifted volume. */
  datatype Entry = Entry(reps: int, completion: real, weight: real)

  function Completions(ws: seq<Entry>): (r: seq<real>)
    ensures |r| == |ws|
    ensures forall i :: 0 <= i < |ws| ==> r[i] == ws[i].completion
  {
    seq(|ws|, i requires 0 <= i < |ws| => ws[i].completion)
  }

  /** `slice(-2)` summed and halved: the average of the last two values. */
  function RecentAvg(c: seq<real>): real
    requires |c| >= 2
  {
    Sum(Last(c, 2)) / 2.0
  }

  /** `slice(0, -2)` summed and divided by its length. */
  function OlderAvg(c: seq<real>): real
    requires |c| >= 3
  {
    Sum(c[..|c| - 2]) / (|c| - 2) as real
  }

  /** The overall mean minus the recent average is the older-minus-recent
      difference scaled by `(n - 2) / n`. */
  lemma DropScalesTrend(c: seq<real>)
    requires |c| >= 3
    ensures Mean(c) - RecentAvg(c) == (|c| as real - 2.0) / |c| as real * (OlderAvg(c) - RecentAvg(c))
  {
    var n := |c| as real;
    var older, recent := c[..|c| - 2], Last(c, 2);
    assert c == older + recent;
    SumConcat(older, recent);
    var o, r := OlderAvg(c), RecentAvg(c);
    assert Sum(older) == o * (n - 2.0);
    assert Sum(recent) == 2.0 * r;
    assert Sum(c) == (n - 2.0) * o + 2.0 * r;
    assert Mean(c) * n == (n - 2.0) * o + 2.0 * r;
    assert (Mean(c) - r) * n == (n - 2.0) * (o - r);
    assert (n - 2.0) / n * n == n - 2.0;
    assert ((n - 2.0) / n * (o - r)) * n == (n - 2.0) * (o - r);
  }

  /** Scaling by a factor in `(0, 1)` moves a value towards zero. */
  lemma ShrinkTowardsZero(k: real, x: real)
    requires 0.0 < k < 1.0
    ensures x >= 0.0 ==> 0.0 <= k * x <= x
    ensures x < 0.0 ==> x <= k * x <= 0.0
  {
    assert x - k * x == (1.0 - k) * x;
    if x >= 0.0 {
      MulMonotone(0.0, x, 1.0 - k);
      MulMonotone(0.0, x, k);
    } else {
      MulMonotone(x, 0.0, 1.0 - k);
      MulMonotone(x, 0.0, k);
    }
  }

  // ---------------------------------------------------------------------
  // detectFatigue
  // ---------------------------------------------------------------------

  /** `NotEnoughData` is the `0` the source returns for short histories. */
  datatype Fatigue = NotEnoughData | LowFatigue | MediumFatigue | HighFatigue

  /** The drop of the last two sessions below the average of all sessions. */
  function FatigueDrop(ws: seq<Entry>): real
    requires |ws| >= 3
  {
    Mean(Completions(ws)) - RecentAvg(Completions(ws))
  }

  function DetectFatigue(ws: seq<Entry>): (r: Fatigue)
    ensures r == NotEnoughData <==> |ws| < 3
    ensures |ws| >= 3 ==> (r == HighFatigue <==> FatigueDrop(ws) > 0.15)
    ensures |ws| >= 3 ==> (r == LowFatigue <==> FatigueDrop(ws) <= 0.08)
  {
    if |ws| < 3 then NotEnoughData
    else
      var drop := FatigueDrop(ws);
      if drop > 0.15 then HighFatigue
      else if drop > 0.08 then MediumFatigue
      else LowFatigue
  }

  /** The fatigue level reflects a decline of the recent sessions against the
      older ones: a medium or high level needs the recent average more than
      0.08 (0.15) below the older one, and an older-versus-recent difference
      under 0.02 always reads as low fatigue. */
  lemma FatigueFollowsTrend(ws: seq<Entry>)
    requires |ws| >= 3
    ensures var c := Completions(ws);
      var decline := OlderAvg(c) - RecentAvg(c);
      (DetectFatigue(ws) == HighFatigue ==> decline > 0.15) &&
      (DetectFatigue(ws) in {MediumFatigue, HighFatigue} ==> decline > 0.08) &&
      (Abs(decline) < 0.02 ==> DetectFatigue(ws) == LowFatigue)
  {
    var c := Completions(ws);
    var n := |c| as real;
    var decline := OlderAvg(c) - RecentAvg(c);
    DropScalesTrend(c);
    var k := (n - 2.0) / n;
    assert k * n == n - 2.0;
    assert 0.0 < k < 1.0 by {
      RatioAbove(n - 2.0, n, 0.0);
      MulSign(k - 1.0, n);
      assert (k - 1.0) * n == -2.0;
    }
    ShrinkTowardsZero(k, decline);
    assert FatigueDrop(ws) == k * decline;
  }

  // ---------------------------------------------------------------------
  // analyzePerformance
  // ---------------------------------------------------------------------

  datatype Performance = Performance(
    avgCompletion: real,
    trend: real,
    volatility: real,
    plateauDetected: bool,
    fatigueLevel: Fatigue,
    consistency: real,
    recentPerformance: real)

  /** A well-formed analysis: consistency is one minus the volatility, and
      the volatility is a square root. */
  predicate Coherent(a: Performance) {
    a.volatility >= 0.0 && a.consistency == 1.0 - a.volatility
  }

  /** The source's callers pass at least three sessions (a shorter list makes
      the older average divide by zero). */
  function AnalyzePerformance(ws: seq<Entry>, roots: Roots): (r: Performance)
    requires |ws| >= 3
    ensures Coherent(r) && r.consistency <= 1.0
    ensures r.fatigueLevel == DetectFatigue(ws) && r.fatigueLevel != NotEnoughData
    ensures r.plateauDetected <==> Abs(r.trend) < 0.02 && r.avgCompletion > 0.85
    ensures Min(Completions(ws)) <= r.avgCompletion <= Max(Completions(ws))
    ensures var c := Completions(ws);
      && r.avgCompletion == Mean(c)
      && r.recentPerformance == RecentAvg(c)
      && r.trend == RecentAvg(c) - OlderAvg(c)
      && r.volatility == roots.sqrt(SumSqDev(c, Mean(c)) / |c| as real)
      && (r.plateauDetected <==> Abs(RecentAvg(c) - OlderAvg(c)) < 0.02 && Mean(c) > 0.85)
  {
    var c := Completions(ws);
    var avg := Mean(c);
    var recent := RecentAvg(c);
    var trend := recent - OlderAvg(c);
    var variance := SumSqDev(c, avg) / |c| as real;
    var volatility := roots.sqrt(variance);
    MeanBetween(c, Min(c), Max(c));
    Performance(avg, trend, volatility, Abs(trend) < 0.02 && avg > 0.85,
      DetectFatigue(ws), 1.0 - volatility, recent)
  }

  // ---------------------------------------------------------------------
  // aiRecommendation
  // ---------------------------------------------------------------------

  datatype Kind = Deload | Plateau | Technique | Increase | Decrease | Maintain

  /** A weight suggestion; the explanatory text is not modelled. */
  datatype Suggestion = Suggestion(weight: real, confidence: real, kind: Kind)

  predicate IsHalfStep(x: real) {
    (x * 2.0).Floor as real == x * 2.0
  }

  /** `Math.round(x * 2) / 2`: the multiple of 0.5 nearest to `x`, ties going
      upwards. */
  function RoundHalf(x: real): (r: real)
    ensures IsHalfStep(r)
    ensures x - 0.25 < r <= x + 0.25
  {
    var k := (x * 2.0 + 0.5).Floor;
    assert k as real * 2.0 / 2.0 * 2.0 == k as real * 2.0;
    k as real / 2.0
  }

  /** The two contract clauses of `RoundHalf` pin its value down. */
  lemma RoundHalfUnique(x: real, k: int)
    requires x - 0.25 < k as real / 2.0 <= x + 0.25
    ensures RoundHalf(x) == k as real / 2.0
  {
    var y := x * 2.0 + 0.5;
    assert k as real <= y < k as real + 1.0;
    FloorUnique(y, k);
  }

  lemma FloorUnique(y: real, k: int)
    requires k as real <= y < k as real + 1.0
    ensures y.Floor == k
  {
    var m := y.Floor;
    assert m as real <= y < m as real + 1.0;
    assert (k - m) as real < 1.0 && (m - k) as real < 1.0;
  }

  /** A weight already on the 0.5 grid is left unchanged. */
  lemma RoundHalfFixes(k: int)
    ensures RoundHalf(k as real / 2.0) == k as real / 2.0
  {
    RoundHalfUnique(k as real / 2.0, k);
  }

  lemma RoundHalfMonotone(x: real, y: real)
    requires x <= y
    ensures RoundHalf(x) <= RoundHalf(y)
  {
    var a, b := (x * 2.0 + 0.5).Floor, (y * 2.0 + 0.5).Floor;
    assert a as real <= x * 2.0 + 0.5 <= y * 2.0 + 0.5 < b as real + 1.0;
    assert (a - b) as real < 1.0;
  }

  /** The first three rules of the cascade, in order. */
  predicate Deloads(a: Performance) { a.fatigueLevel == HighFatigue }
  predicate Plateaus(a: Performance) { !Deloads(a) && a.plateauDetected }
  predicate TechniqueFirst(a: Performance) { !Deloads(a) && !a.plateauDetected && a.volatility > 0.15 }

  /** The adjustment band of a session series that reaches the final rule. */
  datatype Band = Band(adjustment: real, confidence: real)

  function AdjustmentBand(a: Performance): (b: Band)
    ensures b.adjustment in {0.05, 0.03, 0.0, -0.05}
    ensures b.adjustment < 0.0 <==> a.avgCompletion < 0.80
    ensures b.adjustment > 0.0 ==> a.avgCompletion >= 0.90
  {
    if a.avgCompletion >= 0.95 && a.volatility < 0.08 then Band(0.05, 0.9)
    else if a.avgCompletion >= 0.90 && a.consistency > 0.85 then Band(0.03, 0.8)
    else if a.avgCompletion >= 0.80 then Band(0.0, 0.7)
    else Band(-0.05, 0.8)
  }

  /** The final rule: the band's adjustment applied and rounded to 0.5 kg;
      the kind follows the sign of the adjustment. */
  function Progression(a: Performance, w: real): (r: Suggestion)
    ensures r.kind == Increase <==> AdjustmentBand(a).adjustment > 0.0
    ensures r.kind == Decrease <==> AdjustmentBand(a).adjustment < 0.0
    ensures r.kind == Maintain <==> AdjustmentBand(a).adjustment == 0.0
    ensures r.confidence == AdjustmentBand(a).confidence
    ensures r.weight == MaxReal(0.0, RoundHalf(w * (1.0 + AdjustmentBand(a).adjustment)))
    ensures r.weight >= 0.0 && IsHalfStep(r.weight)
    ensures var target := w * (1.0 + AdjustmentBand(a).adjustment);
      target > 0.25 ==> target - 0.25 < r.weight <= target + 0.25
  {
    var band := AdjustmentBand(a);
    var newWeight := MaxReal(0.0, RoundHalf(w * (1.0 + band.adjustment)));
    Suggestion(newWeight, band.confidence,
      if band.adjustment > 0.0 then Increase
      else if band.adjustment < 0.0 then Decrease
      else Maintain)
  }

  function AiRecommendation(a: Performance, w: real): (r: Suggestion)
    ensures r.kind == Deload <==> Deloads(a)
    ensures r.kind == Plateau <==> Plateaus(a)
    ensures r.kind == Technique <==> TechniqueFirst(a)
    ensures w >= 0.0 ==> r.weight >= 0.0
    ensures Deloads(a) ==> r.weight == MaxReal(0.0, w * 0.85)
    ensures Plateaus(a) ==> r.weight == w
    ensures TechniqueFirst(a) ==> r.weight == MaxReal(0.0, w * 0.95)
    ensures !Deloads(a) && !a.plateauDetected && !TechniqueFirst(a) ==> r == Progression(a, w)
  {
    if a.fatigueLevel == HighFatigue then Suggestion(MaxReal(0.0, w * 0.85), 0.9, Deload)
    else if a.plateauDetected then Suggestion(w, 0.8, Plateau)
    else if a.volatility > 0.15 then Suggestion(MaxReal(0.0, w * 0.95), 0.7, Technique)
    else Progression(a, w)
  }

  /** For a coherent analysis that reaches the final rule the volatility is
      at most 0.15, so the moderate band's consistency test reduces to a
      volatility below 0.15: an increase is suggested exactly when the
      average completion is at least 0.90 and the volatility under 0.15, and
      a decrease exactly when the average is under 0.80. */
  lemma FinalRuleCharacterized(a: Performance, w: real)
    requires Coherent(a)
    requires !Deloads(a) && !a.plateauDetected && a.volatility <= 0.15
    ensures AiRecommendation(a, w).kind == Increase <==> a.avgCompletion >= 0.90 && a.volatility < 0.15
    ensures AiRecommendation(a, w).kind == Decrease <==> a.avgCompletion < 0.80
    ensures AiRecommendation(a, w).kind == Maintain <==>
      (0.80 <= a.avgCompletion < 0.90 || (a.avgCompletion >= 0.90 && a.volatility == 0.15))
  {
  }

  /** With a weight on the 0.5 grid, an increase never lowers the weight, a
      decrease never raises it and a maintain keeps it; every suggestion
      except an increase stays at or below the current weight. */
  lemma SuggestionDirection(a: Performance, k: nat)
    ensures var w := k as real / 2.0;
      var r := AiRecommendation(a, w);
      (r.kind == Increase ==> r.weight >= w) &&
      (r.kind == Maintain ==> r.weight == w) &&
      (r.kind != Increase ==> 0.0 <= r.weight <= w)
  {
    var w := k as real / 2.0;
    var r := AiRecommendation(a, w);
    RoundHalfFixes(k);
    if r.kind in {Increase, Decrease, Maintain} {
      var adj := AdjustmentBand(a).adjustment;
      var target := w * (1.0 + adj);
      if adj > 0.0 {
        MulMonotone(1.0, 1.0 + adj, w);
        RoundHalfMonotone(w, target);
      } else if adj < 0.0 {
        MulMonotone(1.0 + adj, 1.0, w);
        RoundHalfMonotone(target, w);
      } else {
        assert target == w;
      }
    } else {
      MulMonotone(0.85, 1.0, w);
      MulMonotone(0.95, 1.0, w);
    }
  }

  /** A detected plateau always reaches the plateau rule: the fatigue level
      of a plateau is low, so the deload rule before it cannot fire. */
  lemma PlateauAlwaysWins(ws: seq<Entry>, roots: Roots, w: real)
    requires |ws| >= 3
    ensures AiRecommendation(AnalyzePerformance(ws, roots), w).kind == Plateau
        <==> AnalyzePerformance(ws, roots).plateauDetected
  {
    FatigueFollowsTrend(ws);
  }

  /** A series of identical completions `v`, with the square root of zero
      being zero: no fatigue, a plateau iff `v > 0.85`, and otherwise the
      maintain band from 0.80 and a decrease below it. */
  lemma SteadySeries(ws: seq<Entry>, roots: Roots, v: real, w: real)
    requires |ws| >= 3 && roots.sqrt(0.0) == 0.0
    requires forall i :: 0 <= i < |ws| ==> ws[i].completion == v
    ensures var a := AnalyzePerformance(ws, roots);
      a.trend == 0.0 && a.volatility == 0.0 && a.fatigueLevel == LowFatigue &&
      (a.plateauDetected <==> v > 0.85)
    ensures var r := AiRecommendation(AnalyzePerformance(ws, roots), w);
      (v > 0.85 ==> r.kind == Plateau) &&
      (0.80 <= v <= 0.85 ==> r.kind == Maintain) &&
      (v < 0.80 ==> r.kind == Decrease)
  {
    ConstantAverages(Completions(ws), v);
  }

  /** Every average of a constant series is its value, and nothing
      deviates from it. */
  lemma ConstantAverages(c: seq<real>, v: real)
    requires |c| >= 3
    requires forall i :: 0 <= i < |c| ==> c[i] == v
    ensures Mean(c) == v && OlderAvg(c) == v && RecentAvg(c) == v
    ensures SumSqDev(c, Mean(c)) == 0.0
  {
    var older, recent := c[..|c| - 2], Last(c, 2);
    assert forall i :: 0 <= i < |older| ==> older[i] == v;
    ConstantMean(c, v);
    ConstantMean(older, v);
    ConstantMean(recent, v);
    SumSqDevConstant(c, v);
  }

  lemma ConstantMean(c: seq<real>, v: real)
    requires |c| > 0
    requires forall i :: 0 <= i < |c| ==> c[i] == v
    ensures Sum(c) / |c| as real == v
  {
    SumBounds(c, v, v);
    DivBetween(Sum(c), |c| as real, v, v);
  }

  // ---------------------------------------------------------------------
  // Progress history
  // ---------------------------------------------------------------------

  /** Entries kept per exercise. */
  const MaxHistory: nat := 10

  /** One push followed by a shift when the history grew past the bound. */
  function Appended(h: seq<Entry>, e: Entry): (r: seq<Entry>)
    ensures |h| <= MaxHistory ==> |r| <= MaxHistory
    ensures 0 < |r| <= |h| + 1 && r[|r| - 1] == e
    ensures r == (h + [e])[|h + [e]| - |r|..]
  {
    var pushed := h + [e];
    if |pushed| > MaxHistory then pushed[1..] else pushed
  }

  /** Several saves in a row. */
  function AppendAll(h: seq<Entry>, es: seq<Entry>): seq<Entry>
    decreases |es|
  {
    if |es| == 0 then h else Appended(AppendAll(h, es[..|es| - 1]), es[|es| - 1])
  }

  /** Starting within the bound, the history after any number of saves is
      exactly the last (at most) ten entries of everything recorded, in
      order. */
  lemma {:induction false} HistoryKeepsLastTen(h: seq<Entry>, es: seq<Entry>)
    requires |h| <= MaxHistory
    ensures AppendAll(h, es) == Last(h + es, MinInt(MaxHistory, |h| + |es|))
    decreases |es|
  {
    if |es| == 0 {
      assert h + es == h;
    } else {
      var init, e := es[..|es| - 1], es[|es| - 1];
      var all := h + es;
      assert all == (h + init) + [e];
      HistoryKeepsLastTen(h, init);
      var m := MinInt(MaxHistory, |h| + |init|);
      if m == MaxHistory {
        FullWindowSlides(h + init, e);
      } else {
        assert Last(h + init, m) == h + init;
      }
    }
  }

  /** On a full history, a save drops the oldest entry: the window of the
      last ten slides by one. */
  lemma FullWindowSlides(xs: seq<Entry>, e: Entry)
    requires |xs| >= MaxHistory
    ensures Appended(Last(xs, MaxHistory), e) == Last(xs + [e], MaxHistory)
  {
    var window := Last(xs, MaxHistory);
    assert |window + [e]| > MaxHistory;
    assert (window + [e])[1..] == (xs + [e])[|xs| + 1 - MaxHistory..];
  }

  /** The source returns a maintain suggestion of confidence 0.5 with no
      progress record or fewer than three entries; otherwise it analyses at
      most the last five entries. */
  function GetAIRecommendation(progress: map<string, seq<Entry>>, name: string, w: real, roots: Roots): (r: Suggestion)
    ensures (name !in progress || |progress[name]| < 3) ==> r == Suggestion(w, 0.5, Maintain)
    ensures name in progress && |progress[name]| >= 3 ==>
      var h := progress[name];
      r == AiRecommendation(AnalyzePerformance(Last(h, MinInt(5, |h|)), roots), w)
  {
    if name !in progress || |progress[name]| < 3 then Suggestion(w, 0.5, Maintain)
    else
      var h := progress[name];
      AiRecommendation(AnalyzePerformance(Last(h, MinInt(5, |h|)), roots), w)
  }

  /** Only the last five entries of a history matter. */
  lemma OnlyLastFiveCount(p: map<string, seq<Entry>>, q: map<string, seq<Entry>>, name: string, w: real, roots: Roots)
    requires name in p && name in q && |p[name]| >= 5 && |q[name]| >= 5
    requires Last(p[name], 5) == Last(q[name], 5)
    ensures GetAIRecommendation(p, name, w, roots) == GetAIRecommendation(q, name, w, roots)
  {
  }

  // ---------------------------------------------------------------------
  // checkDeloadNeed
  // ---------------------------------------------------------------------

  /** One exercise as recorded in a finished workout. */
  datatype ExerciseResult = ExerciseResult(name: string, repsCompleted: real, repsTarget: real)

  /** The named routines of the weekly tables; `PechoEspaldaA` is only the
      routine new users start with. */
  datatype Routine = PechoEspaldaA | PechoEspaldaB | BrazosA | BrazosB | PiernasA | PiernasB | Descanso

  /** A workout of the history; its date and completion time are not
      modelled. */
  datatype Session = Session(muscleGroup: Routine, completedExercises: Option<seq<ExerciseResult>>)

  function ExercisesOf(s: Session): seq<ExerciseResult> {
    s.completedExercises.GetOr([])
  }

  /** The completion ratio is a division by the target repetitions. */
  predicate Measurable(es: seq<ExerciseResult>) {
    forall j :: 0 <= j < |es| ==> es[j].repsTarget != 0.0
  }

  predicate HistoryMeasurable(ws: seq<Session>) {
    forall i :: 0 <= i < |ws| ==> Measurable(ExercisesOf(ws[i]))
  }

  /** One completion ratio attributed to an exercise name. */
  datatype Sample = Sample(name: string, completion: real)

  function ExerciseSamples(es: seq<ExerciseResult>): (r: seq<Sample>)
    requires Measurable(es)
    ensures |r| == |es|
    ensures forall i :: 0 <= i < |es| ==> r[i] == Sample(es[i].name, es[i].repsCompleted / es[i].repsTarget)
    decreases |es|
  {
    if |es| == 0 then []
    else
      var e := es[|es| - 1];
      ExerciseSamples(es[..|es| - 1]) + [Sample(e.name, e.repsCompleted / e.repsTarget)]
  }

  /** Every sample of a history, workout by workout and exercise by exercise. */
  function SessionSamples(ws: seq<Session>): seq<Sample>
    requires HistoryMeasurable(ws)
    decreases |ws|
  {
    if |ws| == 0 then []
    else SessionSamples(ws[..|ws| - 1]) + ExerciseSamples(ExercisesOf(ws[|ws| - 1]))
  }

  /** The per-exercise lists of completions and the names in the order they
      first appeared (the iteration order of an object's values). */
  datatype Groups = Groups(perf: map<string, seq<real>>, names: seq<string>)

  function AddSample(g: Groups, s: Sample): Groups {
    var known := s.name in g.perf;
    var base := if known then g.perf[s.name] else [];
    Groups(g.perf[s.name := base + [s.completion]], if known then g.names else g.names + [s.name])
  }

  function Group(ps: seq<Sample>): Groups
    decreases |ps|
  {
    if |ps| == 0 then Groups(map[], []) else AddSample(Group(ps[..|ps| - 1]), ps[|ps| - 1])
  }

  /** Reference definition: the completions of the samples named `n`, in order. */
  function SamplesNamed(ps: seq<Sample>, n: string): seq<real>
    decreases |ps|
  {
    if |ps| == 0 then []
    else
      var p := ps[|ps| - 1];
      SamplesNamed(ps[..|ps| - 1], n) + (if p.name == n then [p.completion] else [])
  }

  predicate Distinct(names: seq<string>) {
    forall i, j :: 0 <= i < j < |names| ==> names[i] != names[j]
  }

  /** Grouping collects, for every name, exactly its samples in order, and
      lists each name that occurs once. */
  lemma {:induction false} GroupCollects(ps: seq<Sample>)
    ensures var g := Group(ps);
      (forall n :: n in g.perf <==> n in g.names) && Distinct(g.names) &&
      (forall n :: n in g.perf ==> g.perf[n] == SamplesNamed(ps, n) && |g.perf[n]| > 0) &&
      (forall n :: n !in g.perf ==> SamplesNamed(ps, n) == [])
    decreases |ps|
  {
    if |ps| > 0 {
      GroupCollects(ps[..|ps| - 1]);
    }
  }

  /** The older and recent averages of one exercise's samples. */
  predicate Declining(p: seq<real>)
    requires |p| >= 3
  {
    OlderAvg(p) - RecentAvg(p) > 0.1
  }

  predicate Stalled(p: seq<real>)
    requires |p| >= 3
  {
    Abs(OlderAvg(p) - RecentAvg(p)) < 0.02
  }

  datatype Overload = Overload(total: nat, declining: nat, stalled: nat)

  /** The three tallies of the check: every exercise with at least three
      samples, the declining ones, the stalled ones. */
  datatype OverloadKind = Qualifies | Declines | Stalls

  predicate Shows(p: seq<real>, kind: OverloadKind)
    requires |p| >= 3
  {
    match kind
    case Qualifies => true
    case Declines => Declining(p)
    case Stalls => Stalled(p)
  }

  /** The listed exercises with at least three samples that show `kind`. */
  function Counted(names: seq<string>, perf: map<string, seq<real>>, kind: OverloadKind): set<string> {
    set n | n in names && n in perf && |perf[n]| >= 3 && Shows(perf[n], kind)
  }

  /** One more name at the end adds itself to each tally it shows, when it
      was not listed before. */
  lemma CountedSnoc(names: seq<string>, perf: map<string, seq<real>>, kind: OverloadKind)
    requires |names| > 0 && names[|names| - 1] in perf
    ensures Distinct(names) ==> Distinct(names[..|names| - 1])
    ensures Distinct(names) ==>
      var x, p := names[|names| - 1], perf[names[|names| - 1]];
      |Counted(names, perf, kind)| ==
        |Counted(names[..|names| - 1], perf, kind)| + (if |p| >= 3 && Shows(p, kind) then 1 else 0)
  {
    var init, x := names[..|names| - 1], names[|names| - 1];
    assert names == init + [x];
    if Distinct(names) {
      assert x !in init by {
        forall i | 0 <= i < |init|
          ensures init[i] != x
        {
          assert names[i] != names[|names| - 1];
        }
      }
      var q, q' := Counted(names, perf, kind), Counted(init, perf, kind);
      if |perf[x]| >= 3 && Shows(perf[x], kind) {
        assert q == q' + {x};
      } else {
        assert q == q';
      }
    }
  }

  /** Exercises with at least three samples, and how many of them decline or
      stall; over distinct names, the sizes of the three tallies. */
  function CountOverload(names: seq<string>, perf: map<string, seq<real>>): (o: Overload)
    requires forall i :: 0 <= i < |names| ==> names[i] in perf
    ensures o.total <= |names|
    ensures o.declining + o.stalled <= o.total
    ensures Distinct(names) ==>
      && o.total == |Counted(names, perf, Qualifies)|
      && o.declining == |Counted(names, perf, Declines)|
      && o.stalled == |Counted(names, perf, Stalls)|
    decreases |names|
  {
    if |names| == 0 then
      assert Counted(names, perf, Qualifies) == {};
      assert Counted(names, perf, Declines) == {};
      assert Counted(names, perf, Stalls) == {};
      Overload(0, 0, 0)
    else
      CountedSnoc(names, perf, Qualifies);
      CountedSnoc(names, perf, Declines);
      CountedSnoc(names, perf, Stalls);
      var o := CountOverload(names[..|names| - 1], perf);
      var p := perf[names[|names| - 1]];
      if |p| < 3 then o
      else
        Overload(o.total + 1,
          o.declining + (if Declining(p) then 1 else 0),
          o.stalled + (if Stalled(p) then 1 else 0))
  }

  datatype Severity = MediumSeverity | HighSeverity
  datatype DeloadAdvice = NotNeeded | Needed(severity: Severity)

  /** With no qualifying exercise both ratios are `0 / 0`, which compares
      false against every bound, so no deload is advised. In integer terms:
      high when more than two fifths of the qualifying exercises decline;
      medium when more than three fifths stall or more than a quarter decline. */
  function Verdict(o: Overload): (r: DeloadAdvice)
    ensures r == Needed(HighSeverity) <==> o.total > 0 && 5 * o.declining > 2 * o.total
    ensures r == Needed(MediumSeverity) <==>
      o.total > 0 && 5 * o.declining <= 2 * o.total &&
      (5 * o.stalled > 3 * o.total || 4 * o.declining > o.total)
    ensures o.total == 0 ==> r == NotNeeded
  {
    if o.total == 0 then NotNeeded
    else
      var t := o.total as real;
      var declineRatio := o.declining as real / t;
      var stallRatio := o.stalled as real / t;
      RatioAbove(o.declining as real, t, 0.4);
      RatioAbove(o.declining as real, t, 0.25);
      RatioAbove(o.stalled as real, t, 0.6);
      if declineRatio > 0.4 then Needed(HighSeverity)
      else if stallRatio > 0.6 || declineRatio > 0.25 then Needed(MediumSeverity)
      else NotNeeded
  }

  /** The sessions the check looks at, and whether they allow the divisions. */
  predicate DeloadReady(ws: seq<Session>) {
    |ws| >= 10 ==> HistoryMeasurable(Last(ws, 8))
  }

  /** The names of a list of samples. */
  function Names(ps: seq<Sample>): set<string> {
    set i | 0 <= i < |ps| :: ps[i].name
  }

  /** The exercise names of `ps` with at least three samples that show `kind`. */
  function Overloaded(ps: seq<Sample>, kind: OverloadKind): set<string> {
    set n | n in Names(ps) && |SamplesNamed(ps, n)| >= 3 && Shows(SamplesNamed(ps, n), kind)
  }

  /** A name with a sample is one of the names. */
  lemma {:induction false} SampledNameOccurs(ps: seq<Sample>, n: string)
    requires |SamplesNamed(ps, n)| > 0
    ensures n in Names(ps)
    decreases |ps|
  {
    var init := ps[..|ps| - 1];
    if ps[|ps| - 1].name != n {
      SampledNameOccurs(init, n);
      var i :| 0 <= i < |init| && init[i].name == n;
      assert ps[i].name == n;
    }
  }

  /** The tallies over the grouping are the tallies over the samples. */
  lemma GroupedTallies(ps: seq<Sample>, kind: OverloadKind)
    ensures var g := Group(ps);
      (forall i :: 0 <= i < |g.names| ==> g.names[i] in g.perf) && Distinct(g.names) &&
      Counted(g.names, g.perf, kind) == Overloaded(ps, kind)
  {
    var g := Group(ps);
    GroupCollects(ps);
    forall n | n in Overloaded(ps, kind)
      ensures n in Counted(g.names, g.perf, kind)
    {
      assert n in g.perf;
    }
    forall n | n in Counted(g.names, g.perf, kind)
      ensures n in Overloaded(ps, kind)
    {
      SampledNameOccurs(ps, n);
    }
  }

  /** `null` below ten workouts; otherwise the verdict over the exercises
      with at least three samples in the last eight workouts, of which it
      counts the declining and the stalled ones. */
  function DeloadCheck(ws: seq<Session>): (r: Option<DeloadAdvice>)
    requires DeloadReady(ws)
    ensures r.None? <==> |ws| < 10
    ensures |ws| >= 10 ==>
      var ps := SessionSamples(Last(ws, 8));
      r == Some(Verdict(Overload(|Overloaded(ps, Qualifies)|, |Overloaded(ps, Declines)|, |Overloaded(ps, Stalls)|)))
  {
    if |ws| < 10 then None
    else
      var ps := SessionSamples(Last(ws, 8));
      var g := Group(ps);
      GroupedTallies(ps, Qualifies);
      GroupedTallies(ps, Declines);
      GroupedTallies(ps, Stalls);
      Some(Verdict(CountOverload(g.names, g.perf)))
  }

  /** When no recent workout recorded an exercise, no deload is advised. */
  lemma {:induction false} NoExercisesNoDeload(ws: seq<Session>)
    requires |ws| >= 10
    requires forall i :: 0 <= i < |ws| ==> ExercisesOf(ws[i]) == []
    ensures DeloadCheck(ws) == Some(NotNeeded)
  {
    var recent := Last(ws, 8);
    NoSamples(recent);
  }

  lemma {:induction false} NoSamples(ws: seq<Session>)
    requires forall i :: 0 <= i < |ws| ==> ExercisesOf(ws[i]) == []
    ensures SessionSamples(ws) == []
    decreases |ws|
  {
    if |ws| > 0 {
      NoSamples(ws[..|ws| - 1]);
    }
  }

  // ---------------------------------------------------------------------
  // Weekly routines
  // ---------------------------------------------------------------------

  datatype WeekType = A | B

  /** `determineWeekType`: even weeks of the year are A, odd weeks B. */
  function DetermineWeekType(weekNumber: nat): (r: WeekType)
    ensures r == A <==> weekNumber % 2 == 0
  {
    if weekNumber % 2 == 0 then A else B
  }

  /** The week-type switch of `completeWorkout`. */
  function Toggle(w: WeekType): (r: WeekType)
    ensures r != w
  {
    if w == A then B else A
  }

  /** `getTodaysRoutine` for a weekday `0` (Sunday) to `6`. */
  function TodaysRoutine(w: WeekType, day: nat): (r: Routine)
    requires day < 7
    ensures r == Descanso <==> day in {1, 4, 6}
    ensures r != PechoEspaldaA
  {
    match w
    case A =>
      if day == 0 then PiernasB
      else if day == 2 then PechoEspaldaB
      else if day == 3 then BrazosB
      else if day == 5 then PiernasA
      else Descanso
    case B =>
      if day == 0 then BrazosB
      else if day == 2 then PiernasB
      else if day == 3 then PechoEspaldaB
      else if day == 5 then BrazosA
      else Descanso
  }

  /** `getNextWorkoutDay`: the first day after `today`, within a week, whose
      routine is not a rest day. No two rest days follow each other, so the
      search stops after at most two days. */
  method NextWorkoutDay(w: WeekType, today: nat) returns (offset: nat, routine: Routine)
    requires today < 7
    ensures 1 <= offset <= 2
    ensures routine == TodaysRoutine(w, (today + offset) % 7) && routine != Descanso
    ensures offset == 2 ==> TodaysRoutine(w, (today + 1) % 7) == Descanso
  {
    offset := 1;
    routine := TodaysRoutine(w, (today + 1) % 7);
    while routine == Descanso
      invariant 1 <= offset <= 2
      invariant routine == TodaysRoutine(w, (today + offset) % 7)
      invariant offset == 2 ==> TodaysRoutine(w, (today + 1) % 7) == Descanso
      invariant offset == 2 ==> routine != Descanso
      decreases 2 - offset
    {
      offset := offset + 1;
      routine := TodaysRoutine(w, (today + offset) % 7);
    }
  }

  // ---------------------------------------------------------------------
  // The tracker's stored data
  // ---------------------------------------------------------------------

  /** An exercise of the plan: its series, target repetitions and weight. */
  datatype Exercise = Exercise(name: string, series: nat, reps: nat, weight: real)

  /** What the user entered for one series. */
  datatype SeriesInput = SeriesInput(reps: int, weight: real, completed: bool)

  /** Repetitions and lifted volume of the completed series. */
  function CompletedReps(inputs: seq<SeriesInput>): int
    decreases |inputs|
  {
    if |inputs| == 0 then 0
    else
      var last := inputs[|inputs| - 1];
      CompletedReps(inputs[..|inputs| - 1]) + (if last.completed then last.reps else 0)
  }

  function CompletedLoad(inputs: seq<SeriesInput>): real
    decreases |inputs|
  {
    if |inputs| == 0 then 0.0
    else
      var last := inputs[|inputs| - 1];
      CompletedLoad(inputs[..|inputs| - 1]) + (if last.completed then last.reps as real * last.weight else 0.0)
  }

  /** Series left unticked add nothing. */
  lemma {:induction false} UntickedCountsNothing(inputs: seq<SeriesInput>)
    requires forall i :: 0 <= i < |inputs| ==> !inputs[i].completed
    ensures CompletedReps(inputs) == 0 && CompletedLoad(inputs) == 0.0
    decreases |inputs|
  {
    if |inputs| > 0 {
      UntickedCountsNothing(inputs[..|inputs| - 1]);
    }
  }

  function HistoryOf(progress: map<string, seq<Entry>>, name: string): seq<Entry> {
    if name in progress then progress[name] else []
  }

  /** The two `forEach` loops of `checkDeloadNeed` that fill the per-exercise
      completion lists. */
  method GroupSessions(recent: seq<Session>) returns (perf: map<string, seq<real>>, names: seq<string>)
    requires HistoryMeasurable(recent)
    ensures Groups(perf, names) == Group(SessionSamples(recent))
  {
    perf, names := map[], [];
    var i := 0;
    while i < |recent|
      invariant 0 <= i <= |recent|
      invariant Groups(perf, names) == Group(SessionSamples(recent[..i]))
    {
      assert recent[..i + 1][..i] == recent[..i];
      perf, names := GroupExercises(perf, names, SessionSamples(recent[..i]), ExercisesOf(recent[i]));
      i := i + 1;
    }
    assert recent[..|recent|] == recent;
  }

  method GroupExercises(perf0: map<string, seq<real>>, names0: seq<string>, before: seq<Sample>, es: seq<ExerciseResult>)
    returns (perf: map<string, seq<real>>, names: seq<string>)
    requires Measurable(es)
    requires Groups(perf0, names0) == Group(before)
    ensures Groups(perf, names) == Group(before + ExerciseSamples(es))
  {
    perf, names := perf0, names0;
    var j := 0;
    assert before + ExerciseSamples(es[..0]) == before;
    while j < |es|
      invariant 0 <= j <= |es|
      invariant Groups(perf, names) == Group(before + ExerciseSamples(es[..j]))
    {
      var e := es[j];
      var sample := Sample(e.name, e.repsCompleted / e.repsTarget);
      var ps := before + ExerciseSamples(es[..j]);
      SampleStep(es, j);
      assert before + ExerciseSamples(es[..j + 1]) == ps + [sample];
      GroupStep(ps, sample);
      perf, names := Record(perf, names, sample);
      j := j + 1;
    }
    assert es[..|es|] == es;
  }

  /** One `push` into the list of an exercise, created empty on first sight. */
  method Record(perf0: map<string, seq<real>>, names0: seq<string>, s: Sample)
    returns (perf: map<string, seq<real>>, names: seq<string>)
    ensures Groups(perf, names) == AddSample(Groups(perf0, names0), s)
  {
    perf, names := perf0, names0;
    if s.name !in perf {
      perf := perf[s.name := []];
      names := names + [s.name];
    }
    perf := perf[s.name := perf[s.name] + [s.completion]];
    assert perf == AddSample(Groups(perf0, names0), s).perf;
  }

  lemma SampleStep(es: seq<ExerciseResult>, j: nat)
    requires Measurable(es) && j < |es|
    ensures ExerciseSamples(es[..j + 1]) ==
      ExerciseSamples(es[..j]) + [Sample(es[j].name, es[j].repsCompleted / es[j].repsTarget)]
  {
    assert es[..j + 1][..j] == es[..j];
  }

  lemma GroupStep(ps: seq<Sample>, s: Sample)
    ensures Group(ps + [s]) == AddSample(Group(ps), s)
  {
    assert (ps + [s])[..|ps|] == ps;
  }

  /** The counting loop over the per-exercise lists. */
  method CountExercises(names: seq<string>, perf: map<string, seq<real>>) returns (o: Overload)
    requires forall i :: 0 <= i < |names| ==> names[i] in perf
    ensures o == CountOverload(names, perf)
  {
    var total, declining, stalled := 0, 0, 0;
    var k := 0;
    while k < |names|
      invariant 0 <= k <= |names|
      invariant Overload(total, declining, stalled) == CountOverload(names[..k], perf)
    {
      assert names[..k + 1][..k] == names[..k];
      var p := perf[names[k]];
      if |p| >= 3 {
        total := total + 1;
        var older, newer := OlderAvg(p), RecentAvg(p);
        if older - newer > 0.1 {
          declining := declining + 1;
        }
        if Abs(older - newer) < 0.02 {
          stalled := stalled + 1;
        }
      }
      k := k + 1;
    }
    assert names[..|names|] == names;
    o := Overload(total, declining, stalled);
  }

  /** The totals loop of `saveExerciseData`: the repetitions and the load
      (repetitions times weight) of the ticked series. */
  method TotalSeries(inputs: seq<SeriesInput>) returns (totalReps: int, totalWeight: real)
    ensures totalReps == CompletedReps(inputs) && totalWeight == CompletedLoad(inputs)
  {
    totalReps := 0;
    totalWeight := 0.0;
    var i := 0;
    while i < |inputs|
      invariant 0 <= i <= |inputs|
      invariant totalReps == CompletedReps(inputs[..i])
      invariant totalWeight == CompletedLoad(inputs[..i])
    {
      assert inputs[..i + 1][..i] == inputs[..i];
      var s := inputs[i];
      if s.completed {
        totalReps := totalReps + s.reps;
        totalWeight := totalWeight + s.reps as real * s.weight;
      }
      i := i + 1;
    }
    assert inputs[..|inputs|] == inputs;
  }

  class Trainer {
    var progress: map<string, seq<Entry>>
    var workouts: seq<Session>
    var currentWorkout: Session
    var weekType: WeekType

    /** Every exercise keeps at most ten entries. */
    ghost predicate Valid()
      reads this
    {
      forall n :: n in progress ==> |progress[n]| <= MaxHistory
    }

    /** The data of a new user. */
    constructor (weekNumber: nat)
      ensures Valid()
      ensures progress == map[] && workouts == []
      ensures currentWorkout == Session(PechoEspaldaA, Some([]))
      ensures weekType == DetermineWeekType(weekNumber)
    {
      progress := map[];
      workouts := [];
      currentWorkout := Session(PechoEspaldaA, Some([]));
      weekType := DetermineWeekType(weekNumber);
    }

    /** `saveExerciseData`: totals the completed series, pushes the entry
        and drops the oldest one past ten. */
    method SaveExerciseData(exercise: Exercise, inputs: seq<SeriesInput>) returns (entry: Entry)
      requires Valid()
      requires |inputs| == exercise.series && exercise.series * exercise.reps > 0
      modifies this
      ensures Valid()
      ensures entry == Entry(CompletedReps(inputs),
        CompletedReps(inputs) as real / (exercise.series * exercise.reps) as real,
        CompletedLoad(inputs))
      ensures progress == old(progress)[exercise.name := Appended(HistoryOf(old(progress), exercise.name), entry)]
      ensures workouts == old(workouts) && currentWorkout == old(currentWorkout) && weekType == old(weekType)
    {
      var targetReps := exercise.series * exercise.reps;
      var totalReps, totalWeight := TotalSeries(inputs);
      entry := Entry(totalReps, totalReps as real / targetReps as real, totalWeight);
      var history := HistoryOf(progress, exercise.name) + [entry];
      if |history| > MaxHistory {
        history := history[1..];
      }
      progress := progress[exercise.name := history];
    }

    /** `completeWorkout` on weekday `today`: the workout joins the history,
        the week type switches when tomorrow is Monday, and today's routine
        becomes the current workout. */
    method CompleteWorkout(today: nat)
      requires today < 7 && Valid()
      modifies this
      ensures Valid()
      ensures workouts == old(workouts) + [old(currentWorkout)]
      ensures weekType == (if today == 0 then Toggle(old(weekType)) else old(weekType))
      ensures currentWorkout == Session(TodaysRoutine(weekType, today), Some([]))
      ensures progress == old(progress)
    {
      workouts := workouts + [currentWorkout];
      if (today + 1) % 7 == 1 {
        weekType := if weekType == A then B else A;
      }
      currentWorkout := Session(TodaysRoutine(weekType, today), Some([]));
    }

    /** `checkDeloadNeed`: groups the completions of the last eight workouts
        by exercise, then counts the declining and stalled exercises. */
    method CheckDeloadNeed() returns (r: Option<DeloadAdvice>)
      requires DeloadReady(workouts)
      ensures r == DeloadCheck(workouts)
    {
      if |workouts| < 10 {
        return None;
      }
      var recent := Last(workouts, 8);
      var perf, names := GroupSessions(recent);
      GroupCollects(SessionSamples(recent));
      var o := CountExercises(names, perf);
      r := Some(Verdict(o));
    }
  }
}
