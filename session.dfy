/**
 * The module-level state of emotionAnalysis.ts and the exported operations
 * that read and update it: emotionHistory, microExpressionHistory and
 * baselineEmotions as the fields of one object, each operation proved to
 * move that object exactly as its specification function moves a snapshot.
 */
module Session {
  import opened Common
  import opened Emotions
  import opened Bands
  import opened Transitions
  import opened MicroExpressions
  import opened Baseline
  import opened FacialTension
  import opened Indicators
  import opened Dominant
  import opened Formatting
  import opened Stages
  import opened Analysis

  class Session {
    // emotionHistory
    var previousEmotions: Option<Vector>
    var lastUpdateTime: int
    var lastValidTransition: Option<Transition>
    var transitions: seq<Transition>
    // microExpressionHistory
    var expressions: seq<MicroExpression>
    var lastSequenceId: int
    // baselineEmotions
    var baselineEmotions: Option<Vector>

    function TrackerView(): TrackerState
      reads this
    {
      TrackerState(previousEmotions, lastUpdateTime, lastValidTransition, transitions)
    }

    function MicroView(): MicroState
      reads this
    {
      MicroState(expressions, lastSequenceId)
    }

    function StateView(): SessionState
      reads this
    {
      SessionState(TrackerView(), MicroView(), baselineEmotions)
    }

    /** The state at module load: no previous sample, empty histories, no baseline. */
    constructor (loadTime: int)
      ensures StateView() == SessionState(TrackerState(None, loadTime, None, []), MicroState([], 0), None)
    {
      previousEmotions := None;
      lastUpdateTime := loadTime;
      lastValidTransition := None;
      transitions := [];
      expressions := [];
      lastSequenceId := 0;
      baselineEmotions := None;
    }

    /** detectEmotionChanges, with its clock read passed in as `now`. */
    method DetectEmotionChanges(current: Vector, now: int) returns (valid: seq<Transition>)
      modifies this
      ensures (valid, TrackerView()) == Observe(old(TrackerView()), current, now)
      ensures MicroView() == old(MicroView()) && baselineEmotions == old(baselineEmotions)
    {
      if previousEmotions.None? {
        previousEmotions := Some(current);
        lastUpdateTime := now;
        return [];
      }
      var prev := previousEmotions.value;
      var elapsed := now - lastUpdateTime;
      var all;
      all, lastValidTransition := ScanLabels(prev, current, now, elapsed, lastValidTransition);
      previousEmotions := Some(current);
      lastUpdateTime := now;
      valid := ValidOnly(all);
      transitions := transitions + valid;
      if |transitions| > HistoryCapacity {
        transitions := transitions[|transitions| - HistoryCapacity..];
      }
    }

    /** analyzeMicroExpression: the new record is computed from the history, then pushed onto it. */
    method AnalyzeMicroExpression(e: Emotion, intensity: real, now: int) returns (m: Option<MicroExpression>)
      modifies this
      ensures m == MicroStep(old(MicroView()), e, intensity, now).0
      ensures MicroView() == MicroStep(old(MicroView()), e, intensity, now).1
      ensures TrackerView() == old(TrackerView()) && baselineEmotions == old(baselineEmotions)
    {
      var next;
      m, next := NextMicroExpression(MicroView(), e, intensity, now);
      expressions, lastSequenceId := next.expressions, next.lastSequenceId;
    }

    /** setBaselineEmotions: the normalised sample becomes the baseline. */
    method SetBaselineEmotions(v: Vector)
      modifies this
      ensures baselineEmotions == Some(Normalize(v))
      ensures TrackerView() == old(TrackerView()) && MicroView() == old(MicroView())
    {
      baselineEmotions := Some(Normalize(v));
    }

    /** clearBaselineEmotions. */
    method ClearBaselineEmotions()
      modifies this
      ensures baselineEmotions == None
      ensures TrackerView() == old(TrackerView()) && MicroView() == old(MicroView())
    {
      baselineEmotions := None;
    }

    /** analyzeEmotions, with its three clock reads passed in. */
    method AnalyzeEmotions(raw: RawSample, question: string, answer: string, landmarks: Option<Landmarks>, clock: Clock)
      returns (result: AnalysisResult)
      requires landmarks.Some? ==> WellFormed(landmarks.value)
      modifies this
      ensures (result, StateView()) == Analyze(old(StateView()), raw, question, answer, landmarks, clock)
    {
      if !IsValidEmotions(raw) {
        return DefaultResult(question, answer);
      }
      var v := Normalize(ToVector(raw));
      result := AnalyzeSample(v, question, answer, landmarks, clock);
    }

    /** The body of analyzeEmotions past the validity check, on the normalised sample. */
    method AnalyzeSample(v: Vector, question: string, answer: string, landmarks: Option<Landmarks>, clock: Clock)
      returns (result: AnalysisResult)
      requires landmarks.Some? ==> WellFormed(landmarks.value)
      modifies this
      ensures (result, StateView()) == Analysis.AnalyzeSample(old(StateView()), v, question, answer, landmarks, clock)
    {
      var ts := DetectEmotionChanges(v, clock.transitions);
      var entries := DominantEntries(v);
      var truth, stability, observations, dominant := OpeningStages(ts, entries, v);
      var ms := CollectMicroExpressions(v, clock.micro);
      result := FinishAnalysis(v, question, answer, landmarks, clock, ts, ms, baselineEmotions, truth, stability, observations, dominant);
    }

    /** The forEach over the labels that feeds analyzeMicroExpression. */
    method CollectMicroExpressions(v: Vector, now: int) returns (ms: seq<MicroExpression>)
      modifies this
      ensures (ms, MicroView()) == MicroRun(old(MicroView()), v, now, |Labels|)
      ensures TrackerView() == old(TrackerView()) && baselineEmotions == old(baselineEmotions)
    {
      ghost var start := MicroView();
      ms := [];
      for i := 0 to |Labels|
        invariant (ms, MicroView()) == MicroRun(start, v, now, i)
        invariant TrackerView() == old(TrackerView()) && baselineEmotions == old(baselineEmotions)
      {
        var e := Labels[i];
        var value := v.At(e);
        if e != Neutral && value > 0.0 {
          ghost var before := MicroView();
          ghost var prior := ms;
          assert prior == MicroRun(start, v, now, i).0;
          var m := AnalyzeMicroExpression(e, value, now);
          ghost var step := MicroStep(before, e, value, now);
          assert m == step.0;
          assert MicroView() == step.1;
          if m.Some? {
            ms := ms + [m.value];
          }
          assert ms == prior + (if step.0.Some? then [step.0.value] else []);
        }
      }
    }
  }

  /**
   * The forEach of detectEmotionChanges over the labels: a transition for
   * every label that moved by 1% or more, each valid one becoming the last
   * valid transition as soon as it is made.
   */
  method ScanLabels(prev: Vector, current: Vector, now: int, elapsed: int, lastValid: Option<Transition>)
    returns (all: seq<Transition>, lastValid': Option<Transition>)
    ensures ScanState(all, lastValid') == Scan(|Labels|, prev, current, now, elapsed, lastValid)
  {
    all, lastValid' := [], lastValid;
    for i := 0 to |Labels|
      invariant ScanState(all, lastValid') == Scan(i, prev, current, now, elapsed, lastValid)
    {
      var e := Labels[i];
      var change := Abs(current.At(e) - prev.At(e));
      if change >= UltraWeakChange {
        var t := MakeTransition(e, prev.At(e), current.At(e), now, elapsed, lastValid');
        if t.isValid {
          lastValid' := Some(t);
        }
        all := all + [t];
      }
    }
  }

  /** The body of analyzeMicroExpression over a snapshot of the history. */
  method NextMicroExpression(st: MicroState, e: Emotion, intensity: real, now: int)
    returns (m: Option<MicroExpression>, st': MicroState)
    ensures m == MicroStep(st, e, intensity, now).0
    ensures st' == MicroStep(st, e, intensity, now).1
  {
    if intensity < UltraWeakMicro {
      return None, st;
    }
    var buffer := st.expressions;
    var counter := st.lastSequenceId;
    var start := if |buffer| > 0 && buffer[0].startTime != 0 then buffer[0].startTime else now;
    var duration := MinInt(now - start, MicroMaxDurationMs);
    var recent := Recent(buffer, now, SequenceWindowMs);
    var id: int;
    if |recent| > 0 {
      id := recent[0].sequence;
    } else {
      counter := counter + 1;
      id := counter;
    }
    assert (id, counter) == SequenceChoice(st, now);
    var x := MicroExpression(e, intensity, MicroExpressionSignificance(e, intensity, Some(duration)), duration, now, id);
    assert x == NewRecord(st, e, intensity, now) by {
      assert start == DurationBase(st, now);
    }
    buffer := buffer + [x];
    if |buffer| > MicroCapacity {
      buffer := buffer[|buffer| - MicroCapacity..];
    }
    assert buffer == KeepLast(st.expressions + [x], MicroCapacity);
    m, st' := Some(x), MicroState(buffer, counter);
  }

  /**
   * The score accumulation up to the micro-expressions: from 0.5 and 1, the
   * transition penalties, the dominant-emotion lines, then the fear penalty.
   */
  method OpeningStages(ts: seq<Transition>, entries: seq<Entry>, v: Vector)
    returns (truth: real, stability: real, observations: seq<Observation>, dominant: seq<Emotion>)
    ensures var e := EarlyPenalties(ts, entries, v);
      truth == 0.5 - e.truthCut && stability == 1.0 - e.stabilityCut && observations == e.log
    ensures dominant == EmotionsOfEntries(entries)
  {
    truth, stability, observations := ApplyTransitions(ts, 0.5, 1.0, []);
    dominant, observations := ApplyDominant(entries, observations);
    if v.fearful > FearThreshold {
      var fearImpact := v.fearful * 0.5;
      truth := truth - fearImpact;
      stability := stability - fearImpact;
    }
  }

  /**
   * The rest of the accumulation: micro-expressions, landmarks, indicator
   * lines and the baseline comparison, continuing from the opening values.
   */
  method ClosingStages(ms: seq<MicroExpression>, landmarks: Option<Landmarks>, indicators: seq<Indicator>,
                       comparison: Option<Comparison>, truth: real, stability: real, observations: seq<Observation>)
    returns (truth': real, stability': real, observations': seq<Observation>)
    requires landmarks.Some? ==> WellFormed(landmarks.value)
    ensures var e := LatePenalties(ms, landmarks, indicators, comparison);
      truth' == truth - e.truthCut && stability' == stability - e.stabilityCut && observations' == observations + e.log
  {
    var t1, s1, o1 := ApplyMicroExpressions(ms, truth, stability, observations);
    LandmarkStageLowers(landmarks);
    var t2, o2 := ApplyLandmarks(landmarks, t1, o1);
    Compose(truth, stability, observations, MicroStage(ms), t1, s1, o1, LandmarkStage(landmarks), t2, s1, o2);
    var o3 := ApplyIndicators(indicators, o2);
    Compose(truth, stability, observations, Then(MicroStage(ms), LandmarkStage(landmarks)), t2, s1, o2,
            IndicatorStage(indicators), t2, s1, o3);
    truth', stability', observations' := ApplyBaseline(comparison, t2, s1, o3);
    Compose(truth, stability, observations, Then(Then(MicroStage(ms), LandmarkStage(landmarks)), IndicatorStage(indicators)),
            t2, s1, o3, BaselineStage(comparison), truth', stability', observations');
  }

  /**
   * The rest of analyzeEmotions once the micro-expressions are collected:
   * the indicators, the baseline comparison, the remaining stages, the clamp
   * to [0, 1] and the formatting.
   */
  method FinishAnalysis(v: Vector, question: string, answer: string, landmarks: Option<Landmarks>, clock: Clock,
                        ts: seq<Transition>, ms: seq<MicroExpression>, baseline: Option<Vector>,
                        truth: real, stability: real, observations: seq<Observation>, dominant: seq<Emotion>)
    returns (result: AnalysisResult)
    requires landmarks.Some? ==> WellFormed(landmarks.value)
    requires var e := EarlyPenalties(ts, DominantEntries(v), v);
      truth == 0.5 - e.truthCut && stability == 1.0 - e.stabilityCut && observations == e.log
    requires dominant == DominantEmotions(v)
    ensures result == Assemble(v, question, answer, landmarks, clock, ts, ms, baseline)
  {
    var indicators, comparison, t, s, o := LateScores(v, landmarks, clock, ts, ms, baseline, truth, stability, observations);
    result := Report(question, answer, Clamp01(t), Clamp01(s), o, dominant, ms, indicators, ts, comparison);
  }

  /** The indicators, the baseline comparison and the scores once every stage has run. */
  method LateScores(v: Vector, landmarks: Option<Landmarks>, clock: Clock,
                    ts: seq<Transition>, ms: seq<MicroExpression>, baseline: Option<Vector>,
                    truth: real, stability: real, observations: seq<Observation>)
    returns (indicators: seq<Indicator>, comparison: Option<Comparison>, t: real, s: real, o: seq<Observation>)
    requires landmarks.Some? ==> WellFormed(landmarks.value)
    requires var e := EarlyPenalties(ts, DominantEntries(v), v);
      truth == 0.5 - e.truthCut && stability == 1.0 - e.stabilityCut && observations == e.log
    ensures indicators == DeceptionIndicators(v, 0.0, ms, clock.indicators)
    ensures comparison == CompareWithBaseline(baseline, v)
    ensures var e := Penalties(ts, DominantEntries(v), v, ms, landmarks, indicators, comparison);
      t == 0.5 - e.truthCut && s == 1.0 - e.stabilityCut && o == e.log
  {
    indicators := GetDeceptionIndicators(v, 0.0, ms, clock.indicators);
    comparison := CompareWithBaseline(baseline, v);
    t, s, o := PenaltyScores(EarlyPenalties(ts, DominantEntries(v), v), landmarks, ms, indicators, comparison,
                             truth, stability, observations);
  }

  /** Scores opened by the stages in early, carried through the closing stages. */
  method PenaltyScores(ghost early: Effect, landmarks: Option<Landmarks>, ms: seq<MicroExpression>,
                       indicators: seq<Indicator>, comparison: Option<Comparison>,
                       truth: real, stability: real, observations: seq<Observation>)
    returns (t: real, s: real, o: seq<Observation>)
    requires landmarks.Some? ==> WellFormed(landmarks.value)
    requires truth == 0.5 - early.truthCut && stability == 1.0 - early.stabilityCut && observations == early.log
    ensures var e := Then(early, LatePenalties(ms, landmarks, indicators, comparison));
      t == 0.5 - e.truthCut && s == 1.0 - e.stabilityCut && o == e.log
  {
    t, s, o := ClosingStages(ms, landmarks, indicators, comparison, truth, stability, observations);
    Continue(early, truth, stability, observations, LatePenalties(ms, landmarks, indicators, comparison), t, s, o);
  }

  /** Stages applied from the starting scores and then further stages: their Then from the start. */
  lemma Continue(a: Effect, t1: real, s1: real, l1: seq<Observation>, b: Effect, t2: real, s2: real, l2: seq<Observation>)
    requires t1 == 0.5 - a.truthCut && s1 == 1.0 - a.stabilityCut && l1 == a.log
    requires t2 == t1 - b.truthCut && s2 == s1 - b.stabilityCut && l2 == l1 + b.log
    ensures t2 == 0.5 - Then(a, b).truthCut && s2 == 1.0 - Then(a, b).stabilityCut && l2 == Then(a, b).log
  {
  }

  /** Two stages applied one after the other are their Then. */
  lemma Compose(t0: real, s0: real, l0: seq<Observation>, a: Effect, t1: real, s1: real, l1: seq<Observation>,
                b: Effect, t2: real, s2: real, l2: seq<Observation>)
    requires t1 == t0 - a.truthCut && s1 == s0 - a.stabilityCut && l1 == l0 + a.log
    requires t2 == t1 - b.truthCut && s2 == s1 - b.stabilityCut && l2 == l1 + b.log
    ensures t2 == t0 - Then(a, b).truthCut && s2 == s0 - Then(a, b).stabilityCut && l2 == l0 + Then(a, b).log
  {
    assert l0 + a.log + b.log == l0 + (a.log + b.log);
  }

  /**
   * A session whose baseline was just set from a sample reports no change
   * when it is compared with that same sample.
   */
  method BaselineRoundTrip(s: Session, v: Vector) returns (comparison: Option<Comparison>)
    modifies s
    ensures comparison == Some(Comparison(Normalize(v), Normalize(v), []))
  {
    s.SetBaselineEmotions(v);
    comparison := CompareWithBaseline(s.baselineEmotions, Normalize(v));
    SelfComparisonEmpty(Normalize(v));
  }
}
