/**
 * analyzeEmotions (emotionAnalysis.ts) as a function of the module state:
 * the emotion history, the micro-expression history and the baseline, with
 * the three clock reads of one call made explicit.
 */
module Analysis {
  import opened Common
  import opened Emotions
  import opened Bands
  import opened Transitions
  import opened MicroExpressions
  import opened Baseline
  import opened FacialTension
  import opened Indicators
  import opened Dominant
  import opened Formatting
  import opened Stages

  /**
   * The Date.now() reads of one call: in detectEmotionChanges, before the
   * micro-expression loop, and in getDeceptionIndicators.
   */
  datatype Clock = Clock(transitions: int, micro: int, indicators: int)

  /** The three module-level variables the analysis reads and updates. */
  datatype SessionState = SessionState(tracker: TrackerState, micro: MicroState, baseline: Option<Vector>)

  datatype AnalysisResult = AnalysisResult(
    truthProbability: real,
    observations: seq<Observation>,
    emotionalStability: real,
    dominantEmotions: seq<Emotion>,
    microExpressions: seq<MicroExpression>,
    facialTension: real,
    deceptionIndicators: seq<Indicator>,
    emotionTransitions: seq<Transition>,
    baselineComparison: Option<Comparison>,
    formattedResults: FormattedResults)

  /** The result returned for a sample that fails isValidEmotions, written out as the source spells it. */
  function DefaultResult(question: string, answer: string): AnalysisResult {
    AnalysisResult(0.5, [NotYetAvailable], 1.0, [], [], 0.0, [], [], None,
      FormattedResults(question, answer,
        TruthScore(50, Unclear, 100.0),
        EmotionalState(None, [], 100.0, BaselineSummary(Missing, Missing, [])),
        DeceptionMarkers(false, [], [], [])))
  }

  /**
   * The micro-expression loop over the first n labels: every label but
   * neutral with a positive value goes through analyzeMicroExpression, and
   * the expressions it returns are collected.
   */
  function MicroRun(st: MicroState, v: Vector, now: int, n: nat): (seq<MicroExpression>, MicroState)
    requires n <= |Labels|
  {
    if n == 0 then ([], st)
    else
      var prior := MicroRun(st, v, now, n - 1);
      var e := Labels[n - 1];
      if e != Neutral && v.At(e) > 0.0 then
        var step := MicroStep(prior.1, e, v.At(e), now);
        (prior.0 + (if step.0.Some? then [step.0.value] else []), step.1)
      else prior
  }

  /** The stages before the micro-expressions are collected: transitions, dominant emotions, fear. */
  function EarlyPenalties(ts: seq<Transition>, entries: seq<Entry>, v: Vector): Effect {
    Then(Then(TransitionStage(ts), DominantStage(entries)), FearStage(v))
  }

  /** The stages after: micro-expressions, landmarks, indicators, baseline. */
  function LatePenalties(ms: seq<MicroExpression>, landmarks: Option<Landmarks>, indicators: seq<Indicator>,
                         comparison: Option<Comparison>): Effect
    requires landmarks.Some? ==> WellFormed(landmarks.value)
  {
    Then(Then(Then(MicroStage(ms), LandmarkStage(landmarks)), IndicatorStage(indicators)), BaselineStage(comparison))
  }

  /** All stages in the order the source applies them. */
  function Penalties(ts: seq<Transition>, entries: seq<Entry>, v: Vector, ms: seq<MicroExpression>,
                     landmarks: Option<Landmarks>, indicators: seq<Indicator>, comparison: Option<Comparison>): Effect
    requires landmarks.Some? ==> WellFormed(landmarks.value)
  {
    Then(EarlyPenalties(ts, entries, v), LatePenalties(ms, landmarks, indicators, comparison))
  }

  /**
   * The result for a valid, normalised sample v, given the transitions and
   * the micro-expressions the call produced and the baseline it compares
   * with: the penalties of all stages taken off 0.5 and 1, clamped to [0, 1].
   */
  function Assemble(v: Vector, question: string, answer: string, landmarks: Option<Landmarks>, clock: Clock,
                    ts: seq<Transition>, ms: seq<MicroExpression>, baseline: Option<Vector>): AnalysisResult
    requires landmarks.Some? ==> WellFormed(landmarks.value)
  {
    var indicators := DeceptionIndicators(v, 0.0, ms, clock.indicators);
    var comparison := CompareWithBaseline(baseline, v);
    var effect := Penalties(ts, DominantEntries(v), v, ms, landmarks, indicators, comparison);
    var truth := Clamp01(0.5 - effect.truthCut);
    var stability := Clamp01(1.0 - effect.stabilityCut);
    Report(question, answer, truth, stability, effect.log, DominantEmotions(v), ms, indicators, ts, comparison)
  }

  /** The result record: the scores, the trail and the findings, with their formatted summary. */
  function Report(question: string, answer: string, truth: real, stability: real, log: seq<Observation>,
                  dominant: seq<Emotion>, ms: seq<MicroExpression>, indicators: seq<Indicator>,
                  ts: seq<Transition>, comparison: Option<Comparison>): AnalysisResult
  {
    AnalysisResult(truth, log, stability, dominant, ms, 0.0, indicators, ts, comparison,
      FormatAnalysisResults(question, answer, truth, stability, dominant, indicators, ms, ts, comparison))
  }

  /** A valid sample: the emotion and micro-expression histories advance, the baseline stays. */
  function AnalyzeSample(s: SessionState, v: Vector, question: string, answer: string,
                         landmarks: Option<Landmarks>, clock: Clock): (AnalysisResult, SessionState)
    requires landmarks.Some? ==> WellFormed(landmarks.value)
  {
    var observed := Observe(s.tracker, v, clock.transitions);
    var run := MicroRun(s.micro, v, clock.micro, |Labels|);
    (Assemble(v, question, answer, landmarks, clock, observed.0, run.0, s.baseline),
     SessionState(observed.1, run.1, s.baseline))
  }

  /** analyzeEmotions: the default result for an invalid sample, with nothing changed. */
  function Analyze(s: SessionState, raw: RawSample, question: string, answer: string,
                   landmarks: Option<Landmarks>, clock: Clock): (AnalysisResult, SessionState)
    requires landmarks.Some? ==> WellFormed(landmarks.value)
  {
    if !IsValidEmotions(raw) then (DefaultResult(question, answer), s)
    else AnalyzeSample(s, Normalize(ToVector(raw)), question, answer, landmarks, clock)
  }

  // ---------------------------------------------------------------- properties

  /** The spelled-out default agrees with what the formatter makes of the neutral starting values. */
  lemma DefaultIsFormatted(question: string, answer: string)
    ensures DefaultResult(question, answer).formattedResults
      == FormatAnalysisResults(question, answer, 0.5, 1.0, [], [], [], [], None)
    ensures DefaultResult(question, answer).formattedResults.truthScore.evaluation == TruthProbabilityText(0.5)
  {
    assert Round((1.0 - 0.5) * 100.0) == 50;
  }

  /**
   * One call's micro-expressions are in label order without neutral, each
   * stamped with the same clock read, each with the label's own value of at
   * least 0.5%; the sequence counter rises by at most one per label visited.
   */
  lemma {:induction false} MicroRunShape(st: MicroState, v: Vector, now: int, n: nat)
    requires n <= |Labels|
    ensures var r := MicroRun(st, v, now, n);
      && |r.0| <= n
      && (forall i, j | 0 <= i < j < |r.0| :: IndexOf(r.0[i].emotion) < IndexOf(r.0[j].emotion))
      && (forall m | m in r.0 ::
            && m.emotion != Neutral && IndexOf(m.emotion) < n
            && m.startTime == now
            && m.intensity == v.At(m.emotion) >= UltraWeakMicro)
      && st.lastSequenceId <= r.1.lastSequenceId <= st.lastSequenceId + n
  {
    if n > 0 {
      MicroRunShape(st, v, now, n - 1);
      var prior := MicroRun(st, v, now, n - 1);
      var e := Labels[n - 1];
      IndexOfLabel(n - 1);
      if e != Neutral && v.At(e) > 0.0 {
        var step := MicroStep(prior.1, e, v.At(e), now);
        if step.0.Some? {
          var r := prior.0 + [step.0.value];
          forall i, j | 0 <= i < j < |r| ensures IndexOf(r[i].emotion) < IndexOf(r[j].emotion) {
            if j == |r| - 1 {
              assert r[i] in prior.0;
            }
          }
          assert forall m | m in r :: m in prior.0 || m == step.0.value;
        }
      }
    }
  }

  /** Every stage lowers the scores, so together they do, by at least what fear alone takes. */
  lemma PenaltiesLower(ts: seq<Transition>, entries: seq<Entry>, v: Vector, ms: seq<MicroExpression>,
                       landmarks: Option<Landmarks>, indicators: seq<Indicator>, comparison: Option<Comparison>)
    requires landmarks.Some? ==> WellFormed(landmarks.value)
    ensures var e := Penalties(ts, entries, v, ms, landmarks, indicators, comparison);
      && Lowers(e)
      && e.truthCut >= FearStage(v).truthCut
      && e.stabilityCut >= FearStage(v).stabilityCut
  {
    TransitionStageLowers(ts);
    MicroStageLowers(ms);
    LatePenaltiesLower(ms, landmarks, indicators, comparison);
    LandmarkStageLowers(landmarks);
    BaselineStageLowers(comparison);
  }

  lemma LatePenaltiesLower(ms: seq<MicroExpression>, landmarks: Option<Landmarks>, indicators: seq<Indicator>,
                           comparison: Option<Comparison>)
    requires landmarks.Some? ==> WellFormed(landmarks.value)
    ensures Lowers(LatePenalties(ms, landmarks, indicators, comparison))
  {
    MicroStageLowers(ms);
    LandmarkStageLowers(landmarks);
    BaselineStageLowers(comparison);
  }

  /**
   * The scores of a valid call: a truth probability in [0, 0.5] and a
   * stability in [0, 1], so the shown percentage lies in [50, 100] and is
   * never banded below Ebaselge; fear above 15% costs at least 7.5 points of
   * both.
   */
  lemma AssembleScores(v: Vector, question: string, answer: string, landmarks: Option<Landmarks>, clock: Clock,
                       ts: seq<Transition>, ms: seq<MicroExpression>, baseline: Option<Vector>)
    requires landmarks.Some? ==> WellFormed(landmarks.value)
    ensures var r := Assemble(v, question, answer, landmarks, clock, ts, ms, baseline);
      && 0.0 <= r.truthProbability <= 0.5
      && 0.0 <= r.emotionalStability <= 1.0
      && 50 <= r.formattedResults.truthScore.percentage <= 100
      && TruthBandRank(r.formattedResults.truthScore.evaluation) >= TruthBandRank(Unclear)
      && (v.fearful > FearThreshold ==> r.truthProbability <= 0.425 && r.emotionalStability <= 0.925)
  {
    AssembleTruth(v, question, answer, landmarks, clock, ts, ms, baseline);
    AssemblePercentage(v, question, answer, landmarks, clock, ts, ms, baseline);
  }

  /** Truth in [0, 0.5] and stability in [0, 1]; fear above 15% costs at least 7.5 points of each. */
  lemma AssembleTruth(v: Vector, question: string, answer: string, landmarks: Option<Landmarks>, clock: Clock,
                      ts: seq<Transition>, ms: seq<MicroExpression>, baseline: Option<Vector>)
    requires landmarks.Some? ==> WellFormed(landmarks.value)
    ensures var r := Assemble(v, question, answer, landmarks, clock, ts, ms, baseline);
      && 0.0 <= r.truthProbability <= 0.5
      && 0.0 <= r.emotionalStability <= 1.0
      && (v.fearful > FearThreshold ==> r.truthProbability <= 0.425 && r.emotionalStability <= 0.925)
  {
    var indicators := DeceptionIndicators(v, 0.0, ms, clock.indicators);
    var comparison := CompareWithBaseline(baseline, v);
    PenaltiesLower(ts, DominantEntries(v), v, ms, landmarks, indicators, comparison);
  }

  /** The percentage shown lies in [50, 100] and is never banded below Ebaselge. */
  lemma AssemblePercentage(v: Vector, question: string, answer: string, landmarks: Option<Landmarks>, clock: Clock,
                           ts: seq<Transition>, ms: seq<MicroExpression>, baseline: Option<Vector>)
    requires landmarks.Some? ==> WellFormed(landmarks.value)
    ensures var r := Assemble(v, question, answer, landmarks, clock, ts, ms, baseline);
      && 50 <= r.formattedResults.truthScore.percentage <= 100
      && TruthBandRank(r.formattedResults.truthScore.evaluation) >= TruthBandRank(Unclear)
  {
    var r := Assemble(v, question, answer, landmarks, clock, ts, ms, baseline);
    AssembleTruth(v, question, answer, landmarks, clock, ts, ms, baseline);
    assert r.formattedResults == FormatAnalysisResults(question, answer, r.truthProbability, r.emotionalStability,
      r.dominantEmotions, r.deceptionIndicators, r.microExpressions, r.emotionTransitions, r.baselineComparison);
    FormattedScores(question, answer, r.truthProbability, r.emotionalStability, r.dominantEmotions,
                    r.deceptionIndicators, r.microExpressions, r.emotionTransitions, r.baselineComparison);
  }

  /** A truth probability in [0, 0.5] is shown as 50 to 100 percent and never banded below Ebaselge. */
  lemma FormattedScores(question: string, answer: string, truth: real, stability: real,
                        dominant: seq<Emotion>, indicators: seq<Indicator>, ms: seq<MicroExpression>,
                        ts: seq<Transition>, comparison: Option<Comparison>)
    requires 0.0 <= truth <= 0.5
    ensures var f := FormatAnalysisResults(question, answer, truth, stability, dominant, indicators, ms, ts, comparison);
      && 50 <= f.truthScore.percentage <= 100
      && TruthBandRank(f.truthScore.evaluation) >= TruthBandRank(Unclear)
  {
    var f := FormatAnalysisResults(question, answer, truth, stability, dominant, indicators, ms, ts, comparison);
    TruthPercentageRange(truth, 0.5);
    BandsAgree(f.truthScore.percentage, 0.5, f.truthScore.percentage as real / 100.0);
  }

  /**
   * An invalid sample yields the default result and leaves the state as it
   * was; every call keeps the scores in range and leaves the baseline alone.
   */
  lemma AnalyzeBounds(s: SessionState, raw: RawSample, question: string, answer: string,
                      landmarks: Option<Landmarks>, clock: Clock)
    requires landmarks.Some? ==> WellFormed(landmarks.value)
    ensures var r := Analyze(s, raw, question, answer, landmarks, clock);
      && (!IsValidEmotions(raw) ==> r.0 == DefaultResult(question, answer) && r.1 == s)
      && 0.0 <= r.0.truthProbability <= 0.5
      && 0.0 <= r.0.emotionalStability <= 1.0
      && 50 <= r.0.formattedResults.truthScore.percentage <= 100
      && r.1.baseline == s.baseline
  {
    if IsValidEmotions(raw) {
      var v := Normalize(ToVector(raw));
      var observed := Observe(s.tracker, v, clock.transitions);
      var run := MicroRun(s.micro, v, clock.micro, |Labels|);
      AssembleScores(v, question, answer, landmarks, clock, observed.0, run.0, s.baseline);
    }
  }

  /** Fear above 15% costs at least 7.5 points of truth and of stability. */
  lemma FearLowersScores(s: SessionState, raw: RawSample, question: string, answer: string,
                         landmarks: Option<Landmarks>, clock: Clock)
    requires landmarks.Some? ==> WellFormed(landmarks.value)
    requires IsValidEmotions(raw) && Normalize(ToVector(raw)).fearful > FearThreshold
    ensures var r := Analyze(s, raw, question, answer, landmarks, clock);
      r.0.truthProbability <= 0.425 && r.0.emotionalStability <= 0.925
  {
    var v := Normalize(ToVector(raw));
    var observed := Observe(s.tracker, v, clock.transitions);
    var run := MicroRun(s.micro, v, clock.micro, |Labels|);
    AssembleScores(v, question, answer, landmarks, clock, observed.0, run.0, s.baseline);
  }

  /**
   * The indicators of a valid result: the facial tension passed on is 0 so
   * no tension indicator appears, and the markers are found exactly when
   * there is an indicator.
   */
  lemma AssembleIndicators(v: Vector, question: string, answer: string, landmarks: Option<Landmarks>, clock: Clock,
                           ts: seq<Transition>, ms: seq<MicroExpression>, baseline: Option<Vector>)
    requires landmarks.Some? ==> WellFormed(landmarks.value)
    ensures var r := Assemble(v, question, answer, landmarks, clock, ts, ms, baseline);
      && r.facialTension == 0.0
      && (forall x | x in r.deceptionIndicators :: !x.HighTension?)
      && (r.formattedResults.deceptionMarkers.found <==> r.deceptionIndicators != [])
  {
    NoTensionIndicatorAtZero(v, ms, clock.indicators);
  }

  /** The trail of a valid result opens with the transitions header and one line per transition. */
  lemma AssembleTrail(v: Vector, question: string, answer: string, landmarks: Option<Landmarks>, clock: Clock,
                      ts: seq<Transition>, ms: seq<MicroExpression>, baseline: Option<Vector>)
    requires landmarks.Some? ==> WellFormed(landmarks.value)
    ensures var r := Assemble(v, question, answer, landmarks, clock, ts, ms, baseline);
      ts != [] ==> |r.observations| > |ts| && r.observations[0] == TransitionsHeader
  {
    var indicators := DeceptionIndicators(v, 0.0, ms, clock.indicators);
    var comparison := CompareWithBaseline(baseline, v);
    TransitionStageLowers(ts);
    PenaltiesOpenWithTransitions(ts, DominantEntries(v), v, ms, landmarks, indicators, comparison);
  }

  /** A valid call reports only valid transitions, no tension indicator, and markers exactly when there are indicators. */
  lemma AnalyzeReports(s: SessionState, raw: RawSample, question: string, answer: string,
                       landmarks: Option<Landmarks>, clock: Clock)
    requires landmarks.Some? ==> WellFormed(landmarks.value)
    requires IsValidEmotions(raw)
    ensures var r := Analyze(s, raw, question, answer, landmarks, clock);
      && (forall t | t in r.0.emotionTransitions :: t.isValid)
      && (forall x | x in r.0.deceptionIndicators :: !x.HighTension?)
      && (r.0.formattedResults.deceptionMarkers.found <==> r.0.deceptionIndicators != [])
  {
    var v := Normalize(ToVector(raw));
    var observed := Observe(s.tracker, v, clock.transitions);
    var run := MicroRun(s.micro, v, clock.micro, |Labels|);
    ObservedTransitionsValid(s.tracker, v, clock.transitions);
    AssembleIndicators(v, question, answer, landmarks, clock, observed.0, run.0, s.baseline);
  }

  /** The trail starts with the transition lines. */
  lemma PenaltiesOpenWithTransitions(ts: seq<Transition>, entries: seq<Entry>, v: Vector, ms: seq<MicroExpression>,
                                     landmarks: Option<Landmarks>, indicators: seq<Indicator>, comparison: Option<Comparison>)
    requires landmarks.Some? ==> WellFormed(landmarks.value)
    ensures var e := Penalties(ts, entries, v, ms, landmarks, indicators, comparison);
      |e.log| >= |TransitionStage(ts).log| && e.log[..|TransitionStage(ts).log|] == TransitionStage(ts).log
  {
    ChainStartsWithFirst(TransitionStage(ts), DominantStage(entries), FearStage(v), LatePenalties(ms, landmarks, indicators, comparison));
  }

  lemma ChainStartsWithFirst(a: Effect, b: Effect, c: Effect, d: Effect)
    ensures var x := Then(Then(Then(a, b), c), d).log;
      |x| >= |a.log| && x[..|a.log|] == a.log
  {
    var x := Then(Then(Then(a, b), c), d).log;
    assert x == a.log + (b.log + c.log + d.log);
  }

  /** The primary emotion shown is the strongest label, and it is at least 5%; it is absent exactly when no label reaches 5%. */
  lemma AssemblePrimary(v: Vector, question: string, answer: string, landmarks: Option<Landmarks>, clock: Clock,
                        ts: seq<Transition>, ms: seq<MicroExpression>, baseline: Option<Vector>, e': Emotion)
    requires landmarks.Some? ==> WellFormed(landmarks.value)
    ensures var r := Assemble(v, question, answer, landmarks, clock, ts, ms, baseline);
      && (r.formattedResults.emotionalState.primary.None? <==> forall e | e in Labels :: v.At(e) < DominantThreshold)
      && (r.formattedResults.emotionalState.primary.Some? ==>
            var e := r.formattedResults.emotionalState.primary.value;
            v.At(e) >= DominantThreshold && v.At(e) >= v.At(e'))
  {
    var r := Assemble(v, question, answer, landmarks, clock, ts, ms, baseline);
    assert r.formattedResults.emotionalState.primary == PrimaryEmotion(DominantEmotions(v));
    StrongestFirst(v, e');
    NoneDominant(v);
  }

  /** No dominant emotion exactly when no label reaches 5%. */
  lemma NoneDominant(v: Vector)
    ensures DominantEmotions(v) == [] <==> forall e | e in Labels :: v.At(e) < DominantThreshold
  {
    var dominant := DominantEmotions(v);
    if dominant != [] {
      var e := dominant[0];
      assert Labels[IndexOf(e)] == e;
      DominantMembers(v, e, 0.0);
    } else if !forall e | e in Labels :: v.At(e) < DominantThreshold {
      var e :| e in Labels && v.At(e) >= DominantThreshold;
      DominantMembers(v, e, 0.0);
    }
  }

  /** The first dominant emotion is at least 5% and no label is stronger. */
  lemma StrongestFirst(v: Vector, e': Emotion)
    ensures DominantEmotions(v) != [] ==>
      v.At(DominantEmotions(v)[0]) >= DominantThreshold && v.At(DominantEmotions(v)[0]) >= v.At(e')
  {
    var es := DominantEntries(v);
    if es != [] {
      var e := es[0].emotion;
      DominantRanked(v);
      DominantMembers(v, e, es[0].value);
      assert es[0] in es;
      if v.At(e') >= DominantThreshold {
        DominantMembers(v, e', v.At(e'));
        var k :| 0 <= k < |es| && es[k] == Entry(e', v.At(e'));
        if k > 0 {
          assert es[0].value >= es[k].value;
        }
      }
    }
  }

  /**
   * A sample of neutral 0.2, happy 0.6 and fearful 0.2, with no landmarks
   * and no baseline: the stable sort keeps the tied neutral before fearful,
   * the fear penalty brings the truth probability to at most 0.425, and the
   * markers are found.
   */
  lemma HappyFearfulSample(question: string, answer: string, clock: Clock, ts: seq<Transition>, ms: seq<MicroExpression>)
    ensures var r := Assemble(Vector(0.2, 0.6, 0.0, 0.0, 0.2, 0.0, 0.0), question, answer, None, clock, ts, ms, None);
      && r.dominantEmotions == [Happy, Neutral, Fearful]
      && r.truthProbability <= 0.425
      && r.formattedResults.deceptionMarkers.found
  {
    var v := Vector(0.2, 0.6, 0.0, 0.0, 0.2, 0.0, 0.0);
    TiedLabelsKeepOrder();
    AssembleTruth(v, question, answer, None, clock, ts, ms, None);
    AssembleIndicators(v, question, answer, None, clock, ts, ms, None);
    FearReported(v, 0.0, ms, clock.indicators, v.fearful);
  }
}
