/**
 * The result formatter (emotionAnalysis.ts, formatAnalysisResults): the
 * truth score, the emotional state and the deception markers shown to the
 * user. Texts are kept as tags; the digits of formatted numbers are not modelled.
 */
module Formatting {
  import opened Common
  import opened Emotions
  import opened Bands
  import opened Transitions
  import opened MicroExpressions
  import opened Baseline
  import opened Indicators

  /** Math.round: halves round up. */
  function Round(x: real): (r: int)
    ensures r as real <= x + 0.5 < r as real + 1.0
  {
    (x + 0.5).Floor
  }

  /** `x || 0.5` on a number: 0 counts as absent. */
  function OrHalf(x: real): (r: real)
    ensures x != 0.0 ==> r == x
    ensures x == 0.0 ==> r == 0.5
  {
    if x == 0.0 then 0.5 else x
  }

  /** truthScore.percentage: the rounded complement of the probability, in percent. */
  function TruthPercentage(p: real): int {
    Round((1.0 - OrHalf(p)) * 100.0)
  }

  datatype TruthScore = TruthScore(percentage: int, evaluation: TruthBand, confidence: real)

  /** Salvestatud, Analüüsitud, Puudub. */
  datatype BaselineMark = Recorded | Analyzed | Missing

  /** One line of significantChanges: the significance and the difference it is printed with. */
  datatype ShiftLine = ShiftLine(significance: ChangeSignificance, difference: real)

  datatype BaselineSummary = BaselineSummary(before: BaselineMark, after: BaselineMark, significantChanges: seq<ShiftLine>)

  /** primary is None where the source shows Neutraalne. */
  datatype EmotionalState = EmotionalState(primary: Option<Emotion>, secondary: seq<Emotion>, stability: real, baseline: BaselineSummary)

  datatype MicroLine = MicroLine(emotion: Emotion, intensity: real, significance: MicroSignificance)

  /** from.emotion → to.emotion of a transition. */
  datatype ConflictLine = ConflictLine(from: Emotion, to: Emotion)

  datatype DeceptionMarkers = DeceptionMarkers(found: bool, indicators: seq<Indicator>, microExpressions: seq<MicroLine>, emotionalConflicts: seq<ConflictLine>)

  datatype FormattedResults = FormattedResults(
    question: string,
    answer: string,
    truthScore: TruthScore,
    emotionalState: EmotionalState,
    deceptionMarkers: DeceptionMarkers)

  /** getPrimaryEmotion */
  function PrimaryEmotion(dominant: seq<Emotion>): Option<Emotion> {
    if |dominant| == 0 then None else Some(dominant[0])
  }

  /** formatBaselineChanges: the changes of at least 5%, nothing without a comparison. */
  function ShiftLines(cs: seq<Change>): (r: seq<ShiftLine>)
    ensures |r| <= |cs|
  {
    if cs == [] then []
    else
      var c := cs[|cs| - 1];
      ShiftLines(cs[..|cs| - 1]) + (if Abs(c.difference) >= BaselineNotable then [ShiftLine(c.significance, c.difference)] else [])
  }

  function FormatBaselineChanges(comparison: Option<Comparison>): seq<ShiftLine> {
    if comparison.None? || |comparison.value.changes| == 0 then [] else ShiftLines(comparison.value.changes)
  }

  function MicroLines(ms: seq<MicroExpression>): (r: seq<MicroLine>)
    ensures |r| == |ms|
    ensures forall i | 0 <= i < |ms| :: r[i] == MicroLine(ms[i].emotion, ms[i].intensity, ms[i].significance)
  {
    if ms == [] then [] else MicroLines(ms[..|ms| - 1]) + [var m := ms[|ms| - 1]; MicroLine(m.emotion, m.intensity, m.significance)]
  }

  function ConflictLines(ts: seq<Transition>): (r: seq<ConflictLine>)
    ensures |r| == |ts|
    ensures forall i | 0 <= i < |ts| :: r[i] == ConflictLine(ts[i].emotion, ts[i].emotion)
  {
    if ts == [] then [] else ConflictLines(ts[..|ts| - 1]) + [ConflictLine(ts[|ts| - 1].emotion, ts[|ts| - 1].emotion)]
  }

  /** formatAnalysisResults over the fields analyzeEmotions hands it. */
  function FormatAnalysisResults(
    question: string, answer: string,
    truthProbability: real, emotionalStability: real,
    dominant: seq<Emotion>, indicators: seq<Indicator>,
    ms: seq<MicroExpression>, transitions: seq<Transition>,
    comparison: Option<Comparison>): FormattedResults
  {
    var percentage := TruthPercentage(truthProbability);
    FormattedResults(
      question, answer,
      TruthScore(percentage, PercentageEvaluation(percentage), OrHalf(emotionalStability) * 100.0),
      EmotionalState(
        PrimaryEmotion(dominant),
        if |dominant| == 0 then [] else dominant[1..],
        OrHalf(emotionalStability) * 100.0,
        BaselineSummary(
          if comparison.Some? then Recorded else Missing,
          if comparison.Some? then Analyzed else Missing,
          FormatBaselineChanges(comparison))),
      DeceptionMarkers(|indicators| > 0, indicators, MicroLines(ms), ConflictLines(transitions)))
  }

  // ---------------------------------------------------------------- properties

  /**
   * The percentage is inverted: for a probability in [0, 0.5] it lies in
   * [50, 100], a lower probability never gives a lower percentage, and a
   * probability of exactly 0 shows as 50.
   */
  lemma TruthPercentageRange(p: real, q: real)
    requires 0.0 <= p <= 0.5
    ensures 50 <= TruthPercentage(p) <= 100
    ensures TruthPercentage(0.0) == 50
    ensures 0.0 < p <= q ==> TruthPercentage(p) >= TruthPercentage(q)
  {
    assert Round(50.0) == 50;
  }

  /** Every formatted baseline line is a change of at least 5%, and every such change is listed. */
  lemma {:induction false} ShiftLinesExact(cs: seq<Change>)
    ensures forall l | l in ShiftLines(cs) :: Abs(l.difference) >= BaselineNotable
    ensures forall c | c in cs && Abs(c.difference) >= BaselineNotable :: ShiftLine(c.significance, c.difference) in ShiftLines(cs)
  {
    if cs != [] {
      ShiftLinesExact(cs[..|cs| - 1]);
      assert forall c | c in cs :: c in cs[..|cs| - 1] || c == cs[|cs| - 1];
    }
  }

  /**
   * What the formatter shows: markers found exactly when there is an
   * indicator; the primary emotion is the first dominant one, and absent
   * (Neutraalne) exactly when there is none; the rest are secondary; the
   * evaluation bands the percentage; each conflict line names the same label
   * twice; the baseline marks are set exactly when there is a comparison.
   */
  lemma FormatExact(
    question: string, answer: string, p: real, s: real,
    dominant: seq<Emotion>, indicators: seq<Indicator>,
    ms: seq<MicroExpression>, ts: seq<Transition>, comparison: Option<Comparison>)
    ensures var f := FormatAnalysisResults(question, answer, p, s, dominant, indicators, ms, ts, comparison);
      && (f.deceptionMarkers.found <==> indicators != [])
      && (f.emotionalState.primary.None? <==> dominant == [])
      && (dominant != [] ==> f.emotionalState.primary == Some(dominant[0]) && f.emotionalState.secondary == dominant[1..])
      && f.truthScore.evaluation == TruthProbabilityText(f.truthScore.percentage as real / 100.0)
      && (forall c | c in f.deceptionMarkers.emotionalConflicts :: c.from == c.to)
      && (f.emotionalState.baseline.before == Recorded <==> comparison.Some?)
      && (f.emotionalState.baseline.after == Analyzed <==> comparison.Some?)
      && (comparison.None? ==> f.emotionalState.baseline.significantChanges == [])
      && (s > 0.0 ==> f.emotionalState.stability == s * 100.0 && f.truthScore.confidence == s * 100.0)
  {
    var f := FormatAnalysisResults(question, answer, p, s, dominant, indicators, ms, ts, comparison);
    BandsAgree(f.truthScore.percentage, 0.0, 0.0);
    forall c | c in f.deceptionMarkers.emotionalConflicts ensures c.from == c.to {
      var i :| 0 <= i < |ts| && f.deceptionMarkers.emotionalConflicts[i] == c;
    }
  }
}
