/**
 * The deception-indicator builder (emotionAnalysis.ts, getDeceptionIndicators):
 * fear, conflicting emotions, micro-expression insights and facial tension,
 * collected in that order.
 */
module Indicators {
  import opened Common
  import opened Emotions
  import opened Bands
  import opened MicroExpressions

  /** DECEPTION_INDICATORS */
  const FearThreshold: real := 0.15
  const TensionIndicatorThreshold: real := 0.3
  const MicroThreshold: real := 0.02
  /** EMOTION_THRESHOLDS.WEAK: both sides of a conflict must exceed it. */
  const ConflictThreshold: real := 0.05
  /** A micro-expression is fresh for the first second after it started. */
  const FreshWindowMs: int := 1000

  datatype Indicator =
    | FearDetected(level: real)                                           // Tuvastatud hirm
    | FearExceedsNeutral                                                  // Hirm ületab neutraalsust
    | Conflict(first: Emotion, firstValue: real, second: Emotion, secondValue: real)  // Vastuolulised emotsioonid
    | SequenceNote(insight: SequenceInsight)                              // from the sequence analysis
    | FreshMicro(emotion: Emotion, intensity: real, significance: MicroSignificance)  // Värske mikroilme
    | HighTension(level: real)                                            // kõrgenenud näolihaste pinge

  /** The fear block. */
  function FearIndicators(v: Vector): seq<Indicator> {
    if v.fearful > FearThreshold then
      [FearDetected(v.fearful)] + (if v.fearful > v.neutral then [FearExceedsNeutral] else [])
    else []
  }

  /** Happy against fear or anger, in either order. */
  predicate ConflictingPair(a: Emotion, b: Emotion) {
    (a == Happy && (b == Fearful || b == Angry)) || (b == Happy && (a == Fearful || a == Angry))
  }

  function ConflictAt(v: Vector, a: Emotion, b: Emotion): seq<Indicator> {
    if a != b && v.At(a) > ConflictThreshold && v.At(b) > ConflictThreshold && ConflictingPair(a, b)
    then [Conflict(a, v.At(a), b, v.At(b))]
    else []
  }

  /** The inner loop: label a against the first m labels. */
  function ConflictRow(v: Vector, a: Emotion, m: nat): seq<Indicator>
    requires m <= |Labels|
  {
    if m == 0 then [] else ConflictRow(v, a, m - 1) + ConflictAt(v, a, Labels[m - 1])
  }

  /** The outer loop over the first n labels. */
  function ConflictRows(v: Vector, n: nat): seq<Indicator>
    requires n <= |Labels|
  {
    if n == 0 then [] else ConflictRows(v, n - 1) + ConflictRow(v, Labels[n - 1], |Labels|)
  }

  /** One micro-expression's fresh-indicator, if any. */
  function FreshAt(m: MicroExpression, now: int): seq<Indicator> {
    if m.intensity >= MicroThreshold && now - m.startTime < FreshWindowMs
    then [FreshMicro(m.emotion, m.intensity, m.significance)]
    else []
  }

  /** The forEach over the micro-expressions, for the first k of them. */
  function FreshIndicators(ms: seq<MicroExpression>, now: int, k: nat): seq<Indicator>
    requires k <= |ms|
  {
    if k == 0 then [] else FreshIndicators(ms, now, k - 1) + FreshAt(ms[k - 1], now)
  }

  /** The sequence insights, each as an indicator. */
  function SequenceNotes(insights: seq<SequenceInsight>): (r: seq<Indicator>)
    ensures |r| == |insights|
    ensures forall i | 0 <= i < |r| :: r[i] == SequenceNote(insights[i])
  {
    if insights == [] then [] else SequenceNotes(insights[..|insights| - 1]) + [SequenceNote(insights[|insights| - 1])]
  }

  function MicroIndicators(ms: seq<MicroExpression>, now: int): seq<Indicator> {
    if |ms| > 0 then SequenceNotes(SequenceInsights(ms, now)) + FreshIndicators(ms, now, |ms|) else []
  }

  function TensionIndicators(facialTension: real): seq<Indicator> {
    if facialTension > TensionIndicatorThreshold then [HighTension(facialTension)] else []
  }

  /** getDeceptionIndicators, with the clock read passed in as `now`. */
  function DeceptionIndicators(v: Vector, facialTension: real, ms: seq<MicroExpression>, now: int): seq<Indicator> {
    FearIndicators(v) + ConflictRows(v, |Labels|) + MicroIndicators(ms, now) + TensionIndicators(facialTension)
  }

  /** The loops as the source runs them; they compute exactly DeceptionIndicators. */
  method GetDeceptionIndicators(v: Vector, facialTension: real, ms: seq<MicroExpression>, now: int)
    returns (indicators: seq<Indicator>)
    ensures indicators == DeceptionIndicators(v, facialTension, ms, now)
  {
    indicators := [];
    if v.fearful > FearThreshold {
      indicators := indicators + [FearDetected(v.fearful)];
      if v.fearful > v.neutral {
        indicators := indicators + [FearExceedsNeutral];
      }
    }
    assert indicators == FearIndicators(v);
    var conflicts := Conflicts(v);
    indicators := indicators + conflicts;
    var fromMicro := MicroNotes(ms, now);
    indicators := indicators + fromMicro;
    if facialTension > TensionIndicatorThreshold {
      indicators := indicators + [HighTension(facialTension)];
    }
  }

  /** The micro-expression block: the sequence insights, then the fresh expressions. */
  method MicroNotes(ms: seq<MicroExpression>, now: int) returns (fromMicro: seq<Indicator>)
    ensures fromMicro == MicroIndicators(ms, now)
  {
    fromMicro := [];
    if |ms| > 0 {
      var insights := AnalyzeMicroExpressionSequence(ms, now);
      fromMicro := SequenceNotes(insights);
      ghost var notes := fromMicro;
      for k := 0 to |ms|
        invariant fromMicro == notes + FreshIndicators(ms, now, k)
      {
        var m := ms[k];
        if m.intensity >= MicroThreshold {
          if now - m.startTime < FreshWindowMs {
            fromMicro := fromMicro + [FreshMicro(m.emotion, m.intensity, m.significance)];
          }
        }
      }
    }
  }

  /** The two nested forEach loops over the labels. */
  method Conflicts(v: Vector) returns (conflicts: seq<Indicator>)
    ensures conflicts == ConflictRows(v, |Labels|)
  {
    conflicts := [];
    for i := 0 to |Labels|
      invariant conflicts == ConflictRows(v, i)
    {
      var row := ConflictsOf(v, Labels[i]);
      conflicts := conflicts + row;
    }
  }

  /** The inner forEach: label a against every label. */
  method ConflictsOf(v: Vector, a: Emotion) returns (row: seq<Indicator>)
    ensures row == ConflictRow(v, a, |Labels|)
  {
    row := [];
    for j := 0 to |Labels|
      invariant row == ConflictRow(v, a, j)
    {
      var b := Labels[j];
      if a != b && v.At(a) > ConflictThreshold && v.At(b) > ConflictThreshold {
        if ConflictingPair(a, b) {
          row := row + [Conflict(a, v.At(a), b, v.At(b))];
        }
      }
    }
  }

  // ---------------------------------------------------------------- properties

  /** The conflicts of one label against all seven, in closed form. */
  lemma ConflictRowClosed(v: Vector, a: Emotion)
    ensures ConflictRow(v, a, |Labels|) ==
      if a == Happy then ConflictAt(v, Happy, Angry) + ConflictAt(v, Happy, Fearful)
      else if a == Angry || a == Fearful then ConflictAt(v, a, Happy)
      else []
  {
    assert ConflictAt(v, a, Neutral) == [] && ConflictAt(v, a, Sad) == [];
    assert ConflictAt(v, a, Disgusted) == [] && ConflictAt(v, a, Surprised) == [];
    assert a != Happy ==> ConflictAt(v, a, Angry) == [] && ConflictAt(v, a, Fearful) == [];
    assert a != Angry && a != Fearful ==> ConflictAt(v, a, Happy) == [];
    assert ConflictRow(v, a, 1) == ConflictAt(v, a, Neutral);
    assert ConflictRow(v, a, 2) == ConflictRow(v, a, 1) + ConflictAt(v, a, Happy);
    assert ConflictRow(v, a, 3) == ConflictRow(v, a, 2) + ConflictAt(v, a, Sad);
    assert ConflictRow(v, a, 4) == ConflictRow(v, a, 3) + ConflictAt(v, a, Angry);
    assert ConflictRow(v, a, 5) == ConflictRow(v, a, 4) + ConflictAt(v, a, Fearful);
    assert ConflictRow(v, a, 6) == ConflictRow(v, a, 5) + ConflictAt(v, a, Disgusted);
    assert ConflictRow(v, a, 7) == ConflictRow(v, a, 6) + ConflictAt(v, a, Surprised);
  }

  /**
   * All conflicts in closed form: happy-with-anger and happy-with-fear, each
   * reported twice, once from each side.
   */
  lemma ConflictsClosed(v: Vector)
    ensures ConflictRows(v, |Labels|) ==
      ConflictAt(v, Happy, Angry) + ConflictAt(v, Happy, Fearful)
      + ConflictAt(v, Angry, Happy) + ConflictAt(v, Fearful, Happy)
  {
    assert ConflictRows(v, 1) == [] by { ConflictRowClosed(v, Neutral); }
    assert ConflictRows(v, 2) == ConflictAt(v, Happy, Angry) + ConflictAt(v, Happy, Fearful) by {
      ConflictRowClosed(v, Happy);
    }
    assert ConflictRows(v, 3) == ConflictRows(v, 2) by { ConflictRowClosed(v, Sad); }
    assert ConflictRows(v, 4) == ConflictRows(v, 3) + ConflictAt(v, Angry, Happy) by { ConflictRowClosed(v, Angry); }
    assert ConflictRows(v, 5) == ConflictRows(v, 4) + ConflictAt(v, Fearful, Happy) by { ConflictRowClosed(v, Fearful); }
    assert ConflictRows(v, 6) == ConflictRows(v, 5) by { ConflictRowClosed(v, Disgusted); }
    assert ConflictRows(v, 7) == ConflictRows(v, 6) by { ConflictRowClosed(v, Surprised); }
  }

  /**
   * A conflict is reported exactly for happiness above 5% together with
   * anger or fear above 5%, and then from both sides; so there are 0, 2 or 4.
   */
  lemma ConflictsReportedTwice(v: Vector)
    ensures var cs := ConflictRows(v, |Labels|);
      var h, a, f := v.happy > ConflictThreshold, v.angry > ConflictThreshold, v.fearful > ConflictThreshold;
      && |cs| == (if h && a then 2 else 0) + (if h && f then 2 else 0)
      && (Conflict(Happy, v.happy, Angry, v.angry) in cs <==> h && a)
      && (Conflict(Angry, v.angry, Happy, v.happy) in cs <==> h && a)
      && (Conflict(Happy, v.happy, Fearful, v.fearful) in cs <==> h && f)
      && (Conflict(Fearful, v.fearful, Happy, v.happy) in cs <==> h && f)
      && forall c | c in cs :: c.Conflict? && ConflictingPair(c.first, c.second)
  {
    ConflictsClosed(v);
  }

  /** Fresh indicators: exactly the expressions of at least 2% that started under a second ago. */
  lemma {:induction false} FreshIndicatorsExact(ms: seq<MicroExpression>, now: int, k: nat)
    requires k <= |ms|
    ensures forall x | x in FreshIndicators(ms, now, k) :: x.FreshMicro?
    ensures forall i | 0 <= i < k && ms[i].intensity >= MicroThreshold && now - ms[i].startTime < FreshWindowMs ::
      FreshMicro(ms[i].emotion, ms[i].intensity, ms[i].significance) in FreshIndicators(ms, now, k)
    ensures forall x | x in FreshIndicators(ms, now, k) :: exists i | 0 <= i < k ::
      && x == FreshMicro(ms[i].emotion, ms[i].intensity, ms[i].significance)
      && ms[i].intensity >= MicroThreshold && now - ms[i].startTime < FreshWindowMs
  {
    if k > 0 {
      FreshIndicatorsExact(ms, now, k - 1);
      var r := FreshIndicators(ms, now, k);
      assert r == FreshIndicators(ms, now, k - 1) + FreshAt(ms[k - 1], now);
    }
  }

  /** The micro-expression block holds only sequence notes and fresh-expression lines. */
  lemma MicroIndicatorsKinds(ms: seq<MicroExpression>, now: int)
    ensures forall y | y in MicroIndicators(ms, now) :: y.SequenceNote? || y.FreshMicro?
    ensures ms == [] ==> MicroIndicators(ms, now) == []
  {
    if |ms| > 0 {
      FreshIndicatorsExact(ms, now, |ms|);
    }
  }

  /** The conflict block holds only conflicts. */
  lemma ConflictsOnly(v: Vector)
    ensures forall y | y in ConflictRows(v, |Labels|) :: y.Conflict?
  {
    ConflictsClosed(v);
  }

  /** An indicator is in the list exactly when it is in one of its four blocks. */
  lemma InBlocks(v: Vector, t: real, ms: seq<MicroExpression>, now: int, y: Indicator)
    ensures y in DeceptionIndicators(v, t, ms, now) <==>
      y in FearIndicators(v) || y in ConflictRows(v, |Labels|) || y in MicroIndicators(ms, now) || y in TensionIndicators(t)
  {
  }

  /**
   * The fear block is reported exactly when fear is above 15%, its second
   * line exactly when fear also exceeds neutral.
   */
  lemma FearReported(v: Vector, t: real, ms: seq<MicroExpression>, now: int, x: real)
    ensures FearDetected(x) in DeceptionIndicators(v, t, ms, now) <==> x == v.fearful && v.fearful > FearThreshold
    ensures FearExceedsNeutral in DeceptionIndicators(v, t, ms, now) <==> v.fearful > FearThreshold && v.fearful > v.neutral
  {
    ConflictsOnly(v);
    MicroIndicatorsKinds(ms, now);
    InBlocks(v, t, ms, now, FearDetected(x));
    InBlocks(v, t, ms, now, FearExceedsNeutral);
  }

  /** A tension line is reported exactly for a facial tension above 0.3. */
  lemma TensionReported(v: Vector, t: real, ms: seq<MicroExpression>, now: int, x: real)
    ensures HighTension(x) in DeceptionIndicators(v, t, ms, now) <==> x == t && t > TensionIndicatorThreshold
  {
    ConflictsOnly(v);
    MicroIndicatorsKinds(ms, now);
    InBlocks(v, t, ms, now, HighTension(x));
  }

  /** Without micro-expressions there is neither a sequence note nor a fresh-expression line. */
  lemma NoMicroNotesWithoutMicro(v: Vector, t: real, now: int)
    ensures forall y | y in DeceptionIndicators(v, t, [], now) :: !y.SequenceNote? && !y.FreshMicro?
  {
    ConflictsOnly(v);
    forall y | y in DeceptionIndicators(v, t, [], now) ensures !y.SequenceNote? && !y.FreshMicro? {
      InBlocks(v, t, [], now, y);
    }
  }

  /** With a facial tension of 0, as the orchestrator passes it, no tension indicator can appear. */
  lemma NoTensionIndicatorAtZero(v: Vector, ms: seq<MicroExpression>, now: int)
    ensures forall y | y in DeceptionIndicators(v, 0.0, ms, now) :: !y.HighTension?
  {
    ConflictsOnly(v);
    MicroIndicatorsKinds(ms, now);
    forall y | y in DeceptionIndicators(v, 0.0, ms, now) ensures !y.HighTension? {
      InBlocks(v, 0.0, ms, now, y);
    }
  }
}
