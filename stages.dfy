/**
 * The penalty stages of analyzeEmotions (emotionAnalysis.ts), in the order
 * the source applies them. Each stage is specified by an Effect: how much it
 * takes off the truth probability and off the stability, and which lines it
 * appends to the observations. The loop blocks beside the specifications
 * accumulate into the running values as the source does and are proved to
 * apply exactly that Effect.
 */
module Stages {
  import opened Common
  import opened Emotions
  import opened Bands
  import opened Transitions
  import opened MicroExpressions
  import opened Baseline
  import opened FacialTension
  import opened Indicators
  import opened Dominant
  import opened Formatting

  /** The explanation trail, one tagged entry per line the source pushes. */
  datatype Observation =
    | NotYetAvailable                                   // Emotsioonide analüüs pole veel saadaval.
    | TransitionsHeader                                 // Emotsioonide muutused:
    | TransitionLine(description: Description)
    | DominantLine(emotion: Emotion, value: real)
    | MicroHeader                                       // Tuvastatud mikro ilmed:
    | SequenceHeader(size: nat)                         // Järjestikused mikro ilmed (n tk):
    | GroupedMicro(line: MicroLine)
    | SingleMicro(line: MicroLine)
    | AsymmetryLine(level: real)
    | TensionLine(level: real)
    | MovementLine(level: real)
    | UnnaturalLine(level: real)
    | IndicatorsHeader                                  // Tuvastatud valetamise indikaatorid:
    | IndicatorLine(indicator: Indicator)
    | BaselineHeader                                    // Võrdlus baasemotsioonidega:
    | BaselineLine(significance: ChangeSignificance, difference: real)

  datatype Effect = Effect(truthCut: real, stabilityCut: real, log: seq<Observation>)

  const NoEffect: Effect := Effect(0.0, 0.0, [])

  function LogOnly(log: seq<Observation>): Effect {
    Effect(0.0, 0.0, log)
  }

  /** One stage after the other. */
  function Then(a: Effect, b: Effect): Effect {
    Effect(a.truthCut + b.truthCut, a.stabilityCut + b.stabilityCut, a.log + b.log)
  }

  /** A stage only ever lowers the two scores. */
  predicate Lowers(e: Effect) {
    e.truthCut >= 0.0 && e.stabilityCut >= 0.0
  }

  // ---------------------------------------------------------------- transitions

  /** EMOTION_CHANGE_THRESHOLDS.SIGNIFICANT */
  const SignificantTransition: real := 0.1

  function TransitionEffect(t: Transition): Effect {
    var hit := t.changeIntensity >= SignificantTransition;
    Effect(if hit then t.changeIntensity * 0.3 else 0.0,
           if hit then t.changeIntensity * 0.4 else 0.0,
           [TransitionLine(TransitionDescription(t))])
  }

  function TransitionEffects(ts: seq<Transition>, n: nat): Effect
    requires n <= |ts|
  {
    if n == 0 then NoEffect else Then(TransitionEffects(ts, n - 1), TransitionEffect(ts[n - 1]))
  }

  /** A header and one description per transition; a significant change costs 0.3 and 0.4 of its size. */
  function TransitionStage(ts: seq<Transition>): Effect {
    if |ts| > 0 then Then(LogOnly([TransitionsHeader]), TransitionEffects(ts, |ts|)) else NoEffect
  }

  /**
   * The transition penalties are never negative, stability always loses
   * four thirds of what truth loses, and the trail gets one line per
   * transition after its header.
   */
  lemma {:induction false} TransitionEffectsShape(ts: seq<Transition>, n: nat)
    requires n <= |ts|
    ensures Lowers(TransitionEffects(ts, n))
    ensures TransitionEffects(ts, n).stabilityCut * 3.0 == TransitionEffects(ts, n).truthCut * 4.0
    ensures |TransitionEffects(ts, n).log| == n
    ensures forall i | 0 <= i < n :: TransitionEffects(ts, n).log[i] == TransitionLine(TransitionDescription(ts[i]))
  {
    if n > 0 {
      TransitionEffectsShape(ts, n - 1);
    }
  }

  /** The transition stage lowers both scores and costs stability four thirds of what it costs truth. */
  lemma TransitionStageLowers(ts: seq<Transition>)
    ensures Lowers(TransitionStage(ts))
    ensures TransitionStage(ts).stabilityCut * 3.0 == TransitionStage(ts).truthCut * 4.0
    ensures |TransitionStage(ts).log| == if ts == [] then 0 else |ts| + 1
  {
    TransitionEffectsShape(ts, |ts|);
  }

  method ApplyTransitions(ts: seq<Transition>, truth: real, stability: real, log: seq<Observation>)
    returns (truth': real, stability': real, log': seq<Observation>)
    ensures truth' == truth - TransitionStage(ts).truthCut
    ensures stability' == stability - TransitionStage(ts).stabilityCut
    ensures log' == log + TransitionStage(ts).log
  {
    truth', stability', log' := truth, stability, log;
    if |ts| > 0 {
      log' := log' + [TransitionsHeader];
      for i := 0 to |ts|
        invariant truth' == truth - TransitionEffects(ts, i).truthCut
        invariant stability' == stability - TransitionEffects(ts, i).stabilityCut
        invariant log' == log + [TransitionsHeader] + TransitionEffects(ts, i).log
      {
        var t := ts[i];
        log' := log' + [TransitionLine(TransitionDescription(t))];
        if t.changeIntensity >= SignificantTransition {
          truth' := truth' - t.changeIntensity * 0.3;
          stability' := stability' - t.changeIntensity * 0.4;
        }
      }
    }
  }

  // ---------------------------------------------------------------- dominant emotions and fear

  function DominantLines(es: seq<Entry>): (r: seq<Observation>)
    ensures |r| == |es|
    ensures forall i | 0 <= i < |es| :: r[i] == DominantLine(es[i].emotion, es[i].value)
  {
    if es == [] then [] else DominantLines(es[..|es| - 1]) + [DominantLine(es[|es| - 1].emotion, es[|es| - 1].value)]
  }

  /** One line per dominant emotion; no penalty. */
  function DominantStage(es: seq<Entry>): Effect {
    LogOnly(DominantLines(es))
  }

  /** The forEach over the ranked entries: each label to dominantEmotions, each line to the trail. */
  method ApplyDominant(entries: seq<Entry>, log: seq<Observation>) returns (dominant: seq<Emotion>, log': seq<Observation>)
    ensures dominant == EmotionsOfEntries(entries)
    ensures log' == log + DominantStage(entries).log
  {
    dominant, log' := [], log;
    for i := 0 to |entries|
      invariant dominant == EmotionsOfEntries(entries[..i])
      invariant log' == log + DominantLines(entries[..i])
    {
      assert entries[..i + 1][..i] == entries[..i];
      dominant := dominant + [entries[i].emotion];
      log' := log' + [DominantLine(entries[i].emotion, entries[i].value)];
    }
    assert entries[..|entries|] == entries;
  }

  /** fearImpact: half the fear, off both scores, when fear exceeds 15%. */
  function FearStage(v: Vector): (e: Effect)
    ensures v.fearful > FearThreshold ==> e.truthCut == e.stabilityCut == v.fearful * 0.5 > 0.075
    ensures v.fearful <= FearThreshold ==> e == NoEffect
  {
    if v.fearful > FearThreshold then Effect(v.fearful * 0.5, v.fearful * 0.5, []) else NoEffect
  }

  // ---------------------------------------------------------------- micro-expressions

  /** MICRO_EXPRESSION_THRESHOLDS.WEAK: a lone micro-expression at least this strong costs a little. */
  const LoneMicroThreshold: real := 0.03

  function Line(m: MicroExpression): MicroLine {
    MicroLine(m.emotion, m.intensity, m.significance)
  }

  function GroupedLines(g: seq<MicroExpression>): (r: seq<Observation>)
    ensures |r| == |g|
  {
    if g == [] then [] else GroupedLines(g[..|g| - 1]) + [GroupedMicro(Line(g[|g| - 1]))]
  }

  /**
   * A sequence of several costs 0.05 and 0.1 per member; a lone expression
   * of at least 3% costs 0.03 and 0.05. A group is never empty.
   */
  function GroupEffect(g: seq<MicroExpression>): Effect {
    if |g| > 1 then Effect(0.05 * |g| as real, 0.1 * |g| as real, [SequenceHeader(|g|)] + GroupedLines(g))
    else if |g| == 1 then
      var hit := g[0].intensity >= LoneMicroThreshold;
      Effect(if hit then 0.03 else 0.0, if hit then 0.05 else 0.0, [SingleMicro(Line(g[0]))])
    else NoEffect
  }

  /** The grouping reduce: expressions by sequence id, each group in push order. */
  function GroupMap(ms: seq<MicroExpression>): map<int, seq<MicroExpression>> {
    if ms == [] then map[]
    else
      var g := GroupMap(ms[..|ms| - 1]);
      var m := ms[|ms| - 1];
      if m.sequence in g then g[m.sequence := g[m.sequence] + [m]] else g[m.sequence := [m]]
  }

  /** k added to an ascending list of distinct keys. */
  function InsertKey(ks: seq<int>, k: int): seq<int> {
    if ks == [] then [k]
    else if k == ks[0] then ks
    else if k < ks[0] then [k] + ks
    else [ks[0]] + InsertKey(ks[1..], k)
  }

  /** The order Object.values visits integer keys in: ascending. */
  function KeyOrder(ms: seq<MicroExpression>): seq<int> {
    if ms == [] then [] else InsertKey(KeyOrder(ms[..|ms| - 1]), ms[|ms| - 1].sequence)
  }

  predicate Ascending(ks: seq<int>) {
    forall i, j | 0 <= i < j < |ks| :: ks[i] < ks[j]
  }

  /** The keys after an insertion are the old ones and k. */
  lemma {:induction false} InsertKeyMembers(ks: seq<int>, k: int)
    ensures forall x :: x in InsertKey(ks, k) <==> x in ks || x == k
  {
    if ks != [] && k > ks[0] {
      InsertKeyMembers(ks[1..], k);
      assert ks == [ks[0]] + ks[1..];
    }
  }

  /** Inserting into an ascending list keeps it ascending. */
  lemma {:induction false} InsertKeyAscending(ks: seq<int>, k: int)
    requires Ascending(ks)
    ensures Ascending(InsertKey(ks, k))
  {
    if ks != [] && k > ks[0] {
      var tail := ks[1..];
      assert Ascending(tail) by {
        forall i, j | 0 <= i < j < |tail| ensures tail[i] < tail[j] {
          assert tail[i] == ks[i + 1] && tail[j] == ks[j + 1];
        }
      }
      InsertKeyAscending(tail, k);
      InsertKeyMembers(tail, k);
      var rest := InsertKey(tail, k);
      forall x | x in rest ensures ks[0] < x {
        if x != k {
          var i :| 0 <= i < |tail| && tail[i] == x;
          assert ks[i + 1] == x;
        }
      }
      ConsAscending(ks[0], rest);
    } else if ks != [] && k < ks[0] {
      forall x | x in ks ensures k < x {
        var i :| 0 <= i < |ks| && ks[i] == x;
        if i > 0 {
          assert ks[0] < ks[i];
        }
      }
      ConsAscending(k, ks);
    }
  }

  /** A key below every key of an ascending list can go in front. */
  lemma ConsAscending(h: int, s: seq<int>)
    requires Ascending(s)
    requires forall x | x in s :: h < x
    ensures Ascending([h] + s)
  {
    var r := [h] + s;
    forall i, j | 0 <= i < j < |r| ensures r[i] < r[j] {
      assert r[j] == s[j - 1];
      assert s[j - 1] in s;
      if i > 0 {
        assert r[i] == s[i - 1];
      }
    }
  }

  /** The sequence ids that occur. */
  function Ids(ms: seq<MicroExpression>): set<int> {
    if ms == [] then {} else Ids(ms[..|ms| - 1]) + {ms[|ms| - 1].sequence}
  }

  lemma {:induction false} IdsExact(ms: seq<MicroExpression>)
    ensures forall k :: k in Ids(ms) <==> exists m | m in ms :: m.sequence == k
  {
    if ms != [] {
      var init := ms[..|ms| - 1];
      var m := ms[|ms| - 1];
      IdsExact(init);
      assert ms == init + [m];
      assert Ids(ms) == Ids(init) + {m.sequence};
      forall k | k in Ids(ms) ensures exists x | x in ms :: x.sequence == k {
        if k != m.sequence {
          assert k in Ids(init);
          var x :| x in init && x.sequence == k;
          assert x in ms;
        } else {
          assert m in ms;
        }
      }
      forall k | exists x | x in ms :: x.sequence == k ensures k in Ids(ms) {
        var x :| x in ms && x.sequence == k;
        assert x in init || x == m;
      }
    }
  }

  /** The visiting order is ascending and visits exactly the ids that occur. */
  lemma {:induction false} KeyOrderExact(ms: seq<MicroExpression>)
    ensures Ascending(KeyOrder(ms))
    ensures forall k :: k in KeyOrder(ms) <==> k in Ids(ms)
  {
    if ms != [] {
      var init := ms[..|ms| - 1];
      KeyOrderExact(init);
      InsertKeyAscending(KeyOrder(init), ms[|ms| - 1].sequence);
      InsertKeyMembers(KeyOrder(init), ms[|ms| - 1].sequence);
    }
  }

  /** There is a group for each id that occurs, nonempty and holding only expressions of that id. */
  lemma {:induction false} GroupMapExact(ms: seq<MicroExpression>)
    ensures forall k :: k in GroupMap(ms) <==> k in Ids(ms)
    ensures forall k | k in GroupMap(ms) :: |GroupMap(ms)[k]| > 0 && forall m | m in GroupMap(ms)[k] :: m in ms && m.sequence == k
  {
    if ms != [] {
      var init := ms[..|ms| - 1];
      var m := ms[|ms| - 1];
      GroupMapExact(init);
      assert ms == init + [m];
      var g := GroupMap(ms);
      var g0 := GroupMap(init);
      forall k | k in g ensures |g[k]| > 0 && forall x | x in g[k] :: x in ms && x.sequence == k {
        if k == m.sequence {
          assert g[k] == (if k in g0 then g0[k] else []) + [m];
        } else {
          assert g[k] == g0[k];
        }
      }
    }
  }

  /**
   * The groups are visited in ascending id order, one visit per group, and
   * each group is nonempty and holds exactly the expressions of its id, in
   * push order.
   */
  lemma GroupsExact(ms: seq<MicroExpression>)
    ensures Ascending(KeyOrder(ms))
    ensures forall k :: k in KeyOrder(ms) <==> k in GroupMap(ms)
    ensures forall k :: k in GroupMap(ms) <==> exists m | m in ms :: m.sequence == k
    ensures forall k | k in GroupMap(ms) :: |GroupMap(ms)[k]| > 0 && forall m | m in GroupMap(ms)[k] :: m in ms && m.sequence == k
  {
    KeyOrderExact(ms);
    GroupMapExact(ms);
    IdsExact(ms);
  }

  /** Every key visited has a group. */
  lemma KeysGrouped(ms: seq<MicroExpression>)
    ensures forall k | k in KeyOrder(ms) :: k in GroupMap(ms)
  {
    GroupsExact(ms);
  }

  function GroupsEffect(groups: map<int, seq<MicroExpression>>, keys: seq<int>, n: nat): Effect
    requires n <= |keys|
    requires forall k | k in keys :: k in groups
  {
    if n == 0 then NoEffect else Then(GroupsEffect(groups, keys, n - 1), GroupEffect(groups[keys[n - 1]]))
  }

  /** A header, then each sequence group in ascending id order. */
  function MicroStage(ms: seq<MicroExpression>): Effect {
    if |ms| > 0 then
      KeysGrouped(ms);
      Then(LogOnly([MicroHeader]), GroupsEffect(GroupMap(ms), KeyOrder(ms), |KeyOrder(ms)|))
    else NoEffect
  }

  lemma {:induction false} GroupsEffectLowers(groups: map<int, seq<MicroExpression>>, keys: seq<int>, n: nat)
    requires n <= |keys|
    requires forall k | k in keys :: k in groups
    ensures Lowers(GroupsEffect(groups, keys, n))
    ensures GroupsEffect(groups, keys, n).truthCut <= 0.05 * GroupSizes(groups, keys, n) as real
  {
    if n > 0 {
      GroupsEffectLowers(groups, keys, n - 1);
    }
  }

  /** The number of expressions in the first n groups visited. */
  function GroupSizes(groups: map<int, seq<MicroExpression>>, keys: seq<int>, n: nat): nat
    requires n <= |keys|
    requires forall k | k in keys :: k in groups
  {
    if n == 0 then 0 else GroupSizes(groups, keys, n - 1) + |groups[keys[n - 1]]|
  }

  /** The micro-expression stage only lowers the scores, by at most 0.05 per expression grouped. */
  lemma MicroStageLowers(ms: seq<MicroExpression>)
    ensures Lowers(MicroStage(ms))
    ensures ms == [] ==> MicroStage(ms) == NoEffect
    ensures ms != [] ==> MicroStage(ms).log[0] == MicroHeader
  {
    if |ms| > 0 {
      GroupsExact(ms);
      GroupsEffectLowers(GroupMap(ms), KeyOrder(ms), |KeyOrder(ms)|);
    }
  }

  /** The grouping reduce, one expression at a time, with the order its keys are visited in. */
  method GroupBySequence(ms: seq<MicroExpression>) returns (groups: map<int, seq<MicroExpression>>, keys: seq<int>)
    ensures groups == GroupMap(ms) && keys == KeyOrder(ms)
  {
    groups, keys := map[], [];
    for i := 0 to |ms|
      invariant groups == GroupMap(ms[..i]) && keys == KeyOrder(ms[..i])
    {
      assert ms[..i + 1][..i] == ms[..i];
      var m := ms[i];
      if m.sequence in groups {
        groups := groups[m.sequence := groups[m.sequence] + [m]];
      } else {
        groups := groups[m.sequence := [m]];
      }
      keys := InsertKey(keys, m.sequence);
    }
    assert ms[..|ms|] == ms;
  }

  /** One sequence group: its lines and its penalty. */
  method ApplyGroup(sequence: seq<MicroExpression>, truth: real, stability: real, log: seq<Observation>)
    returns (truth': real, stability': real, log': seq<Observation>)
    ensures truth' == truth - GroupEffect(sequence).truthCut
    ensures stability' == stability - GroupEffect(sequence).stabilityCut
    ensures log' == log + GroupEffect(sequence).log
  {
    truth', stability', log' := truth, stability, log;
    if |sequence| > 1 {
      log' := log' + [SequenceHeader(|sequence|)];
      for k := 0 to |sequence|
        invariant log' == log + [SequenceHeader(|sequence|)] + GroupedLines(sequence[..k])
      {
        assert sequence[..k + 1][..k] == sequence[..k];
        log' := log' + [GroupedMicro(Line(sequence[k]))];
      }
      assert sequence[..|sequence|] == sequence;
      truth' := truth' - 0.05 * |sequence| as real;
      stability' := stability' - 0.1 * |sequence| as real;
    } else if |sequence| == 1 {
      var expr := sequence[0];
      log' := log' + [SingleMicro(Line(expr))];
      if expr.intensity >= LoneMicroThreshold {
        truth' := truth' - 0.03;
        stability' := stability' - 0.05;
      }
    }
  }

  method ApplyMicroExpressions(ms: seq<MicroExpression>, truth: real, stability: real, log: seq<Observation>)
    returns (truth': real, stability': real, log': seq<Observation>)
    ensures truth' == truth - MicroStage(ms).truthCut
    ensures stability' == stability - MicroStage(ms).stabilityCut
    ensures log' == log + MicroStage(ms).log
  {
    truth', stability', log' := truth, stability, log;
    if |ms| > 0 {
      log' := log' + [MicroHeader];
      var groups, keys := GroupBySequence(ms);
      KeysGrouped(ms);
      assert forall k | k in keys :: k in groups;
      for j := 0 to |keys|
        invariant forall k | k in keys :: k in groups
        invariant truth' == truth - GroupsEffect(groups, keys, j).truthCut
        invariant stability' == stability - GroupsEffect(groups, keys, j).stabilityCut
        invariant log' == log + [MicroHeader] + GroupsEffect(groups, keys, j).log
      {
        assert keys[j] in keys;
        truth', stability', log' := ApplyGroup(groups[keys[j]], truth', stability', log');
      }
    }
  }

  // ---------------------------------------------------------------- landmarks

  function AsymmetryEffect(m: DeceptionMetrics): Effect {
    if m.asymmetry > AsymmetryThreshold then Effect(m.asymmetry * 0.3, 0.0, [AsymmetryLine(m.asymmetry)]) else NoEffect
  }

  function TensionEffect(m: DeceptionMetrics): Effect {
    if m.muscleTension > TensionThreshold then Effect(m.muscleTension * 0.2, 0.0, [TensionLine(m.muscleTension)]) else NoEffect
  }

  function MovementEffect(m: DeceptionMetrics): Effect {
    if m.rapidMovements > MovementThreshold then Effect(m.rapidMovements * 0.25, 0.0, [MovementLine(m.rapidMovements)]) else NoEffect
  }

  function UnnaturalEffect(m: DeceptionMetrics): Effect {
    if m.unnaturalExpressions > UnnaturalThreshold then Effect(m.unnaturalExpressions * 0.35, 0.0, [UnnaturalLine(m.unnaturalExpressions)]) else NoEffect
  }

  /** The four landmark checks, only when landmarks are given; they never touch the stability. */
  function LandmarkStage(landmarks: Option<Landmarks>): Effect
    requires landmarks.Some? ==> WellFormed(landmarks.value)
  {
    match landmarks
    case None => NoEffect
    case Some(l) => MetricsEffect(AnalyzeFacialTension(l))
  }

  function MetricsEffect(m: DeceptionMetrics): Effect {
    Then(Then(Then(AsymmetryEffect(m), TensionEffect(m)), MovementEffect(m)), UnnaturalEffect(m))
  }

  /**
   * The landmark stage lowers only the truth probability, and reports
   * unnatural expressions exactly when the pupils differ by more than 0.2.
   */
  lemma LandmarkStageLowers(landmarks: Option<Landmarks>)
    requires landmarks.Some? ==> WellFormed(landmarks.value)
    ensures Lowers(LandmarkStage(landmarks)) && LandmarkStage(landmarks).stabilityCut == 0.0
    ensures landmarks.None? ==> LandmarkStage(landmarks) == NoEffect
    ensures landmarks.Some? ==>
      ((exists x :: UnnaturalLine(x) in LandmarkStage(landmarks).log) <==>
        Abs(landmarks.value.leftEye.pupilDilation - landmarks.value.rightEye.pupilDilation) > 0.2)
  {
    if landmarks.Some? {
      var l := landmarks.value;
      var m := AnalyzeFacialTension(l);
      RapidMovementsBounds(l);
      var e := LandmarkStage(landmarks);
      assert e.log == AsymmetryEffect(m).log + TensionEffect(m).log + MovementEffect(m).log + UnnaturalEffect(m).log;
      if m.unnaturalExpressions > UnnaturalThreshold {
        assert UnnaturalLine(m.unnaturalExpressions) in e.log;
      }
    }
  }

  method ApplyLandmarks(landmarks: Option<Landmarks>, truth: real, log: seq<Observation>)
    returns (truth': real, log': seq<Observation>)
    requires landmarks.Some? ==> WellFormed(landmarks.value)
    ensures truth' == truth - LandmarkStage(landmarks).truthCut
    ensures log' == log + LandmarkStage(landmarks).log
  {
    truth', log' := truth, log;
    if landmarks.Some? {
      var m := AnalyzeFacialTension(landmarks.value);
      truth', log' := ApplyMetrics(m, truth', log');
    }
  }

  /** The four landmark checks over the computed scores. */
  method ApplyMetrics(m: DeceptionMetrics, truth: real, log: seq<Observation>)
    returns (truth': real, log': seq<Observation>)
    ensures truth' == truth - MetricsEffect(m).truthCut
    ensures log' == log + MetricsEffect(m).log
  {
    truth', log' := truth, log;
    if m.asymmetry > AsymmetryThreshold {
      log' := log' + [AsymmetryLine(m.asymmetry)];
      truth' := truth' - m.asymmetry * 0.3;
    }
    assert truth' == truth - AsymmetryEffect(m).truthCut && log' == log + AsymmetryEffect(m).log;
    if m.muscleTension > TensionThreshold {
      log' := log' + [TensionLine(m.muscleTension)];
      truth' := truth' - m.muscleTension * 0.2;
    }
    ghost var e2 := Then(AsymmetryEffect(m), TensionEffect(m));
    assert truth' == truth - e2.truthCut && log' == log + e2.log;
    if m.rapidMovements > MovementThreshold {
      log' := log' + [MovementLine(m.rapidMovements)];
      truth' := truth' - m.rapidMovements * 0.25;
    }
    ghost var e3 := Then(e2, MovementEffect(m));
    assert truth' == truth - e3.truthCut && log' == log + e3.log;
    if m.unnaturalExpressions > UnnaturalThreshold {
      log' := log' + [UnnaturalLine(m.unnaturalExpressions)];
      truth' := truth' - m.unnaturalExpressions * 0.35;
    }
  }

  // ---------------------------------------------------------------- indicators and baseline

  function IndicatorLines(ind: seq<Indicator>): (r: seq<Observation>)
    ensures |r| == |ind|
    ensures forall i | 0 <= i < |ind| :: r[i] == IndicatorLine(ind[i])
  {
    if ind == [] then [] else IndicatorLines(ind[..|ind| - 1]) + [IndicatorLine(ind[|ind| - 1])]
  }

  /** A header and the indicators, when there are any; no penalty. */
  function IndicatorStage(ind: seq<Indicator>): Effect {
    LogOnly(if |ind| > 0 then [IndicatorsHeader] + IndicatorLines(ind) else [])
  }

  method ApplyIndicators(ind: seq<Indicator>, log: seq<Observation>) returns (log': seq<Observation>)
    ensures log' == log + IndicatorStage(ind).log
  {
    log' := log;
    if |ind| > 0 {
      log' := log' + [IndicatorsHeader];
      for i := 0 to |ind|
        invariant log' == log + [IndicatorsHeader] + IndicatorLines(ind[..i])
      {
        assert ind[..i + 1][..i] == ind[..i];
        log' := log' + [IndicatorLine(ind[i])];
      }
      assert ind[..|ind|] == ind;
    }
  }

  /** A change of at least 10% in fear or anger costs 0.4 and 0.5 of its size. */
  function ChangeEffect(c: Change): Effect {
    var hit := Abs(c.difference) >= BaselineSignificant && (c.emotion == Fearful || c.emotion == Angry);
    Effect(if hit then Abs(c.difference) * 0.4 else 0.0,
           if hit then Abs(c.difference) * 0.5 else 0.0,
           [BaselineLine(c.significance, c.difference)])
  }

  function ChangeEffects(cs: seq<Change>, n: nat): Effect
    requires n <= |cs|
  {
    if n == 0 then NoEffect else Then(ChangeEffects(cs, n - 1), ChangeEffect(cs[n - 1]))
  }

  /** A header and one line per change, when a comparison reports any. */
  function BaselineStage(comparison: Option<Comparison>): Effect {
    if comparison.Some? && |comparison.value.changes| > 0 then
      Then(LogOnly([BaselineHeader]), ChangeEffects(comparison.value.changes, |comparison.value.changes|))
    else NoEffect
  }

  /**
   * The baseline penalties are never negative and come only from changes of
   * at least 10% in fear or anger: without such a change there is none.
   */
  lemma {:induction false} ChangeEffectsLowers(cs: seq<Change>, n: nat)
    requires n <= |cs|
    ensures Lowers(ChangeEffects(cs, n))
    ensures (forall i | 0 <= i < n :: cs[i].emotion !in {Fearful, Angry} || Abs(cs[i].difference) < BaselineSignificant)
      ==> ChangeEffects(cs, n).truthCut == 0.0 && ChangeEffects(cs, n).stabilityCut == 0.0
    ensures |ChangeEffects(cs, n).log| == n
  {
    if n > 0 {
      ChangeEffectsLowers(cs, n - 1);
    }
  }

  lemma BaselineStageLowers(comparison: Option<Comparison>)
    ensures Lowers(BaselineStage(comparison))
    ensures comparison.None? ==> BaselineStage(comparison) == NoEffect
  {
    if comparison.Some? {
      ChangeEffectsLowers(comparison.value.changes, |comparison.value.changes|);
    }
  }

  method ApplyBaseline(comparison: Option<Comparison>, truth: real, stability: real, log: seq<Observation>)
    returns (truth': real, stability': real, log': seq<Observation>)
    ensures truth' == truth - BaselineStage(comparison).truthCut
    ensures stability' == stability - BaselineStage(comparison).stabilityCut
    ensures log' == log + BaselineStage(comparison).log
  {
    truth', stability', log' := truth, stability, log;
    if comparison.Some? && |comparison.value.changes| > 0 {
      var cs := comparison.value.changes;
      log' := log' + [BaselineHeader];
      for i := 0 to |cs|
        invariant truth' == truth - ChangeEffects(cs, i).truthCut
        invariant stability' == stability - ChangeEffects(cs, i).stabilityCut
        invariant log' == log + [BaselineHeader] + ChangeEffects(cs, i).log
      {
        var change := cs[i];
        log' := log' + [BaselineLine(change.significance, change.difference)];
        if Abs(change.difference) >= BaselineSignificant {
          if change.emotion == Fearful || change.emotion == Angry {
            truth' := truth' - Abs(change.difference) * 0.4;
            stability' := stability' - Abs(change.difference) * 0.5;
          }
        }
      }
    }
  }
}
