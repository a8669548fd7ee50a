/**
 * The micro-expression detector (emotionAnalysis.ts, analyzeMicroExpression)
 * as a function over a snapshot of its history, and the sequence analysis
 * (analyzeMicroExpressionSequence) as a specification function with the loop
 * version beside it.
 */
module MicroExpressions {
  import opened Common
  import opened Emotions
  import opened Bands

  /** MICRO_EXPRESSION_THRESHOLDS.ULTRA_WEAK: weaker signals are not micro-expressions. */
  const UltraWeakMicro: real := 0.005
  /** MICRO_EXPRESSION_THRESHOLDS.MAX_DURATION */
  const MicroMaxDurationMs: int := 500
  /** MICRO_SEQUENCE_WINDOW: expressions started less than this long ago share a sequence. */
  const SequenceWindowMs: int := 1000
  /** The history keeps the newest 20 micro-expressions. */
  const MicroCapacity: nat := 20
  /** The sequence analysis looks at the last 3000 ms ... */
  const AnalysisWindowMs: int := 3000
  /** ... and calls a pair under 500 ms apart a rapid transition. */
  const RapidGapMs: int := 500
  /** An emotion seen this many times in the window is reported as repeated. */
  const RepeatCount: nat := 3

  datatype MicroExpression = MicroExpression(
    emotion: Emotion,
    intensity: real,
    significance: MicroSignificance,
    duration: int,
    startTime: int,
    sequence: int)

  /** The detector's state: the global microExpressionHistory of the source. */
  datatype MicroState = MicroState(expressions: seq<MicroExpression>, lastSequenceId: int)

  /** expressions.filter(expr => now - expr.startTime < window), in history order. */
  function Recent(es: seq<MicroExpression>, now: int, window: int): (r: seq<MicroExpression>)
    ensures |r| <= |es|
    ensures forall m :: m in r <==> m in es && now - m.startTime < window
  {
    if es == [] then []
    else (if now - es[0].startTime < window then [es[0]] else []) + Recent(es[1..], now, window)
  }

  /** The first entry of the filtered list is the oldest entry that passes the filter. */
  lemma {:induction false} RecentHead(es: seq<MicroExpression>, now: int, window: int)
    requires Recent(es, now, window) != []
    ensures exists i :: (0 <= i < |es| && es[i] == Recent(es, now, window)[0]
      && now - es[i].startTime < window
      && forall j | 0 <= j < i :: now - es[j].startTime >= window)
  {
    if now - es[0].startTime < window {
      assert es[0] == Recent(es, now, window)[0];
    } else {
      assert Recent(es, now, window) == Recent(es[1..], now, window);
      RecentHead(es[1..], now, window);
      var i :| 0 <= i < |es[1..]| && es[1..][i] == Recent(es[1..], now, window)[0]
        && now - es[1..][i].startTime < window
        && forall j | 0 <= j < i :: now - es[1..][j].startTime >= window;
      assert es[i + 1] == Recent(es, now, window)[0];
      forall j | 0 <= j < i + 1 ensures now - es[j].startTime >= window {
        if j > 0 { assert es[j] == es[1..][j - 1]; }
      }
    }
  }

  /**
   * The start the duration is measured from: the oldest buffered expression's
   * start, or `now` when the history is empty or that start is 0
   * (`expressions[0]?.startTime || currentTime`).
   */
  function DurationBase(st: MicroState, now: int): int {
    if |st.expressions| > 0 && st.expressions[0].startTime != 0 then st.expressions[0].startTime else now
  }

  /**
   * analyzeMicroExpression: nothing under 0.5%; otherwise a record whose
   * duration is capped at 500 ms, whose sequence id is that of the oldest
   * expression started under 1000 ms ago or else a freshly minted one, and
   * which is appended to a history that keeps its newest 20 entries.
   */
  function MicroStep(st: MicroState, e: Emotion, intensity: real, now: int): (r: (Option<MicroExpression>, MicroState))
    ensures r.0.None? <==> intensity < UltraWeakMicro
    ensures r.0.None? ==> r.1 == st
    ensures r.0.Some? ==>
      && r.0.value.emotion == e && r.0.value.intensity == intensity && r.0.value.startTime == now
      && r.0.value.duration <= MicroMaxDurationMs
      && r.1.expressions == KeepLast(st.expressions + [r.0.value], MicroCapacity)
    ensures st.lastSequenceId <= r.1.lastSequenceId <= st.lastSequenceId + 1
  {
    if intensity < UltraWeakMicro then (None, st)
    else
      var m := NewRecord(st, e, intensity, now);
      (Some(m), MicroState(KeepLast(st.expressions + [m], MicroCapacity), SequenceChoice(st, now).1))
  }

  /**
   * The sequence id of a new record and the counter afterwards: the id of the
   * oldest expression started under 1000 ms ago, or a freshly minted one.
   */
  function SequenceChoice(st: MicroState, now: int): (int, int) {
    var recent := Recent(st.expressions, now, SequenceWindowMs);
    if |recent| > 0 then (recent[0].sequence, st.lastSequenceId)
    else (st.lastSequenceId + 1, st.lastSequenceId + 1)
  }

  /** The record analyzeMicroExpression builds, its duration capped at 500 ms. */
  function NewRecord(st: MicroState, e: Emotion, intensity: real, now: int): MicroExpression {
    var duration := MinInt(now - DurationBase(st, now), MicroMaxDurationMs);
    MicroExpression(e, intensity, MicroExpressionSignificance(e, intensity, Some(duration)), duration, now,
                    SequenceChoice(st, now).0)
  }

  /**
   * How MicroStep picks the sequence id: the id of the oldest expression that
   * started less than 1000 ms before `now`, with the counter untouched; when
   * there is none, the counter goes up by exactly one and the new value is the id.
   */
  lemma SequenceIdChoice(st: MicroState, e: Emotion, intensity: real, now: int)
    requires intensity >= UltraWeakMicro
    ensures var r := MicroStep(st, e, intensity, now);
      && (forall m | m in st.expressions :: now - m.startTime >= SequenceWindowMs) ==>
           r.1.lastSequenceId == st.lastSequenceId + 1 && r.0.value.sequence == r.1.lastSequenceId
    ensures var r := MicroStep(st, e, intensity, now);
      forall i | 0 <= i < |st.expressions| ::
        (now - st.expressions[i].startTime < SequenceWindowMs
         && forall j | 0 <= j < i :: now - st.expressions[j].startTime >= SequenceWindowMs)
        ==> r.0.value.sequence == st.expressions[i].sequence && r.1.lastSequenceId == st.lastSequenceId
  {
    var recent := Recent(st.expressions, now, SequenceWindowMs);
    if recent != [] {
      RecentHead(st.expressions, now, SequenceWindowMs);
      var k :| 0 <= k < |st.expressions| && st.expressions[k] == recent[0]
        && now - st.expressions[k].startTime < SequenceWindowMs
        && forall j | 0 <= j < k :: now - st.expressions[j].startTime >= SequenceWindowMs;
      forall i | 0 <= i < |st.expressions|
        && now - st.expressions[i].startTime < SequenceWindowMs
        && forall j | 0 <= j < i :: now - st.expressions[j].startTime >= SequenceWindowMs
        ensures i == k
      {
        if i < k { assert false; }
        if k < i { assert false; }
      }
      assert recent[0] in recent;
    } else {
      forall i | 0 <= i < |st.expressions| ensures now - st.expressions[i].startTime >= SequenceWindowMs {
        assert st.expressions[i] in st.expressions;
      }
    }
  }

  /** The detector's invariant: a non-negative counter and every buffered id in 1 .. counter. */
  predicate IdsBounded(st: MicroState) {
    && st.lastSequenceId >= 0
    && forall m | m in st.expressions :: 1 <= m.sequence <= st.lastSequenceId
  }

  /** MicroStep keeps the invariant, so every id it hands out is at least 1 and never above the counter. */
  lemma MicroStepKeepsIds(st: MicroState, e: Emotion, intensity: real, now: int)
    requires IdsBounded(st)
    ensures IdsBounded(MicroStep(st, e, intensity, now).1)
    ensures MicroStep(st, e, intensity, now).0.Some? ==>
      1 <= MicroStep(st, e, intensity, now).0.value.sequence <= MicroStep(st, e, intensity, now).1.lastSequenceId
  {
    if intensity >= UltraWeakMicro {
      var r := MicroStep(st, e, intensity, now);
      var recent := Recent(st.expressions, now, SequenceWindowMs);
      if recent != [] {
        assert recent[0] in st.expressions;
      }
      var all := st.expressions + [r.0.value];
      forall m | m in r.1.expressions ensures 1 <= m.sequence <= r.1.lastSequenceId {
        assert m in all;
      }
    }
  }

  /** After a recorded step the history holds the new record and otherwise only older entries. */
  lemma StepMembers(st: MicroState, e: Emotion, intensity: real, now: int)
    requires intensity >= UltraWeakMicro
    ensures var r := MicroStep(st, e, intensity, now);
      && r.0.value in r.1.expressions
      && forall h | h in r.1.expressions :: h in st.expressions || h == r.0.value
  {
    var r := MicroStep(st, e, intensity, now);
    var all := st.expressions + [r.0.value];
    KeepLastMembers(all, MicroCapacity);
    assert all[|all| - 1] == r.0.value;
    forall h | h in r.1.expressions ensures h in st.expressions || h == r.0.value {
      assert h in all;
    }
  }

  /** A history whose every entry started at least 1000 ms before t; nothing in it is recent from t on. */
  predicate AllStale(st: MicroState, t: int) {
    forall m | m in st.expressions :: m.startTime <= t - SequenceWindowMs
  }

  /** A second micro-expression 400 ms after the first joins its sequence. */
  lemma SameSequenceWithinWindow(st: MicroState, a: Emotion, b: Emotion, x: real, y: real, t: int)
    requires x >= UltraWeakMicro && y >= UltraWeakMicro
    requires AllStale(st, t)
    ensures var first := MicroStep(st, a, x, t);
      MicroStep(first.1, b, y, t + 400).0.value.sequence == first.0.value.sequence
  {
    var first := MicroStep(st, a, x, t);
    var m := first.0.value;
    StepMembers(st, a, x, t);
    var near := Recent(first.1.expressions, t + 400, SequenceWindowMs);
    assert m in near;
    assert near[0] in near;
    assert near[0] == m by {
      var h := near[0];
      assert h in st.expressions || h == m;
    }
  }

  /** One 1500 ms after the first, with nothing else recent, opens the next sequence. */
  lemma NextSequenceAfterWindow(st: MicroState, a: Emotion, b: Emotion, x: real, y: real, t: int)
    requires x >= UltraWeakMicro && y >= UltraWeakMicro
    requires AllStale(st, t)
    ensures var first := MicroStep(st, a, x, t);
      MicroStep(first.1, b, y, t + 1500).0.value.sequence == first.0.value.sequence + 1
  {
    var first := MicroStep(st, a, x, t);
    var m := first.0.value;
    SequenceIdChoice(st, a, x, t);
    StepMembers(st, a, x, t);
    assert first.1.lastSequenceId == m.sequence;
    forall h | h in first.1.expressions ensures (t + 1500) - h.startTime >= SequenceWindowMs {
    }
    SequenceIdChoice(first.1, b, y, t + 1500);
  }

  // ---------------------------------------------------------------- sequence analysis

  datatype SequenceInsight =
    | RapidTransition(from: Emotion, to: Emotion, gap: int)  // Kiire üleminek
    | SuspiciousOrder                                        // Võimalik valetamisele viitav emotsioonide järjestus
    | Repeated(emotion: Emotion, count: nat)                 // Korduv emotsioon - võimalik püüe emotsiooni varjata

  /** happy then fearful, happy then surprised, neutral then fearful. */
  predicate SuspiciousPair(a: Emotion, b: Emotion) {
    (a == Happy && b == Fearful) || (a == Happy && b == Surprised) || (a == Neutral && b == Fearful)
  }

  /** The time between the starts of rs[i-1] and rs[i]. */
  function Gap(rs: seq<MicroExpression>, i: nat): int
    requires 1 <= i < |rs|
  {
    rs[i].startTime - rs[i - 1].startTime
  }

  /** What the pair (rs[i-1], rs[i]) contributes. */
  function PairAt(rs: seq<MicroExpression>, i: nat): seq<SequenceInsight>
    requires 1 <= i < |rs|
  {
    var gap := Gap(rs, i);
    if gap < RapidGapMs then
      [RapidTransition(rs[i - 1].emotion, rs[i].emotion, gap)]
        + (if SuspiciousPair(rs[i - 1].emotion, rs[i].emotion) then [SuspiciousOrder] else [])
    else []
  }

  /** The `for` loop over the consecutive pairs (rs[i-1], rs[i]) with 1 <= i < n. */
  function PairInsights(rs: seq<MicroExpression>, n: nat): seq<SequenceInsight>
    requires 1 <= n <= |rs|
  {
    if n == 1 then [] else PairInsights(rs, n - 1) + PairAt(rs, n - 1)
  }

  /**
   * The counting reduce: emotions in order of first occurrence (the
   * iteration order of the object it builds) and how often each occurs.
   */
  function Tally(rs: seq<MicroExpression>): (r: (seq<Emotion>, map<Emotion, nat>))
  {
    if rs == [] then ([], map[])
    else
      var prior := Tally(rs[..|rs| - 1]);
      var e := rs[|rs| - 1].emotion;
      if e in prior.1 then (prior.0, prior.1[e := prior.1[e] + 1])
      else (prior.0 + [e], prior.1[e := 1])
  }

  /** One more entry updates the tally as the reduce callback does. */
  lemma TallyExtend(rs: seq<MicroExpression>, k: nat)
    requires k < |rs|
    ensures var prior := Tally(rs[..k]);
      var e := rs[k].emotion;
      && (e in prior.1 ==> Tally(rs[..k + 1]).0 == prior.0 && Tally(rs[..k + 1]).1 == prior.1[e := prior.1[e] + 1])
      && (e !in prior.1 ==> Tally(rs[..k + 1]).0 == prior.0 + [e] && Tally(rs[..k + 1]).1 == prior.1[e := 1])
  {
    assert rs[..k + 1][..k] == rs[..k];
  }

  /** How many entries carry emotion e. */
  function Count(rs: seq<MicroExpression>, e: Emotion): nat {
    if rs == [] then 0
    else Count(rs[..|rs| - 1], e) + (if rs[|rs| - 1].emotion == e then 1 else 0)
  }

  /** The tally lists each emotion that occurs once, and counts it exactly. */
  lemma {:induction false} TallyCounts(rs: seq<MicroExpression>)
    ensures forall e :: e in Tally(rs).0 <==> e in Tally(rs).1
    ensures forall e :: e in Tally(rs).1 <==> Count(rs, e) > 0
    ensures forall e | e in Tally(rs).1 :: Tally(rs).1[e] == Count(rs, e)
    ensures forall i, j | 0 <= i < j < |Tally(rs).0| :: Tally(rs).0[i] != Tally(rs).0[j]
  {
    if rs != [] {
      TallyCounts(rs[..|rs| - 1]);
    }
  }

  /** The forEach over the tally's entries, for its first k emotions. */
  function RepeatInsights(order: seq<Emotion>, counts: map<Emotion, nat>, k: nat): seq<SequenceInsight>
    requires k <= |order|
  {
    if k == 0 then []
    else
      var e := order[k - 1];
      RepeatInsights(order, counts, k - 1)
        + (if e in counts && counts[e] >= RepeatCount then [Repeated(e, counts[e])] else [])
  }

  /**
   * analyzeMicroExpressionSequence: over the expressions started in the last
   * 3000 ms, and only when there are at least two of them, the rapid pairs
   * (with the suspicious ones flagged) and then the repeated emotions.
   */
  function SequenceInsights(ms: seq<MicroExpression>, now: int): seq<SequenceInsight> {
    var recent := Recent(ms, now, AnalysisWindowMs);
    if |recent| < 2 then []
    else
      var t := Tally(recent);
      PairInsights(recent, |recent|) + RepeatInsights(t.0, t.1, |t.0|)
  }

  /** The loop over neighbouring pairs. */
  method RapidPairs(recent: seq<MicroExpression>) returns (insights: seq<SequenceInsight>)
    requires |recent| >= 1
    ensures insights == PairInsights(recent, |recent|)
  {
    insights := [];
    for i := 1 to |recent|
      invariant insights == PairInsights(recent, i)
    {
      var prev := recent[i - 1];
      var curr := recent[i];
      var gap := curr.startTime - prev.startTime;
      var found: seq<SequenceInsight> := [];
      if gap < RapidGapMs {
        found := [RapidTransition(prev.emotion, curr.emotion, gap)];
        if SuspiciousPair(prev.emotion, curr.emotion) {
          found := found + [SuspiciousOrder];
        }
      }
      assert found == PairAt(recent, i);
      insights := insights + found;
    }
  }

  /** The counting reduce. */
  method CountEmotions(recent: seq<MicroExpression>) returns (order: seq<Emotion>, counts: map<Emotion, nat>)
    ensures order == Tally(recent).0 && counts == Tally(recent).1
  {
    order := [];
    counts := map[];
    for k := 0 to |recent|
      invariant order == Tally(recent[..k]).0 && counts == Tally(recent[..k]).1
    {
      TallyExtend(recent, k);
      var e := recent[k].emotion;
      if e in counts {
        counts := counts[e := counts[e] + 1];
      } else {
        order := order + [e];
        counts := counts[e := 1];
      }
    }
    assert recent[..|recent|] == recent;
  }

  /** The loop over the tally's entries. */
  method RepeatedEmotions(order: seq<Emotion>, counts: map<Emotion, nat>) returns (insights: seq<SequenceInsight>)
    ensures insights == RepeatInsights(order, counts, |order|)
  {
    insights := [];
    for j := 0 to |order|
      invariant insights == RepeatInsights(order, counts, j)
    {
      var e := order[j];
      if e in counts && counts[e] >= RepeatCount {
        insights := insights + [Repeated(e, counts[e])];
      }
    }
  }

  /** analyzeMicroExpressionSequence as the source runs it; it computes exactly SequenceInsights. */
  method AnalyzeMicroExpressionSequence(ms: seq<MicroExpression>, now: int) returns (insights: seq<SequenceInsight>)
    ensures insights == SequenceInsights(ms, now)
  {
    var recent := Recent(ms, now, AnalysisWindowMs);
    if |recent| < 2 {
      return [];
    }
    var pairs := RapidPairs(recent);
    var order, counts := CountEmotions(recent);
    var repeated := RepeatedEmotions(order, counts);
    insights := pairs + repeated;
  }

  /** The first k emotions of order yield a repetition exactly for those counted at least three times. */
  lemma {:induction false} RepeatInsightsMembers(order: seq<Emotion>, counts: map<Emotion, nat>, k: nat, e: Emotion, c: nat)
    requires k <= |order|
    ensures Repeated(e, c) in RepeatInsights(order, counts, k)
        <==> e in order[..k] && e in counts && c == counts[e] && c >= RepeatCount
  {
    if k > 0 {
      RepeatInsightsMembers(order, counts, k - 1, e, c);
      assert order[..k] == order[..k - 1] + [order[k - 1]];
    }
  }

  lemma RepeatInsightsExact(rs: seq<MicroExpression>, k: nat, e: Emotion, c: nat)
    requires k <= |Tally(rs).0|
    ensures Repeated(e, c) in RepeatInsights(Tally(rs).0, Tally(rs).1, k)
        <==> e in Tally(rs).0[..k] && c == Count(rs, e) && c >= RepeatCount
  {
    var t := Tally(rs);
    TallyCounts(rs);
    RepeatInsightsMembers(t.0, t.1, k, e, c);
    if e in t.0[..k] {
      assert e in t.0;
    }
  }

  /** Pair insights never report a repetition. */
  lemma {:induction false} PairInsightsNoRepeat(rs: seq<MicroExpression>, n: nat)
    requires 1 <= n <= |rs|
    ensures forall x | x in PairInsights(rs, n) :: !x.Repeated?
  {
    if n > 1 {
      PairInsightsNoRepeat(rs, n - 1);
    }
  }

  /**
   * An emotion is reported as repeated, with count c, exactly when at least
   * two expressions started in the last 3000 ms and c >= 3 of them show it.
   */
  lemma RepeatedExactly(ms: seq<MicroExpression>, now: int, e: Emotion, c: nat)
    ensures var recent := Recent(ms, now, AnalysisWindowMs);
      Repeated(e, c) in SequenceInsights(ms, now) <==> |recent| >= 2 && c == Count(recent, e) && c >= RepeatCount
  {
    var recent := Recent(ms, now, AnalysisWindowMs);
    if |recent| >= 2 {
      var t := Tally(recent);
      PairInsightsNoRepeat(recent, |recent|);
      RepeatInsightsExact(recent, |t.0|, e, c);
      TallyCounts(recent);
      assert t.0[..|t.0|] == t.0;
    }
  }

  /** One pair contributes nothing, a rapid transition, or a rapid transition of a suspicious pair and its flag. */
  lemma PairAtShape(rs: seq<MicroExpression>, i: nat)
    requires 1 <= i < |rs|
    ensures var p := PairAt(rs, i);
      && |p| <= 2
      && (|p| > 0 ==> p[0].RapidTransition? && p[0].gap < RapidGapMs)
      && (|p| == 2 ==> p[1] == SuspiciousOrder && SuspiciousPair(p[0].from, p[0].to))
  {
  }

  /**
   * Every rapid transition reported is under 500 ms, and every suspicious
   * flag directly follows the rapid transition of a suspicious pair.
   */
  lemma PairInsightsShape(rs: seq<MicroExpression>, n: nat)
    requires 1 <= n <= |rs|
    ensures forall x | x in PairInsights(rs, n) && x.RapidTransition? :: x.gap < RapidGapMs
    ensures forall k | 0 <= k < |PairInsights(rs, n)| && PairInsights(rs, n)[k] == SuspiciousOrder ::
      k > 0 && PairInsights(rs, n)[k - 1].RapidTransition?
      && SuspiciousPair(PairInsights(rs, n)[k - 1].from, PairInsights(rs, n)[k - 1].to)
    ensures |PairInsights(rs, n)| > 0 ==> PairInsights(rs, n)[0].RapidTransition?
  {
    PairGapsRapid(rs, n);
    SuspiciousFollowsRapid(rs, n);
  }

  /** Every rapid transition reported is under 500 ms. */
  lemma {:induction false} PairGapsRapid(rs: seq<MicroExpression>, n: nat)
    requires 1 <= n <= |rs|
    ensures forall x | x in PairInsights(rs, n) && x.RapidTransition? :: x.gap < RapidGapMs
  {
    if n > 1 {
      PairGapsRapid(rs, n - 1);
      PairAtShape(rs, n - 1);
      var before := PairInsights(rs, n - 1);
      var p := PairAt(rs, n - 1);
      var r := PairInsights(rs, n);
      assert r == before + p;
      forall x | x in r && x.RapidTransition? ensures x.gap < RapidGapMs {
        if x !in before {
          assert x in p;
          var k :| 0 <= k < |p| && p[k] == x;
          assert k == 0;
        }
      }
    }
  }

  /** Every suspicious flag directly follows a rapid transition of a suspicious pair, and the first entry is rapid. */
  lemma {:induction false} SuspiciousFollowsRapid(rs: seq<MicroExpression>, n: nat)
    requires 1 <= n <= |rs|
    ensures forall k | 0 <= k < |PairInsights(rs, n)| && PairInsights(rs, n)[k] == SuspiciousOrder ::
      k > 0 && PairInsights(rs, n)[k - 1].RapidTransition?
      && SuspiciousPair(PairInsights(rs, n)[k - 1].from, PairInsights(rs, n)[k - 1].to)
    ensures |PairInsights(rs, n)| > 0 ==> PairInsights(rs, n)[0].RapidTransition?
  {
    if n > 1 {
      SuspiciousFollowsRapid(rs, n - 1);
      PairAtShape(rs, n - 1);
      var before := PairInsights(rs, n - 1);
      var p := PairAt(rs, n - 1);
      var r := PairInsights(rs, n);
      assert r == before + p;
      forall k | 0 <= k < |r| && r[k] == SuspiciousOrder
        ensures k > 0 && r[k - 1].RapidTransition? && SuspiciousPair(r[k - 1].from, r[k - 1].to)
      {
        if k < |before| {
          assert before[k] == SuspiciousOrder;
          assert r[k - 1] == before[k - 1];
        } else {
          var j := k - |before|;
          assert r[k] == p[j];
          assert j != 0 by {
            assert p[0].RapidTransition?;
          }
          assert j == 1 && k - 1 == |before|;
          assert r[k - 1] == p[0];
        }
      }
      if |before| == 0 && |p| > 0 {
        assert r[0] == p[0];
      } else if |before| > 0 {
        assert r[0] == before[0];
      }
    }
  }

  /**
   * A rapid transition is reported exactly for each neighbouring pair started
   * under 500 ms apart, naming both emotions and the gap.
   */
  lemma {:induction false} RapidTransitionsExact(rs: seq<MicroExpression>, n: nat, x: SequenceInsight)
    requires 1 <= n <= |rs|
    ensures (x in PairInsights(rs, n) && x.RapidTransition?) <==>
      (exists i | 1 <= i < n ::
         Gap(rs, i) < RapidGapMs && x == RapidTransition(rs[i - 1].emotion, rs[i].emotion, Gap(rs, i)))
  {
    if n > 1 {
      RapidTransitionsExact(rs, n - 1, x);
      var before := PairInsights(rs, n - 1);
      var p := PairAt(rs, n - 1);
      assert PairInsights(rs, n) == before + p;
      var last := RapidTransition(rs[n - 2].emotion, rs[n - 1].emotion, Gap(rs, n - 1));
      assert x in p && x.RapidTransition? <==> Gap(rs, n - 1) < RapidGapMs && x == last;
      if x in before && x.RapidTransition? {
        var i :| 1 <= i < n - 1 && Gap(rs, i) < RapidGapMs
          && x == RapidTransition(rs[i - 1].emotion, rs[i].emotion, Gap(rs, i));
        assert 1 <= i < n;
      } else if x in p && x.RapidTransition? {
        assert 1 <= n - 1 < n && Gap(rs, n - 1) < RapidGapMs && x == last;
      }
    }
  }

  /**
   * The suspicious-order flag is raised exactly when some neighbouring pair
   * started under 500 ms apart is happy then fearful, happy then surprised,
   * or neutral then fearful.
   */
  lemma {:induction false} SuspiciousExact(rs: seq<MicroExpression>, n: nat)
    requires 1 <= n <= |rs|
    ensures SuspiciousOrder in PairInsights(rs, n) <==>
      (exists i | 1 <= i < n :: Gap(rs, i) < RapidGapMs && SuspiciousPair(rs[i - 1].emotion, rs[i].emotion))
  {
    if n > 1 {
      SuspiciousExact(rs, n - 1);
      var before := PairInsights(rs, n - 1);
      var p := PairAt(rs, n - 1);
      assert PairInsights(rs, n) == before + p;
      assert SuspiciousOrder in p <==>
        Gap(rs, n - 1) < RapidGapMs && SuspiciousPair(rs[n - 2].emotion, rs[n - 1].emotion);
      if SuspiciousOrder in before {
        var i :| 1 <= i < n - 1 && Gap(rs, i) < RapidGapMs && SuspiciousPair(rs[i - 1].emotion, rs[i].emotion);
        assert 1 <= i < n;
      } else if SuspiciousOrder in p {
        assert 1 <= n - 1 < n;
      }
    }
  }

  /** The repetition part holds only repetitions. */
  lemma {:induction false} RepeatInsightsOnlyRepeats(order: seq<Emotion>, counts: map<Emotion, nat>, k: nat)
    requires k <= |order|
    ensures forall x | x in RepeatInsights(order, counts, k) :: x.Repeated?
  {
    if k > 0 {
      RepeatInsightsOnlyRepeats(order, counts, k - 1);
    }
  }

  /**
   * analyzeMicroExpressionSequence reports a rapid transition exactly for each
   * neighbouring pair of the last 3000 ms started under 500 ms apart, provided
   * at least two expressions started in that window.
   */
  lemma RapidReportedExactly(ms: seq<MicroExpression>, now: int, x: SequenceInsight)
    ensures var recent := Recent(ms, now, AnalysisWindowMs);
      (x in SequenceInsights(ms, now) && x.RapidTransition?) <==>
        (|recent| >= 2 && exists i | 1 <= i < |recent| ::
           Gap(recent, i) < RapidGapMs && x == RapidTransition(recent[i - 1].emotion, recent[i].emotion, Gap(recent, i)))
  {
    var recent := Recent(ms, now, AnalysisWindowMs);
    if |recent| >= 2 {
      var t := Tally(recent);
      RepeatInsightsOnlyRepeats(t.0, t.1, |t.0|);
      RapidTransitionsExact(recent, |recent|, x);
    }
  }

  /**
   * analyzeMicroExpressionSequence flags a suspicious order exactly when at
   * least two expressions started in the last 3000 ms and two neighbouring
   * ones, started under 500 ms apart, form a suspicious pair.
   */
  lemma SuspiciousFlaggedExactly(ms: seq<MicroExpression>, now: int)
    ensures var recent := Recent(ms, now, AnalysisWindowMs);
      SuspiciousOrder in SequenceInsights(ms, now) <==>
        (|recent| >= 2 && exists i | 1 <= i < |recent| ::
           Gap(recent, i) < RapidGapMs && SuspiciousPair(recent[i - 1].emotion, recent[i].emotion))
  {
    var recent := Recent(ms, now, AnalysisWindowMs);
    if |recent| >= 2 {
      var t := Tally(recent);
      RepeatInsightsOnlyRepeats(t.0, t.1, |t.0|);
      SuspiciousExact(recent, |recent|);
    }
  }

  /** Expressions that all started at the same instant form rapid transitions between every neighbouring pair. */
  lemma {:induction false} SimultaneousAllRapid(rs: seq<MicroExpression>, n: nat)
    requires 1 <= n <= |rs|
    requires forall i, j | 0 <= i < j < |rs| :: rs[i].startTime == rs[j].startTime
    ensures |PairInsights(rs, n)| >= n - 1
    ensures forall i | 1 <= i < n :: RapidTransition(rs[i - 1].emotion, rs[i].emotion, 0) in PairInsights(rs, n)
  {
    if n > 1 {
      SimultaneousAllRapid(rs, n - 1);
      var before := PairInsights(rs, n - 1);
      var p := PairAt(rs, n - 1);
      var last := RapidTransition(rs[n - 2].emotion, rs[n - 1].emotion, 0);
      assert rs[n - 2].startTime == rs[n - 1].startTime;
      assert p[0] == last;
      var r := PairInsights(rs, n);
      assert r == before + p;
      forall i | 1 <= i < n ensures RapidTransition(rs[i - 1].emotion, rs[i].emotion, 0) in r {
        if i < n - 1 {
          assert RapidTransition(rs[i - 1].emotion, rs[i].emotion, 0) in before;
        } else {
          assert r[|before|] == last;
        }
      }
    }
  }
}
