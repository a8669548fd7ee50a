/**
 * The transition tracker (emotionAnalysis.ts, detectEmotionChanges and
 * getTransitionDescription) as a function over a snapshot of the tracker's
 * state. Session.DetectEmotionChanges is the in-place version and is proved
 * to compute exactly Observe.
 */
module Transitions {
  import opened Common
  import opened Emotions

  /** EMOTION_THRESHOLDS.ULTRA_WEAK: smaller per-label changes are ignored. */
  const UltraWeakChange: real := 0.01
  /** TIMING_THRESHOLDS: under 50 ms is too fast, 100 to 200 ms inclusive is the valid window. */
  const TooFastMs: int := 50
  const MinDurationMs: int := 100
  const MaxDurationMs: int := 200
  /** A valid transition less than this long after the previous one is part of a run. */
  const ConsecutiveMs: int := 1000
  /** The tracker keeps only the newest 20 valid transitions. */
  const HistoryCapacity: nat := 20

  /** tõus / langus */
  datatype Direction = Rise | Fall

  /** Kerge, Selge, Märkimisväärne */
  datatype ChangeTier = SlightChange | ClearChange | MarkedChange

  /** The significance text of a transition, by the elapsed time that classified it. */
  datatype Note =
    | TooFast(elapsed: int)
    | WithinWindow(tier: ChangeTier, direction: Direction, elapsed: int, consecutive: bool)
    | OutsideWindow(elapsed: int)

  datatype Transition = Transition(
    emotion: Emotion,
    fromIntensity: real,
    toIntensity: real,
    timestamp: int,
    duration: int,
    changeIntensity: real,
    isValid: bool,
    note: Note)

  /** The tracker's state: the global emotionHistory of the source. */
  datatype TrackerState = TrackerState(
    previous: Option<Vector>,
    lastUpdateTime: int,
    lastValid: Option<Transition>,
    history: seq<Transition>)

  predicate IsValidElapsed(elapsed: int) {
    MinDurationMs <= elapsed <= MaxDurationMs
  }

  function ChangeTierOf(change: real): ChangeTier {
    if change >= 0.1 then MarkedChange
    else if change >= 0.05 then ClearChange
    else SlightChange
  }

  function DirectionOf(before: real, after: real): Direction {
    if after > before then Rise else Fall
  }

  /**
   * One per-label change, classified by the time since the last sample: too
   * fast under 50 ms, valid from 100 to 200 ms, outside the window otherwise.
   * A valid one is consecutive when the last valid transition is under 1000 ms old.
   */
  function MakeTransition(e: Emotion, before: real, after: real, now: int, elapsed: int,
                          lastValid: Option<Transition>): (t: Transition)
    ensures t.isValid <==> IsValidElapsed(elapsed)
    ensures t.isValid <==> t.note.WithinWindow?
    ensures t.note.TooFast? <==> elapsed < TooFastMs
    ensures t.emotion == e && t.fromIntensity == before && t.toIntensity == after
    ensures t.timestamp == now && t.duration == elapsed && t.changeIntensity == Abs(after - before)
  {
    var change := Abs(after - before);
    var note :=
      if elapsed < TooFastMs then TooFast(elapsed)
      else if IsValidElapsed(elapsed) then
        WithinWindow(ChangeTierOf(change), DirectionOf(before, after), elapsed,
                     lastValid.Some? && now - lastValid.value.timestamp < ConsecutiveMs)
      else OutsideWindow(elapsed);
    Transition(e, before, after, now, elapsed, change, IsValidElapsed(elapsed), note)
  }

  /** The transitions built so far in one call and the last valid one seen. */
  datatype ScanState = ScanState(all: seq<Transition>, lastValid: Option<Transition>)

  function ChangeOf(prev: Vector, cur: Vector, e: Emotion): real {
    Abs(cur.At(e) - prev.At(e))
  }

  /** The loop body of detectEmotionChanges for one label. */
  function ScanStep(st: ScanState, e: Emotion, prev: Vector, cur: Vector, now: int, elapsed: int): ScanState {
    if ChangeOf(prev, cur, e) < UltraWeakChange then st
    else
      var t := MakeTransition(e, prev.At(e), cur.At(e), now, elapsed, st.lastValid);
      ScanState(st.all + [t], if t.isValid then Some(t) else st.lastValid)
  }

  /** The loop over the first n labels. */
  function Scan(n: nat, prev: Vector, cur: Vector, now: int, elapsed: int, lastValid: Option<Transition>): ScanState
    requires n <= |Labels|
  {
    if n == 0 then ScanState([], lastValid)
    else ScanStep(Scan(n - 1, prev, cur, now, elapsed, lastValid), Labels[n - 1], prev, cur, now, elapsed)
  }

  /** transitions.filter(t => t.isValid) */
  function ValidOnly(ts: seq<Transition>): (r: seq<Transition>)
    ensures |r| <= |ts|
    ensures forall t :: t in r <==> t in ts && t.isValid
  {
    if ts == [] then []
    else ValidOnly(ts[..|ts| - 1]) + (if ts[|ts| - 1].isValid then [ts[|ts| - 1]] else [])
  }

  /**
   * detectEmotionChanges: on a cold tracker only the sample and the time are
   * recorded; otherwise every label that moved by at least 1% yields a
   * transition, the valid ones are returned and appended to the history, which
   * keeps its newest 20 entries, and the sample and the time are recorded.
   */
  function Observe(tr: TrackerState, cur: Vector, now: int): (r: (seq<Transition>, TrackerState))
    ensures r.1.previous == Some(cur) && r.1.lastUpdateTime == now
    ensures tr.previous.None? ==> r.0 == [] && r.1.lastValid == tr.lastValid && r.1.history == tr.history
    ensures tr.previous.Some? ==> r.1.history == KeepLast(tr.history + r.0, HistoryCapacity)
    ensures |r.1.history| <= HistoryCapacity || r.1.history == tr.history
  {
    match tr.previous
    case None => ([], TrackerState(Some(cur), now, tr.lastValid, tr.history))
    case Some(prev) =>
      var st := Scan(|Labels|, prev, cur, now, now - tr.lastUpdateTime, tr.lastValid);
      var valid := ValidOnly(st.all);
      (valid, TrackerState(Some(cur), now, st.lastValid, KeepLast(tr.history + valid, HistoryCapacity)))
  }

  // ---------------------------------------------------------------- lemmas about one scan

  /** Every transition built in a scan describes a real change of at least 1% observed at `now`. */
  lemma {:induction false} ScanShape(n: nat, prev: Vector, cur: Vector, now: int, elapsed: int, last: Option<Transition>)
    requires n <= |Labels|
    ensures |Scan(n, prev, cur, now, elapsed, last).all| <= n
    ensures forall t | t in Scan(n, prev, cur, now, elapsed, last).all ::
      && t.changeIntensity >= UltraWeakChange
      && t.changeIntensity == ChangeOf(prev, cur, t.emotion)
      && t.fromIntensity == prev.At(t.emotion) && t.toIntensity == cur.At(t.emotion)
      && t.timestamp == now && t.duration == elapsed
      && (t.isValid <==> IsValidElapsed(elapsed))
      && (t.isValid <==> t.note.WithinWindow?)
      && IndexOf(t.emotion) < n
  {
    if n > 0 {
      ScanShape(n - 1, prev, cur, now, elapsed, last);
      IndexOfLabel(n - 1);
    }
  }

  /** A scan visits the labels in order, so its transitions are in label order, one per label at most. */
  lemma {:induction false} ScanOrdered(n: nat, prev: Vector, cur: Vector, now: int, elapsed: int, last: Option<Transition>)
    requires n <= |Labels|
    ensures forall i, j | 0 <= i < j < |Scan(n, prev, cur, now, elapsed, last).all| ::
      IndexOf(Scan(n, prev, cur, now, elapsed, last).all[i].emotion)
        < IndexOf(Scan(n, prev, cur, now, elapsed, last).all[j].emotion)
  {
    if n > 0 {
      ScanOrdered(n - 1, prev, cur, now, elapsed, last);
      ScanShape(n - 1, prev, cur, now, elapsed, last);
      IndexOfLabel(n - 1);
    }
  }

  /** The emotions of a list of transitions, in order. */
  function EmotionsOf(ts: seq<Transition>): (es: seq<Emotion>)
    ensures |es| == |ts|
  {
    if ts == [] then [] else EmotionsOf(ts[..|ts| - 1]) + [ts[|ts| - 1].emotion]
  }

  /** The i-th emotion is that of the i-th transition. */
  lemma {:induction false} EmotionsOfAt(ts: seq<Transition>, i: nat)
    requires i < |ts|
    ensures EmotionsOf(ts)[i] == ts[i].emotion
  {
    if i < |ts| - 1 {
      EmotionsOfAt(ts[..|ts| - 1], i);
    }
  }

  /** A scan over the first n labels emits a transition for exactly those of them that moved by 1% or more. */
  lemma {:induction false} ScanCoverage(n: nat, prev: Vector, cur: Vector, now: int, elapsed: int, last: Option<Transition>, e: Emotion)
    requires n <= |Labels|
    ensures e in EmotionsOf(Scan(n, prev, cur, now, elapsed, last).all)
        <==> e in Labels[..n] && ChangeOf(prev, cur, e) >= UltraWeakChange
  {
    if n > 0 {
      ScanCoverage(n - 1, prev, cur, now, elapsed, last, e);
      var l := Labels[n - 1];
      assert Labels[..n] == Labels[..n - 1] + [l];
      ScanStepEmotions(Scan(n - 1, prev, cur, now, elapsed, last), l, prev, cur, now, elapsed);
    }
  }

  /** One step of the scan adds the label's emotion exactly when it moved by 1% or more. */
  lemma ScanStepEmotions(st: ScanState, l: Emotion, prev: Vector, cur: Vector, now: int, elapsed: int)
    ensures EmotionsOf(ScanStep(st, l, prev, cur, now, elapsed).all)
         == EmotionsOf(st.all) + (if ChangeOf(prev, cur, l) >= UltraWeakChange then [l] else [])
  {
    if ChangeOf(prev, cur, l) >= UltraWeakChange {
      var t := MakeTransition(l, prev.At(l), cur.At(l), now, elapsed, st.lastValid);
      EmotionsOfSnoc(st.all, t);
    } else {
      assert EmotionsOf(st.all) + [] == EmotionsOf(st.all);
    }
  }

  /** Every emotion is one of the labels. */
  lemma EveryLabel(e: Emotion)
    ensures e in Labels[..|Labels|]
  {
    assert Labels[..|Labels|] == Labels;
    assert Labels[IndexOf(e)] == e;
  }

  /** One more transition adds its emotion at the end. */
  lemma EmotionsOfSnoc(ts: seq<Transition>, t: Transition)
    ensures EmotionsOf(ts + [t]) == EmotionsOf(ts) + [t.emotion]
  {
    assert (ts + [t])[..|ts|] == ts;
  }

  /** The labels are distinct: IndexOf inverts indexing. */
  lemma IndexOfLabel(i: nat)
    requires i < |Labels|
    ensures IndexOf(Labels[i]) == i
  {
  }

  /**
   * Inside the valid window every transition of a scan is valid, the last one
   * becomes the tracker's last valid transition, and every one after the
   * first is marked as part of a consecutive run (the one before it was
   * stamped with the same `now`).
   */
  lemma ScanRun(n: nat, prev: Vector, cur: Vector, now: int, elapsed: int, last: Option<Transition>)
    requires n <= |Labels|
    requires IsValidElapsed(elapsed)
    ensures var st := Scan(n, prev, cur, now, elapsed, last);
      && (forall t | t in st.all :: t.isValid)
      && (st.all == [] ==> st.lastValid == last)
      && (st.all != [] ==> st.lastValid == Some(st.all[|st.all| - 1]))
      && (forall i | 0 < i < |st.all| :: st.all[i].note.WithinWindow? && st.all[i].note.consecutive)
      && (st.all != [] ==>
            && st.all[0].note.WithinWindow?
            && (st.all[0].note.consecutive <==> last.Some? && now - last.value.timestamp < ConsecutiveMs))
  {
    ScanRunValid(n, prev, cur, now, elapsed, last);
    ScanRunNotes(n, prev, cur, now, elapsed, last);
  }

  /** Inside the valid window every transition is valid and the last one is remembered. */
  lemma {:induction false} ScanRunValid(n: nat, prev: Vector, cur: Vector, now: int, elapsed: int, last: Option<Transition>)
    requires n <= |Labels|
    requires IsValidElapsed(elapsed)
    ensures var st := Scan(n, prev, cur, now, elapsed, last);
      && (forall t | t in st.all :: t.isValid)
      && (st.all == [] ==> st.lastValid == last)
      && (st.all != [] ==> st.lastValid == Some(st.all[|st.all| - 1]))
  {
    if n > 0 {
      ScanRunValid(n - 1, prev, cur, now, elapsed, last);
    }
  }

  /** Every transition after the first is consecutive; the first is when `last` was recent. */
  predicate RunNotes(all: seq<Transition>, last: Option<Transition>, now: int) {
    && (forall i | 0 < i < |all| :: all[i].note.WithinWindow? && all[i].note.consecutive)
    && (all != [] ==>
          && all[0].note.WithinWindow?
          && (all[0].note.consecutive <==> last.Some? && now - last.value.timestamp < ConsecutiveMs))
  }

  /** Inside the valid window every transition after the first is consecutive; the first is when `last` is recent. */
  lemma {:induction false} ScanRunNotes(n: nat, prev: Vector, cur: Vector, now: int, elapsed: int, last: Option<Transition>)
    requires n <= |Labels|
    requires IsValidElapsed(elapsed)
    ensures RunNotes(Scan(n, prev, cur, now, elapsed, last).all, last, now)
  {
    if n > 0 {
      var before := Scan(n - 1, prev, cur, now, elapsed, last);
      ScanRunNotes(n - 1, prev, cur, now, elapsed, last);
      ScanRunValid(n - 1, prev, cur, now, elapsed, last);
      ScanStamped(n - 1, prev, cur, now, elapsed, last);
      if before.all != [] {
        assert before.all[|before.all| - 1] in before.all;
      }
      RunNotesStep(before, Labels[n - 1], prev, cur, now, elapsed, last);
    }
  }

  /** Every transition of a scan is stamped with the time of the call. */
  lemma {:induction false} ScanStamped(n: nat, prev: Vector, cur: Vector, now: int, elapsed: int, last: Option<Transition>)
    requires n <= |Labels|
    ensures forall t | t in Scan(n, prev, cur, now, elapsed, last).all :: t.timestamp == now
  {
    if n > 0 {
      ScanStamped(n - 1, prev, cur, now, elapsed, last);
    }
  }

  /** One step of a scan in the valid window keeps RunNotes. */
  lemma RunNotesStep(st: ScanState, l: Emotion, prev: Vector, cur: Vector, now: int, elapsed: int, last: Option<Transition>)
    requires IsValidElapsed(elapsed)
    requires st.all == [] ==> st.lastValid == last
    requires st.all != [] ==> st.lastValid == Some(st.all[|st.all| - 1]) && st.all[|st.all| - 1].timestamp == now
    requires RunNotes(st.all, last, now)
    ensures RunNotes(ScanStep(st, l, prev, cur, now, elapsed).all, last, now)
  {
    if ChangeOf(prev, cur, l) >= UltraWeakChange {
      var t := MakeTransition(l, prev.At(l), cur.At(l), now, elapsed, st.lastValid);
      var all := st.all + [t];
      assert ScanStep(st, l, prev, cur, now, elapsed).all == all;
      forall i | 0 < i < |all| ensures all[i].note.WithinWindow? && all[i].note.consecutive {
        if i < |st.all| {
          assert all[i] == st.all[i];
        } else {
          assert all[i] == t;
        }
      }
      if st.all != [] {
        assert all[0] == st.all[0];
      }
    }
  }

  /** Outside the valid window a scan leaves the last valid transition alone and yields nothing valid. */
  lemma {:induction false} ScanOutsideWindow(n: nat, prev: Vector, cur: Vector, now: int, elapsed: int, last: Option<Transition>)
    requires n <= |Labels|
    requires !IsValidElapsed(elapsed)
    ensures Scan(n, prev, cur, now, elapsed, last).lastValid == last
    ensures ValidOnly(Scan(n, prev, cur, now, elapsed, last).all) == []
  {
    if n > 0 {
      ScanOutsideWindow(n - 1, prev, cur, now, elapsed, last);
      ScanShape(n - 1, prev, cur, now, elapsed, last);
      var st := Scan(n - 1, prev, cur, now, elapsed, last);
      var l := Labels[n - 1];
      if ChangeOf(prev, cur, l) >= UltraWeakChange {
        var t := MakeTransition(l, prev.At(l), cur.At(l), now, elapsed, st.lastValid);
        assert (st.all + [t])[..|st.all|] == st.all;
      }
    }
  }

  /** Filtering a list whose every entry is valid keeps it whole. */
  lemma {:induction false} ValidOnlyAllValid(ts: seq<Transition>)
    requires forall t | t in ts :: t.isValid
    ensures ValidOnly(ts) == ts
  {
    if ts != [] {
      var init := ts[..|ts| - 1];
      forall t | t in init ensures t.isValid {
        assert t in ts;
      }
      ValidOnlyAllValid(init);
      var final := ts[|ts| - 1];
      assert final in ts;
      calc {
        ValidOnly(ts);
        ValidOnly(init) + [final];
        init + [final];
        { assert init + [final] == ts; }
        ts;
      }
    }
  }

  // ---------------------------------------------------------------- lemmas about Observe

  /**
   * Every transition Observe returns is valid, moved by at least 1%, was
   * observed 100 to 200 ms after the previous sample and is stamped `now`; so
   * a call outside that window returns nothing and keeps the last valid
   * transition.
   */
  lemma ObservedTransitionsValid(tr: TrackerState, cur: Vector, now: int)
    ensures forall t | t in Observe(tr, cur, now).0 ::
      && t.isValid
      && t.changeIntensity >= UltraWeakChange
      && MinDurationMs <= t.duration <= MaxDurationMs
      && t.timestamp == now
    ensures tr.previous.Some? && !IsValidElapsed(now - tr.lastUpdateTime) ==>
      Observe(tr, cur, now).0 == [] && Observe(tr, cur, now).1.lastValid == tr.lastValid
  {
    if tr.previous.Some? {
      var elapsed := now - tr.lastUpdateTime;
      ScanShape(|Labels|, tr.previous.value, cur, now, elapsed, tr.lastValid);
      if !IsValidElapsed(elapsed) {
        ScanOutsideWindow(|Labels|, tr.previous.value, cur, now, elapsed, tr.lastValid);
      }
    }
  }

  /**
   * Inside the valid window Observe returns one transition for each label
   * that moved by at least 1% and for no other, in label order; each after the
   * first is marked consecutive, and the last becomes the last valid
   * transition.
   */
  lemma ObserveInWindow(tr: TrackerState, cur: Vector, now: int, e: Emotion)
    requires tr.previous.Some? && IsValidElapsed(now - tr.lastUpdateTime)
    ensures var r := Observe(tr, cur, now);
      && (e in EmotionsOf(r.0) <==> ChangeOf(tr.previous.value, cur, e) >= UltraWeakChange)
      && (forall i | 0 < i < |r.0| :: r.0[i].note.WithinWindow? && r.0[i].note.consecutive)
      && (r.0 != [] ==> r.1.lastValid == Some(r.0[|r.0| - 1]))
      && (r.0 == [] ==> r.1.lastValid == tr.lastValid)
  {
    var prev := tr.previous.value;
    var elapsed := now - tr.lastUpdateTime;
    var st := Scan(|Labels|, prev, cur, now, elapsed, tr.lastValid);
    var r := Observe(tr, cur, now);
    assert r.0 == ValidOnly(st.all) && r.1.lastValid == st.lastValid;
    ScanRun(|Labels|, prev, cur, now, elapsed, tr.lastValid);
    ValidOnlyAllValid(st.all);
    assert r.0 == st.all;
    EveryLabel(e);
    ScanCoverage(|Labels|, prev, cur, now, elapsed, tr.lastValid, e);
  }

  /** A scan whose transitions all concern one label holds at most one transition. */
  lemma ScanAtMostOneOf(n: nat, prev: Vector, cur: Vector, now: int, elapsed: int, last: Option<Transition>, e: Emotion)
    requires n <= |Labels|
    requires forall l | l in EmotionsOf(Scan(n, prev, cur, now, elapsed, last).all) :: l == e
    ensures |Scan(n, prev, cur, now, elapsed, last).all| <= 1
  {
    var all := Scan(n, prev, cur, now, elapsed, last).all;
    if |all| > 1 {
      var es := EmotionsOf(all);
      EmotionsOfAt(all, 0);
      EmotionsOfAt(all, 1);
      assert es[0] in es && es[1] in es;
      assert all[0].emotion == e && all[1].emotion == e;
      ScanOrdered(n, prev, cur, now, elapsed, last);
      assert false;
    }
  }

  /** Inside the valid window Observe returns the whole scan: nothing is filtered out. */
  lemma ObserveIsScan(tr: TrackerState, cur: Vector, now: int)
    requires tr.previous.Some? && IsValidElapsed(now - tr.lastUpdateTime)
    ensures Observe(tr, cur, now).0
         == Scan(|Labels|, tr.previous.value, cur, now, now - tr.lastUpdateTime, tr.lastValid).all
  {
    var st := Scan(|Labels|, tr.previous.value, cur, now, now - tr.lastUpdateTime, tr.lastValid);
    ScanRun(|Labels|, tr.previous.value, cur, now, now - tr.lastUpdateTime, tr.lastValid);
    ValidOnlyAllValid(st.all);
  }

  /** A full scan in the window in which only label e moved by 1% or more holds one transition, for e. */
  lemma ScanSingleLabel(prev: Vector, cur: Vector, now: int, elapsed: int, last: Option<Transition>, e: Emotion)
    requires IsValidElapsed(elapsed)
    requires ChangeOf(prev, cur, e) >= UltraWeakChange
    requires forall l: Emotion | l != e :: ChangeOf(prev, cur, l) < UltraWeakChange
    ensures var all := Scan(|Labels|, prev, cur, now, elapsed, last).all;
      && |all| == 1 && all[0].emotion == e
  {
    var all := Scan(|Labels|, prev, cur, now, elapsed, last).all;
    var es := EmotionsOf(all);
    forall l | l in es ensures l == e {
      ScanCoverage(|Labels|, prev, cur, now, elapsed, last, l);
    }
    assert e in es by {
      EveryLabel(e);
      ScanCoverage(|Labels|, prev, cur, now, elapsed, last, e);
    }
    ScanAtMostOneOf(|Labels|, prev, cur, now, elapsed, last, e);
  }

  /**
   * Inside the valid window, a sample in which only one label moved by 1% or
   * more yields exactly one transition, for that label, graded by its own change.
   */
  lemma SingleLabelChange(tr: TrackerState, cur: Vector, now: int, e: Emotion)
    requires tr.previous.Some? && IsValidElapsed(now - tr.lastUpdateTime)
    requires ChangeOf(tr.previous.value, cur, e) >= UltraWeakChange
    requires forall l: Emotion | l != e :: ChangeOf(tr.previous.value, cur, l) < UltraWeakChange
    ensures var r := Observe(tr, cur, now).0;
      && |r| == 1 && r[0].emotion == e && r[0].isValid
      && r[0].note == WithinWindow(ChangeTierOf(ChangeOf(tr.previous.value, cur, e)),
                                   DirectionOf(tr.previous.value.At(e), cur.At(e)),
                                   now - tr.lastUpdateTime,
                                   tr.lastValid.Some? && now - tr.lastValid.value.timestamp < ConsecutiveMs)
  {
    var prev := tr.previous.value;
    var elapsed := now - tr.lastUpdateTime;
    var all := Scan(|Labels|, prev, cur, now, elapsed, tr.lastValid).all;
    ObserveIsScan(tr, cur, now);
    ScanSingleLabel(prev, cur, now, elapsed, tr.lastValid, e);
    var t := all[0];
    assert t in all;
    assert t.fromIntensity == prev.At(e) && t.toIntensity == cur.At(e) && t.changeIntensity == ChangeOf(prev, cur, e) by {
      ScanShape(|Labels|, prev, cur, now, elapsed, tr.lastValid);
    }
    assert t.isValid && t.note.WithinWindow?
      && (t.note.consecutive <==> tr.lastValid.Some? && now - tr.lastValid.value.timestamp < ConsecutiveMs) by {
      ScanRun(|Labels|, prev, cur, now, elapsed, tr.lastValid);
    }
    assert t.note.tier == ChangeTierOf(t.changeIntensity)
      && t.note.direction == DirectionOf(t.fromIntensity, t.toIntensity)
      && t.note.elapsed == elapsed by {
      ScanNotes(|Labels|, prev, cur, now, elapsed, tr.lastValid);
    }
  }

  /**
   * A sample repeated 10 ms later yields nothing; a 15-point rise of `angry`
   * 150 ms after that yields exactly one valid transition, for angry, graded
   * as a marked rise.
   */
  lemma TooFastThenWithinWindow(tr: TrackerState, v: Vector, t0: int)
    requires tr.previous == Some(v) && tr.lastUpdateTime == t0
    ensures Observe(tr, v, t0 + 10).0 == []
    ensures var second := Observe(Observe(tr, v, t0 + 10).1, v.(angry := v.angry + 0.15), t0 + 160).0;
      && |second| == 1
      && second[0].emotion == Angry
      && second[0].isValid
      && second[0].note.WithinWindow?
      && second[0].note.tier == MarkedChange
      && second[0].note.direction == Rise
  {
    ObservedTransitionsValid(tr, v, t0 + 10);
    var mid := Observe(tr, v, t0 + 10).1;
    assert mid.previous == Some(v) && mid.lastUpdateTime == t0 + 10;
    AngryRise(mid, v, t0 + 160);
  }

  /** Inside the window, a 15-point rise of angry alone is one marked rise of angry. */
  lemma AngryRise(tr: TrackerState, v: Vector, now: int)
    requires tr.previous == Some(v) && IsValidElapsed(now - tr.lastUpdateTime)
    ensures var r := Observe(tr, v.(angry := v.angry + 0.15), now).0;
      && |r| == 1
      && r[0].emotion == Angry
      && r[0].isValid
      && r[0].note.WithinWindow?
      && r[0].note.tier == MarkedChange
      && r[0].note.direction == Rise
  {
    var w := v.(angry := v.angry + 0.15);
    forall l: Emotion | l != Angry ensures ChangeOf(v, w, l) < UltraWeakChange {
      assert w.At(l) == v.At(l);
    }
    assert ChangeOf(v, w, Angry) == 0.15;
    SingleLabelChange(tr, w, now, Angry);
  }

  // ---------------------------------------------------------------- description

  /** Järsk (>= 20%), Märkimisväärne (>= 10%), Märgatav (>= 5%), Kerge muutus. */
  datatype ChangeKind = AbruptChange | SignificantChange | NoticeableChange | MinorChange

  datatype Description = Description(kind: ChangeKind, emotion: Emotion, fromIntensity: real, toIntensity: real, direction: Direction)

  /** getTransitionDescription */
  function TransitionDescription(t: Transition): Description {
    var kind :=
      if t.changeIntensity >= 0.2 then AbruptChange
      else if t.changeIntensity >= 0.1 then SignificantChange
      else if t.changeIntensity >= 0.05 then NoticeableChange
      else MinorChange;
    Description(kind, t.emotion, t.fromIntensity, t.toIntensity, DirectionOf(t.fromIntensity, t.toIntensity))
  }

  /**
   * The description of a transition Observe returns agrees with the note the
   * tracker gave it: the same direction, and a marked change exactly when the
   * description calls it abrupt or significant.
   */
  lemma DescriptionAgreesWithNote(tr: TrackerState, cur: Vector, now: int, t: Transition)
    requires t in Observe(tr, cur, now).0
    ensures t.note.WithinWindow?
    ensures TransitionDescription(t).direction == t.note.direction
    ensures TransitionDescription(t).kind in {AbruptChange, SignificantChange} <==> t.note.tier == MarkedChange
  {
    var prev := tr.previous.value;
    var elapsed := now - tr.lastUpdateTime;
    ScanShape(|Labels|, prev, cur, now, elapsed, tr.lastValid);
    var st := Scan(|Labels|, prev, cur, now, elapsed, tr.lastValid);
    assert t in st.all;
    ScanNotes(|Labels|, prev, cur, now, elapsed, tr.lastValid);
  }

  /** Each note's grade and direction are those of its own change. */
  lemma {:induction false} ScanNotes(n: nat, prev: Vector, cur: Vector, now: int, elapsed: int, last: Option<Transition>)
    requires n <= |Labels|
    ensures forall t | t in Scan(n, prev, cur, now, elapsed, last).all && t.note.WithinWindow? ::
      && t.note.tier == ChangeTierOf(t.changeIntensity)
      && t.note.direction == DirectionOf(t.fromIntensity, t.toIntensity)
      && t.note.elapsed == elapsed
  {
    if n > 0 {
      ScanNotes(n - 1, prev, cur, now, elapsed, last);
    }
  }
}
