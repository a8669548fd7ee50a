/**
 * The baseline comparator (emotionAnalysis.ts, compareWithBaseline and
 * getChangeSignificance): how far each label moved from the vector recorded
 * before the question, keeping the moves of at least 2%.
 */
module Baseline {
  import opened Common
  import opened Emotions
  import opened Transitions

  /** BASELINE_THRESHOLDS */
  const BaselineMinimal: real := 0.02
  const BaselineNotable: real := 0.05
  const BaselineSignificant: real := 0.1

  /** Kerge, Märgatav, Märkimisväärne. */
  datatype ShiftTier = SlightShift | NotableShift | SignificantShift

  /**
   * The label-specific reading: a possible reaction to the question (fear),
   * emotional activation (neutral), a defensive reaction (anger), an
   * unprepared reaction (surprise), or just the label's own name.
   */
  datatype Gloss = QuestionReaction | Activation | DefensiveReaction | UnpreparedShift | PlainLabel(name: Emotion)

  datatype ChangeSignificance = ChangeSignificance(tier: ShiftTier, direction: Direction, gloss: Gloss)

  function ShiftTierOf(absChange: real): ShiftTier {
    if absChange >= BaselineSignificant then SignificantShift
    else if absChange >= BaselineNotable then NotableShift
    else SlightShift
  }

  function GlossOf(e: Emotion): Gloss {
    match e
    case Fearful => QuestionReaction
    case Neutral => Activation
    case Angry => DefensiveReaction
    case Surprised => UnpreparedShift
    case _ => PlainLabel(e)
  }

  /** getChangeSignificance: a rise exactly when the difference is positive, graded on its magnitude. */
  function ChangeSignificanceOf(e: Emotion, difference: real): (s: ChangeSignificance)
    ensures s.direction == Rise <==> difference > 0.0
    ensures s.tier == SignificantShift <==> Abs(difference) >= BaselineSignificant
    ensures s.tier == SlightShift <==> Abs(difference) < BaselineNotable
    ensures s.gloss.PlainLabel? <==> e in {Happy, Sad, Disgusted}
  {
    ChangeSignificance(ShiftTierOf(Abs(difference)), if difference > 0.0 then Rise else Fall, GlossOf(e))
  }

  datatype Change = Change(emotion: Emotion, before: real, after: real, difference: real, significance: ChangeSignificance)

  /** beforeQuestion, duringQuestion and the changes kept. */
  datatype Comparison = Comparison(before: Vector, during: Vector, changes: seq<Change>)

  function ChangeAt(baseline: Vector, current: Vector, e: Emotion): Change {
    var d := current.At(e) - baseline.At(e);
    Change(e, baseline.At(e), current.At(e), d, ChangeSignificanceOf(e, d))
  }

  /** The map-then-filter over the first n labels, in label order. */
  function ChangesOver(baseline: Vector, current: Vector, n: nat): seq<Change>
    requires n <= |Labels|
  {
    if n == 0 then []
    else
      var c := ChangeAt(baseline, current, Labels[n - 1]);
      ChangesOver(baseline, current, n - 1) + (if Abs(c.difference) >= BaselineMinimal then [c] else [])
  }

  /** compareWithBaseline: nothing without a baseline, otherwise both vectors and the kept changes. */
  function CompareWithBaseline(baseline: Option<Vector>, current: Vector): (r: Option<Comparison>)
    ensures r.None? <==> baseline.None?
    ensures r.Some? ==> r.value.before == baseline.value && r.value.during == current
  {
    match baseline
    case None => None
    case Some(b) => Some(Comparison(b, current, ChangesOver(b, current, |Labels|)))
  }

  /**
   * Every kept change is of at least 2%, is measured from the baseline to the
   * current value of its label, and the labels appear in label order; a label
   * among the first n appears exactly when it moved by at least 2%.
   */
  lemma ChangesOverExact(baseline: Vector, current: Vector, n: nat)
    requires n <= |Labels|
    ensures var cs := ChangesOver(baseline, current, n);
      && (forall c | c in cs ::
            && Abs(c.difference) >= BaselineMinimal
            && c.before == baseline.At(c.emotion) && c.after == current.At(c.emotion)
            && c.difference == c.after - c.before
            && c.significance == ChangeSignificanceOf(c.emotion, c.difference)
            && IndexOf(c.emotion) < n)
      && (forall i, j | 0 <= i < j < |cs| :: IndexOf(cs[i].emotion) < IndexOf(cs[j].emotion))
      && (forall e: Emotion | IndexOf(e) < n ::
            (exists c | c in cs :: c.emotion == e) <==> Abs(current.At(e) - baseline.At(e)) >= BaselineMinimal)
  {
    ChangesOverKept(baseline, current, n);
    ChangesOverOrdered(baseline, current, n);
    ChangesOverCovers(baseline, current, n);
  }

  /** Every kept change is of at least 2%, measured on its own label, which is among the first n. */
  lemma {:induction false} ChangesOverKept(baseline: Vector, current: Vector, n: nat)
    requires n <= |Labels|
    ensures forall c | c in ChangesOver(baseline, current, n) ::
      && Abs(c.difference) >= BaselineMinimal
      && c.before == baseline.At(c.emotion) && c.after == current.At(c.emotion)
      && c.difference == c.after - c.before
      && c.significance == ChangeSignificanceOf(c.emotion, c.difference)
      && IndexOf(c.emotion) < n
  {
    if n > 0 {
      ChangesOverKept(baseline, current, n - 1);
      var e := Labels[n - 1];
      assert IndexOf(e) == n - 1 by { IndexOfLabel(n - 1); }
    }
  }

  predicate InLabelOrder(cs: seq<Change>) {
    forall i, j | 0 <= i < j < |cs| :: IndexOf(cs[i].emotion) < IndexOf(cs[j].emotion)
  }

  /** The kept changes follow label order. */
  lemma {:induction false} ChangesOverOrdered(baseline: Vector, current: Vector, n: nat)
    requires n <= |Labels|
    ensures InLabelOrder(ChangesOver(baseline, current, n))
  {
    if n > 0 {
      ChangesOverOrdered(baseline, current, n - 1);
      ChangesOverKept(baseline, current, n - 1);
      var before := ChangesOver(baseline, current, n - 1);
      var e := Labels[n - 1];
      assert IndexOf(e) == n - 1 by { IndexOfLabel(n - 1); }
      var c := ChangeAt(baseline, current, e);
      var cs := ChangesOver(baseline, current, n);
      assert cs == before + (if Abs(c.difference) >= BaselineMinimal then [c] else []);
      forall i, j | 0 <= i < j < |cs|
        ensures IndexOf(cs[i].emotion) < IndexOf(cs[j].emotion)
      {
        if j == |before| {
          assert cs[j] == c && c.emotion == e;
          assert cs[i] == before[i] && before[i] in before;
          assert IndexOf(cs[i].emotion) < n - 1;
        } else {
          assert cs[i] == before[i] && cs[j] == before[j];
        }
      }
    }
  }

  /** A label among the first n is kept exactly when it moved by at least 2%. */
  lemma {:induction false} ChangesOverCovers(baseline: Vector, current: Vector, n: nat)
    requires n <= |Labels|
    ensures var cs := ChangesOver(baseline, current, n);
      forall e: Emotion | IndexOf(e) < n ::
        (exists c | c in cs :: c.emotion == e) <==> Abs(current.At(e) - baseline.At(e)) >= BaselineMinimal
  {
    if n > 0 {
      ChangesOverCovers(baseline, current, n - 1);
      ChangesOverKept(baseline, current, n - 1);
      var before := ChangesOver(baseline, current, n - 1);
      var e := Labels[n - 1];
      assert IndexOf(e) == n - 1 by { IndexOfLabel(n - 1); }
      var c := ChangeAt(baseline, current, e);
      var cs := ChangesOver(baseline, current, n);
      assert cs == before + (if Abs(c.difference) >= BaselineMinimal then [c] else []);
      forall e' : Emotion | IndexOf(e') < n
        ensures (exists c' | c' in cs :: c'.emotion == e') <==> Abs(current.At(e') - baseline.At(e')) >= BaselineMinimal
      {
        if IndexOf(e') == n - 1 {
          assert e' == e;
          if Abs(c.difference) >= BaselineMinimal {
            assert c in cs;
          }
        } else {
          assert IndexOf(e') < n - 1;
        }
      }
    }
  }

  /** Every reported change is of at least 2%, and a label is reported exactly when it moved that much. */
  lemma ComparisonExact(b: Vector, current: Vector, e: Emotion)
    ensures var cs := CompareWithBaseline(Some(b), current).value.changes;
      && (forall c | c in cs :: Abs(c.difference) >= BaselineMinimal && c.difference == current.At(c.emotion) - b.At(c.emotion))
      && ((exists c | c in cs :: c.emotion == e) <==> Abs(current.At(e) - b.At(e)) >= BaselineMinimal)
  {
    ChangesOverExact(b, current, |Labels|);
  }

  lemma {:induction false} NoChangesOverItself(v: Vector, n: nat)
    requires n <= |Labels|
    ensures ChangesOver(v, v, n) == []
  {
    if n > 0 {
      NoChangesOverItself(v, n - 1);
    }
  }

  /** Comparing the baseline vector against itself reports no change. */
  lemma SelfComparisonEmpty(v: Vector)
    ensures CompareWithBaseline(Some(v), v) == Some(Comparison(v, v, []))
  {
    NoChangesOverItself(v, |Labels|);
  }

  /** The significant changes the formatter lists: at least 5%. */
  function NotableChanges(cs: seq<Change>): (r: seq<Change>)
    ensures forall c | c in r :: c in cs && Abs(c.difference) >= BaselineNotable
    ensures forall c | c in cs && Abs(c.difference) >= BaselineNotable :: c in r
  {
    if cs == [] then []
    else NotableChanges(cs[..|cs| - 1]) + (var c := cs[|cs| - 1]; if Abs(c.difference) >= BaselineNotable then [c] else [])
  }
}
