/**
 * The closed set of seven emotion labels, the per-frame emotion vector,
 * validation of a raw detector sample and normalisation into a distribution
 * (emotionAnalysis.ts, isValidEmotions and normalizeEmotions).
 */
module Emotions {
  import opened Common

  datatype Emotion = Neutral | Happy | Sad | Angry | Fearful | Disgusted | Surprised

  /** The seven labels in the order the detector reports them; every per-label loop visits them in this order. */
  const Labels: seq<Emotion> := [Neutral, Happy, Sad, Angry, Fearful, Disgusted, Surprised]

  /** Position of a label in Labels. */
  function IndexOf(e: Emotion): (i: nat)
    ensures i < |Labels| && Labels[i] == e
  {
    match e
    case Neutral => 0
    case Happy => 1
    case Sad => 2
    case Angry => 3
    case Fearful => 4
    case Disgusted => 5
    case Surprised => 6
  }

  /** An emotion sample: one intensity per label. */
  datatype Vector = Vector(neutral: real, happy: real, sad: real, angry: real,
                           fearful: real, disgusted: real, surprised: real)
  {
    function At(e: Emotion): real {
      match e
      case Neutral => neutral
      case Happy => happy
      case Sad => sad
      case Angry => angry
      case Fearful => fearful
      case Disgusted => disgusted
      case Surprised => surprised
    }
  }

  function Sum(v: Vector): real {
    v.neutral + v.happy + v.sad + v.angry + v.fearful + v.disgusted + v.surprised
  }

  /**
   * A raw sample as the detector hands it over: a label that is missing,
   * not a number or NaN is simply absent from the map.
   */
  type RawSample = map<Emotion, real>

  /** isValidEmotions: all seven labels carry a number. */
  predicate IsValidEmotions(raw: RawSample)
  {
    forall l | l in Labels :: l in raw
  }

  /** A sample is valid exactly when no label is missing from it. */
  lemma ValidIffComplete(raw: RawSample)
    ensures IsValidEmotions(raw) <==> forall e: Emotion :: e in raw
  {
    forall e: Emotion ensures e in Labels {
      assert Labels[IndexOf(e)] == e;
    }
  }

  /** The typed vector of a validated raw sample. */
  function ToVector(raw: RawSample): (v: Vector)
    requires IsValidEmotions(raw)
    ensures forall e: Emotion | e in raw :: v.At(e) == raw[e]
  {
    ValidIffComplete(raw);
    Vector(raw[Neutral], raw[Happy], raw[Sad], raw[Angry], raw[Fearful], raw[Disgusted], raw[Surprised])
  }

  /** Every label multiplied by k. */
  function Scale(v: Vector, k: real): (r: Vector)
    ensures forall e: Emotion :: r.At(e) == v.At(e) * k
  {
    Vector(v.neutral * k, v.happy * k, v.sad * k, v.angry * k, v.fearful * k, v.disgusted * k, v.surprised * k)
  }

  /**
   * normalizeEmotions: every value divided by the sum of all values; a
   * vector whose values sum to exactly 0 is returned unchanged.
   */
  function Normalize(v: Vector): (r: Vector)
    ensures Sum(v) == 0.0 ==> r == v
    ensures Sum(v) != 0.0 ==> forall e: Emotion :: r.At(e) * Sum(v) == v.At(e)
  {
    var s := Sum(v);
    if s == 0.0 then v
    else Vector(v.neutral / s, v.happy / s, v.sad / s, v.angry / s, v.fearful / s, v.disgusted / s, v.surprised / s)
  }

  lemma SumScale(v: Vector, k: real)
    ensures Sum(Scale(v, k)) == Sum(v) * k
  {
    var w := Scale(v, k);
    calc {
      Sum(w);
      v.neutral * k + v.happy * k + v.sad * k + v.angry * k + v.fearful * k + v.disgusted * k + v.surprised * k;
      (v.neutral + v.happy + v.sad + v.angry + v.fearful + v.disgusted + v.surprised) * k;
    }
  }

  lemma NormalizeIsScale(v: Vector)
    requires Sum(v) != 0.0
    ensures Normalize(v) == Scale(v, 1.0 / Sum(v))
  {
    var s := Sum(v);
    DivideByInverse(v.neutral, s);
    DivideByInverse(v.happy, s);
    DivideByInverse(v.sad, s);
    DivideByInverse(v.angry, s);
    DivideByInverse(v.fearful, s);
    DivideByInverse(v.disgusted, s);
    DivideByInverse(v.surprised, s);
  }

  lemma DivideByInverse(x: real, s: real)
    requires s != 0.0
    ensures x / s == x * (1.0 / s)
  {
  }

  /** A vector whose values do not sum to 0 normalises to values that sum to exactly 1. */
  lemma NormalizeSumsToOne(v: Vector)
    requires Sum(v) != 0.0
    ensures Sum(Normalize(v)) == 1.0
  {
    var s := Sum(v);
    NormalizeIsScale(v);
    SumScale(v, 1.0 / s);
    assert s * (1.0 / s) == 1.0;
  }

  /** Normalising twice is normalising once. */
  lemma NormalizeIdempotent(v: Vector)
    ensures Normalize(Normalize(v)) == Normalize(v)
  {
    if Sum(v) != 0.0 {
      NormalizeSumsToOne(v);
    }
  }

  /** A share of a non-negative total lies in [0, 1]. */
  lemma ShareInUnitRange(a: real, s: real)
    requires 0.0 <= a <= s && s > 0.0
    ensures 0.0 <= a / s <= 1.0
  {
  }

  /** Non-negative intensities with a positive sum normalise into [0, 1]. */
  lemma NormalizeInUnitRange(v: Vector, e: Emotion)
    requires forall l: Emotion :: v.At(l) >= 0.0
    requires Sum(v) > 0.0
    ensures 0.0 <= Normalize(v).At(e) <= 1.0
  {
    var s := Sum(v);
    assert v.At(Neutral) >= 0.0 && v.At(Happy) >= 0.0 && v.At(Sad) >= 0.0 && v.At(Angry) >= 0.0;
    assert v.At(Fearful) >= 0.0 && v.At(Disgusted) >= 0.0 && v.At(Surprised) >= 0.0;
    ShareInUnitRange(v.At(e), s);
    assert Normalize(v).At(e) == v.At(e) / s by {
      match e
      case Neutral =>
      case Happy =>
      case Sad =>
      case Angry =>
      case Fearful =>
      case Disgusted =>
      case Surprised =>
    }
  }
}
