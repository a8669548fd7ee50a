/**
 * The banding helpers that turn a number into a display category
 * (emotionAnalysis.ts: getEmotionIntensity, getEmotionalBalance,
 * getMicroExpressionSignificance, getTruthProbabilityText and the
 * evaluation bands inside formatAnalysisResults). Texts are kept as tags.
 */
module Bands {
  import opened Common
  import opened Emotions

  // ---------------------------------------------------------------- intensity

  /** väga tugev, tugev, märkimisväärne, nõrk, väga nõrk, olematu. */
  datatype IntensityLabel = VeryStrong | Strong | Marked | Weak | VeryWeak | Absent

  function IntensityRank(l: IntensityLabel): nat {
    match l
    case Absent => 0
    case VeryWeak => 1
    case Weak => 2
    case Marked => 3
    case Strong => 4
    case VeryStrong => 5
  }

  /** getEmotionIntensity: thresholds 0.5, 0.3, 0.1, 0.05, 0.03. */
  function EmotionIntensity(value: real): IntensityLabel {
    if value >= 0.5 then VeryStrong
    else if value >= 0.3 then Strong
    else if value >= 0.1 then Marked
    else if value >= 0.05 then Weak
    else if value >= 0.03 then VeryWeak
    else Absent
  }

  /** A stronger value never gets a weaker label, and only values under 3% are absent. */
  lemma EmotionIntensityMonotone(v: real, w: real)
    requires v <= w
    ensures IntensityRank(EmotionIntensity(v)) <= IntensityRank(EmotionIntensity(w))
    ensures EmotionIntensity(v) == Absent <==> v < 0.03
  {
  }

  // ---------------------------------------------------------------- balance

  /** domineerivad positiivsed / negatiivsed emotsioonid, tasakaalustatud emotsioonid. */
  datatype Balance = PositiveDominates | NegativeDominates | Balanced

  function PositiveSum(v: Vector): real { v.happy }

  function NegativeSum(v: Vector): real { v.sad + v.angry + v.fearful + v.disgusted }

  /**
   * getEmotionalBalance: the ratio of the positive to the negative sum, with
   * a zero negative sum replaced by 0.0001 (`negativeSum || 0.0001`).
   */
  function EmotionalBalance(v: Vector): Balance {
    var neg := NegativeSum(v);
    var ratio := PositiveSum(v) / (if neg == 0.0 then 0.0001 else neg);
    if ratio > 2.0 then PositiveDominates
    else if ratio < 0.5 then NegativeDominates
    else Balanced
  }

  /**
   * Without the division: with a positive negative sum, positive emotions
   * dominate exactly when they exceed twice the negative sum, and negative
   * ones exactly when the positive sum is under half of it; with no negative
   * emotion at all, any positive sum above 0.0002 dominates.
   */
  lemma EmotionalBalanceByProducts(v: Vector)
    ensures NegativeSum(v) > 0.0 ==>
      (EmotionalBalance(v) == PositiveDominates <==> PositiveSum(v) > 2.0 * NegativeSum(v))
    ensures NegativeSum(v) > 0.0 ==>
      (EmotionalBalance(v) == NegativeDominates <==> 2.0 * PositiveSum(v) < NegativeSum(v))
    ensures NegativeSum(v) == 0.0 ==>
      (EmotionalBalance(v) == PositiveDominates <==> PositiveSum(v) > 0.0002)
  {
    var neg := NegativeSum(v);
    var pos := PositiveSum(v);
    if neg > 0.0 {
      QuotientCompare(pos, neg, 2.0);
      QuotientCompare(pos, neg, 0.5);
    } else if neg == 0.0 {
      QuotientCompare(pos, 0.0001, 2.0);
    }
  }

  /** Comparing a quotient by a positive divisor is comparing the dividend with a multiple of it. */
  lemma QuotientCompare(x: real, d: real, c: real)
    requires d > 0.0
    ensures x / d > c <==> x > c * d
    ensures x / d < c <==> x < c * d
  {
    var q := x / d;
    assert q * d == x;
    ProductSign(q - c, d);
    assert (q - c) * d == x - c * d;
  }

  /** Multiplying by a positive factor keeps the sign. */
  lemma ProductSign(x: real, k: real)
    requires k > 0.0
    ensures x > 0.0 <==> x * k > 0.0
    ensures x < 0.0 <==> x * k < 0.0
  {
  }

  // ---------------------------------------------------------------- micro-expression significance

  /** selgelt väljendunud (>= 10%), märgatav (>= 5%), nõrk (>= 3%), väga nõrk. */
  datatype MicroTier = Pronounced | Noticeable | Faint | VeryFaint

  /** hetkeline (< 100 ms), lühiajaline (< 250 ms), püsiv. */
  datatype DurationTier = Momentary | ShortLived | Persistent

  /** The emotion-specific reading appended to a micro-expression. */
  datatype Reading = AnxietySign | AversionSign | DiscomfortSign | UnpreparedReaction | InnerConflict | NoReading

  datatype MicroSignificance = MicroSignificance(tier: MicroTier, duration: Option<DurationTier>, reading: Reading)

  function MicroTierOf(intensity: real): MicroTier {
    if intensity >= 0.1 then Pronounced
    else if intensity >= 0.05 then Noticeable
    else if intensity >= 0.03 then Faint
    else VeryFaint
  }

  function DurationTierOf(duration: int): DurationTier {
    if duration < 100 then Momentary
    else if duration < 250 then ShortLived
    else Persistent
  }

  function ReadingOf(e: Emotion): Reading {
    match e
    case Fearful => AnxietySign
    case Angry => AversionSign
    case Disgusted => DiscomfortSign
    case Surprised => UnpreparedReaction
    case Sad => InnerConflict
    case Neutral => NoReading
    case Happy => NoReading
  }

  /** getMicroExpressionSignificance: intensity tier, optional duration qualifier, emotion reading. */
  function MicroExpressionSignificance(e: Emotion, intensity: real, duration: Option<int>): (s: MicroSignificance)
    ensures s.duration.None? <==> duration.None?
    ensures s.reading == NoReading <==> e == Neutral || e == Happy
  {
    MicroSignificance(
      MicroTierOf(intensity),
      match duration { case None => None case Some(d) => Some(DurationTierOf(d)) },
      ReadingOf(e))
  }

  function MicroTierRank(t: MicroTier): nat {
    match t
    case VeryFaint => 0
    case Faint => 1
    case Noticeable => 2
    case Pronounced => 3
  }

  function DurationRank(t: DurationTier): nat {
    match t
    case Momentary => 0
    case ShortLived => 1
    case Persistent => 2
  }

  /** Both qualifiers are monotone in what they grade. */
  lemma MicroSignificanceMonotone(e: Emotion, i: real, j: real, d: int, d': int)
    requires i <= j && d <= d'
    ensures MicroTierRank(MicroExpressionSignificance(e, i, Some(d)).tier)
         <= MicroTierRank(MicroExpressionSignificance(e, j, Some(d')).tier)
    ensures DurationRank(MicroExpressionSignificance(e, i, Some(d)).duration.value)
         <= DurationRank(MicroExpressionSignificance(e, j, Some(d')).duration.value)
  {
  }

  // ---------------------------------------------------------------- truth bands

  /** Väga tõenäoliselt tõene, Pigem tõene, Ebaselge, Pigem ebatõene, Väga tõenäoliselt ebatõene. */
  datatype TruthBand = VeryLikelyTrue | RatherTrue | Unclear | RatherFalse | VeryLikelyFalse

  function TruthBandRank(b: TruthBand): nat {
    match b
    case VeryLikelyFalse => 0
    case RatherFalse => 1
    case Unclear => 2
    case RatherTrue => 3
    case VeryLikelyTrue => 4
  }

  /** getTruthProbabilityText: five bands at 0.2 steps. */
  function TruthProbabilityText(p: real): TruthBand {
    if p >= 0.8 then VeryLikelyTrue
    else if p >= 0.6 then RatherTrue
    else if p >= 0.4 then Unclear
    else if p >= 0.2 then RatherFalse
    else VeryLikelyFalse
  }

  /** getTruthEvaluation inside formatAnalysisResults: the same bands on a whole percentage. */
  function PercentageEvaluation(percentage: int): TruthBand {
    if percentage >= 80 then VeryLikelyTrue
    else if percentage >= 60 then RatherTrue
    else if percentage >= 40 then Unclear
    else if percentage >= 20 then RatherFalse
    else VeryLikelyFalse
  }

  /**
   * The two banding functions agree: a percentage is banded as its fraction
   * is, and both are monotone.
   */
  lemma BandsAgree(n: int, p: real, q: real)
    requires p <= q
    ensures PercentageEvaluation(n) == TruthProbabilityText(n as real / 100.0)
    ensures TruthBandRank(TruthProbabilityText(p)) <= TruthBandRank(TruthProbabilityText(q))
  {
  }
}
