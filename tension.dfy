/**
 * The facial-tension evaluator (emotionAnalysis.ts, analyzeFacialTension and
 * the helpers it calls): four scores computed from the face landmarks.
 */
module FacialTension {
  import opened Common

  datatype Point = Point(x: real, y: real)

  datatype Eye = Eye(upperLid: seq<real>, lowerLid: seq<real>, corner: seq<Point>, pupilDilation: real)

  datatype BrowMovement = BrowMovement(raising: real, furrowing: real)

  datatype Eyebrows = Eyebrows(left: seq<real>, right: seq<real>, movement: BrowMovement)

  datatype Mouth = Mouth(upperLip: seq<real>, lowerLip: seq<real>, corners: seq<Point>, tension: real, opening: real)

  datatype Jawline = Jawline(contour: seq<real>, tension: real)

  /** The landmark groups the evaluator reads (the nose and face-shape groups are never read). */
  datatype Landmarks = Landmarks(leftEye: Eye, rightEye: Eye, eyebrows: Eyebrows, mouth: Mouth, jawline: Jawline)

  /** Every array the evaluator indexes or takes the maximum of has the entries it uses. */
  predicate WellFormed(l: Landmarks) {
    && |l.leftEye.upperLid| > 0 && |l.leftEye.lowerLid| > 0 && |l.leftEye.corner| > 0
    && |l.rightEye.upperLid| > 0 && |l.rightEye.lowerLid| > 0 && |l.rightEye.corner| > 0
    && |l.eyebrows.left| > 0 && |l.eyebrows.right| > 0
    && |l.mouth.upperLip| > 0 && |l.mouth.lowerLip| > 0 && |l.mouth.corners| >= 2
  }

  /** LANDMARK_THRESHOLDS as the orchestrator uses them. */
  const AsymmetryThreshold: real := 0.2
  const TensionThreshold: real := 0.6
  const MovementThreshold: real := 0.3
  /** The unnatural-expression score the orchestrator reacts to. */
  const UnnaturalThreshold: real := 0.3

  /** Math.max(...s) of a nonempty array. */
  function MaxOf(s: seq<real>): (r: real)
    requires |s| > 0
    ensures r in s
    ensures forall x | x in s :: x <= r
  {
    if |s| == 1 then s[0]
    else
      assert forall x | x in s :: x in s[..|s| - 1] || x == s[|s| - 1];
      MaxReal(MaxOf(s[..|s| - 1]), s[|s| - 1])
  }

  /** compareEyePositions: the mean of the lid-height, corner-height and pupil differences. */
  function CompareEyePositions(left: Eye, right: Eye): (r: real)
    requires |left.upperLid| > 0 && |left.lowerLid| > 0 && |left.corner| > 0
    requires |right.upperLid| > 0 && |right.lowerLid| > 0 && |right.corner| > 0
    ensures r >= 0.0
  {
    var leftHeight := Abs(left.upperLid[0] - left.lowerLid[0]);
    var rightHeight := Abs(right.upperLid[0] - right.lowerLid[0]);
    var heightDiff := Abs(leftHeight - rightHeight);
    var cornerDiff := Abs(left.corner[0].y - right.corner[0].y);
    var dilationDiff := Abs(left.pupilDilation - right.pupilDilation);
    (heightDiff + cornerDiff + dilationDiff) / 3.0
  }

  /** compareEyebrowPositions: the mean of the brow-height and raise-versus-furrow differences. */
  function CompareEyebrowPositions(b: Eyebrows): (r: real)
    requires |b.left| > 0 && |b.right| > 0
    ensures r >= 0.0
  {
    var heightDiff := Abs(MaxOf(b.left) - MaxOf(b.right));
    var movementDiff := Abs(b.movement.raising - b.movement.furrowing);
    (heightDiff + movementDiff) / 2.0
  }

  /** compareMouthCorners: the mean of the corner-height and lip-maximum differences. */
  function CompareMouthCorners(m: Mouth): (r: real)
    requires |m.upperLip| > 0 && |m.lowerLip| > 0 && |m.corners| >= 2
    ensures r >= 0.0
  {
    var cornerDiff := Abs(m.corners[0].y - m.corners[1].y);
    var lipTensionDiff := Abs(MaxOf(m.upperLip) - MaxOf(m.lowerLip));
    (cornerDiff + lipTensionDiff) / 2.0
  }

  /** calculateAsymmetry: the mean of the three comparisons, capped at 1. */
  function Asymmetry(l: Landmarks): (r: real)
    requires WellFormed(l)
    ensures 0.0 <= r <= 1.0
  {
    MinOne((CompareEyePositions(l.leftEye, l.rightEye) + CompareEyebrowPositions(l.eyebrows) + CompareMouthCorners(l.mouth)) / 3.0)
  }

  /** The face seen in a mirror: left and right swapped in every paired group. */
  function Mirror(l: Landmarks): Landmarks
    requires WellFormed(l)
  {
    var m := l.mouth;
    l.(leftEye := l.rightEye, rightEye := l.leftEye,
       eyebrows := l.eyebrows.(left := l.eyebrows.right, right := l.eyebrows.left),
       mouth := m.(corners := [m.corners[1], m.corners[0]] + m.corners[2..]))
  }

  /** Asymmetry does not depend on which side is called left. */
  lemma AsymmetryMirrorInvariant(l: Landmarks)
    requires WellFormed(l)
    ensures WellFormed(Mirror(l)) && Asymmetry(Mirror(l)) == Asymmetry(l)
  {
    var n := Mirror(l);
    assert CompareEyePositions(n.leftEye, n.rightEye) == CompareEyePositions(l.leftEye, l.rightEye);
    assert CompareEyebrowPositions(n.eyebrows) == CompareEyebrowPositions(l.eyebrows);
    assert CompareMouthCorners(n.mouth) == CompareMouthCorners(l.mouth);
  }

  /** calculateMuscleTension: the mean of brow furrowing, mouth tension and jaw tension. */
  function MuscleTension(l: Landmarks): (r: real)
  {
    (l.eyebrows.movement.furrowing + l.mouth.tension + l.jawline.tension) / 3.0
  }

  /** Tensions that all lie in [lo, hi] have their mean there too. */
  lemma MuscleTensionInRange(l: Landmarks, lo: real, hi: real)
    requires lo <= l.eyebrows.movement.furrowing <= hi
    requires lo <= l.mouth.tension <= hi
    requires lo <= l.jawline.tension <= hi
    ensures lo <= MuscleTension(l) <= hi
  {
  }

  /** The movements calculateRapidMovements looks at. */
  function Movements(l: Landmarks): seq<real> {
    [l.eyebrows.movement.raising, l.mouth.opening, l.leftEye.pupilDilation, l.rightEye.pupilDilation]
  }

  /** reduce((max, m) => Math.max(max, m), acc) over s. */
  function MaxFrom(s: seq<real>, acc: real): (r: real)
  {
    if s == [] then acc else MaxReal(MaxFrom(s[..|s| - 1], acc), s[|s| - 1])
  }

  /** The running maximum is at least its start and every element, and is one of them. */
  lemma {:induction false} MaxFromBounds(s: seq<real>, acc: real)
    ensures MaxFrom(s, acc) >= acc
    ensures forall x | x in s :: MaxFrom(s, acc) >= x
    ensures MaxFrom(s, acc) == acc || MaxFrom(s, acc) in s
  {
    if s != [] {
      MaxFromBounds(s[..|s| - 1], acc);
      assert forall x | x in s :: x in s[..|s| - 1] || x == s[|s| - 1];
    }
  }

  /** calculateRapidMovements: the largest movement, starting from 0. */
  function RapidMovements(l: Landmarks): real {
    MaxFrom(Movements(l), 0.0)
  }

  /** The rapid-movement score is never negative, and is 0 or the largest movement. */
  lemma RapidMovementsBounds(l: Landmarks)
    ensures RapidMovements(l) >= 0.0
    ensures forall x | x in Movements(l) :: RapidMovements(l) >= x
    ensures RapidMovements(l) == 0.0 || RapidMovements(l) in Movements(l)
  {
    MaxFromBounds(Movements(l), 0.0);
  }

  /** detectUnnaturalExpressions: 0.3 for a raised brow with a tense mouth, 0.4 for unequal pupils, capped at 1. */
  function UnnaturalExpressions(l: Landmarks): (r: real)
    ensures r == 0.0 || r == 0.3 || r == 0.4 || r == 0.7
    ensures r > UnnaturalThreshold <==> Abs(l.leftEye.pupilDilation - l.rightEye.pupilDilation) > 0.2
    ensures r >= 0.3 <==>
      (l.eyebrows.movement.raising > 0.7 && l.mouth.tension > 0.7)
      || Abs(l.leftEye.pupilDilation - l.rightEye.pupilDilation) > 0.2
  {
    var score := (if l.eyebrows.movement.raising > 0.7 && l.mouth.tension > 0.7 then 0.3 else 0.0)
      + (if Abs(l.leftEye.pupilDilation - l.rightEye.pupilDilation) > 0.2 then 0.4 else 0.0);
    MinOne(score)
  }

  datatype DeceptionMetrics = DeceptionMetrics(asymmetry: real, muscleTension: real, rapidMovements: real, unnaturalExpressions: real)

  /** analyzeFacialTension: the four scores. */
  function AnalyzeFacialTension(l: Landmarks): (m: DeceptionMetrics)
    requires WellFormed(l)
    ensures 0.0 <= m.asymmetry <= 1.0
    ensures m.rapidMovements >= 0.0
    ensures 0.0 <= m.unnaturalExpressions <= 0.7
  {
    RapidMovementsBounds(l);
    DeceptionMetrics(Asymmetry(l), MuscleTension(l), RapidMovements(l), UnnaturalExpressions(l))
  }
}
