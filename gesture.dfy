/** Finger up/down classification from length ratios (js/GestureDetector.js): for each hand,
    five marks for thumb, index, middle, ring and pinky, '^' for a relaxed (raised) finger and
    '_' for a contracted one. Lengths ignore z; square roots are a parameter. */
module Gesture {
  import opened Geometry

  /** The landmarks of a fingertip, thumb first. */
  const Tips: seq<nat> := [4, 8, 12, 16, 20]
  const Wrist: nat := 0
  /** The index finger's knuckle, the far end of the palm. */
  const Knuckle: nat := 5

  const FingerThreshold: real := 1.3
  const DetectorThumbThreshold: real := 0.3

  /** A hand as its 21 landmark positions. */
  predicate IsHand(hand: seq<Vec3>)
  {
    |hand| == 21
  }

  function Mark(up: bool): char
  {
    if up then '^' else '_'
  }

  /** `ignoreZAxis(b - a).length()`. */
  function LengthXY(sqrt: real -> real, a: Vec3, b: Vec3): (r: real)
    requires IsSqrt(sqrt)
    ensures r >= 0.0
  {
    sqrt(SquaredDistanceXY(a, b))
  }

  /** The palm: from the wrist to the index knuckle. */
  function PalmLength(sqrt: real -> real, hand: seq<Vec3>): real
    requires IsSqrt(sqrt) && IsHand(hand)
  {
    LengthXY(sqrt, hand[Wrist], hand[Knuckle])
  }

  /** The thumb is raised when its length (tip to index knuckle) over the palm exceeds the threshold. */
  predicate ThumbUp(sqrt: real -> real, hand: seq<Vec3>, thumbThreshold: real)
    requires IsSqrt(sqrt) && IsHand(hand)
  {
    RatioAbove(LengthXY(sqrt, hand[Knuckle], hand[Tips[0]]), PalmLength(sqrt, hand), thumbThreshold)
  }

  /** Finger f in 1..4 is raised when tip-to-wrist over the palm exceeds 1.3. */
  predicate FingerUp(sqrt: real -> real, hand: seq<Vec3>, f: nat)
    requires IsSqrt(sqrt) && IsHand(hand) && 1 <= f < 5
  {
    RatioAbove(LengthXY(sqrt, hand[Wrist], hand[Tips[f]]), PalmLength(sqrt, hand), FingerThreshold)
  }

  /** The marks of one hand. */
  function HandMarks(sqrt: real -> real, hand: seq<Vec3>, thumbThreshold: real): (marks: seq<char>)
    requires IsSqrt(sqrt) && IsHand(hand)
    ensures |marks| == 5
  {
    [Mark(ThumbUp(sqrt, hand, thumbThreshold))] + seq(4, i requires 0 <= i < 4 => Mark(FingerUp(sqrt, hand, i + 1)))
  }

  /** Every mark is '^' or '_', the thumb's is '^' exactly when its squared length exceeds
      threshold^2 times the squared palm, and finger f's exactly when its squared length
      exceeds 1.69 times the squared palm: no root is needed. */
  lemma HandMarksSquared(sqrt: real -> real, hand: seq<Vec3>, thumbThreshold: real)
    requires IsSqrt(sqrt) && IsHand(hand) && thumbThreshold > 0.0
    ensures forall k :: 0 <= k < 5 ==> HandMarks(sqrt, hand, thumbThreshold)[k] in {'^', '_'}
    ensures HandMarks(sqrt, hand, thumbThreshold)[0] == '^' <==>
      SquaredDistanceXY(hand[5], hand[4]) > thumbThreshold * thumbThreshold * SquaredDistanceXY(hand[0], hand[5])
    ensures forall f :: 1 <= f < 5 ==> (HandMarks(sqrt, hand, thumbThreshold)[f] == '^' <==>
      SquaredDistanceXY(hand[0], hand[Tips[f]]) > 1.69 * SquaredDistanceXY(hand[0], hand[5]))
  {
    var marks := HandMarks(sqrt, hand, thumbThreshold);
    ThumbSquared(sqrt, hand, thumbThreshold);
    forall f | 1 <= f < 5
      ensures marks[f] == '^' <==> SquaredDistanceXY(hand[0], hand[Tips[f]]) > 1.69 * SquaredDistanceXY(hand[0], hand[5])
    {
      assert marks[f] == Mark(FingerUp(sqrt, hand, f));
      FingerSquared(sqrt, hand, f);
    }
  }

  /** The thumb test without roots. */
  lemma ThumbSquared(sqrt: real -> real, hand: seq<Vec3>, thumbThreshold: real)
    requires IsSqrt(sqrt) && IsHand(hand) && thumbThreshold > 0.0
    ensures ThumbUp(sqrt, hand, thumbThreshold) <==>
      SquaredDistanceXY(hand[5], hand[4]) > thumbThreshold * thumbThreshold * SquaredDistanceXY(hand[0], hand[5])
  {
    RatioAboveSquared(sqrt, SquaredDistanceXY(hand[5], hand[4]), SquaredDistanceXY(hand[0], hand[5]), thumbThreshold);
  }

  /** The test of finger f without roots: 1.3 squared is 1.69. */
  lemma FingerSquared(sqrt: real -> real, hand: seq<Vec3>, f: nat)
    requires IsSqrt(sqrt) && IsHand(hand) && 1 <= f < 5
    ensures FingerUp(sqrt, hand, f) <==> SquaredDistanceXY(hand[0], hand[Tips[f]]) > 1.69 * SquaredDistanceXY(hand[0], hand[5])
  {
    RatioAboveSquared(sqrt, SquaredDistanceXY(hand[0], hand[Tips[f]]), SquaredDistanceXY(hand[0], hand[5]), FingerThreshold);
  }

  /** The marks depend only on the x and y of the landmarks. */
  lemma HandMarksIgnoreZ(sqrt: real -> real, hand: seq<Vec3>, other: seq<Vec3>, thumbThreshold: real)
    requires IsSqrt(sqrt) && IsHand(hand) && IsHand(other)
    requires forall k :: 0 <= k < 21 ==> hand[k].x == other[k].x && hand[k].y == other[k].y
    ensures HandMarks(sqrt, hand, thumbThreshold) == HandMarks(sqrt, other, thumbThreshold)
  {
    assert SquaredDistanceXY(hand[0], hand[5]) == SquaredDistanceXY(other[0], other[5]);
    assert SquaredDistanceXY(hand[5], hand[4]) == SquaredDistanceXY(other[5], other[4]);
    forall f | 1 <= f < 5
      ensures SquaredDistanceXY(hand[0], hand[Tips[f]]) == SquaredDistanceXY(other[0], other[Tips[f]])
    {
    }
  }

  /** The loop body for one hand: the thumb mark, then a mark per finger of `fingers.slice(1)`. */
  method FingerMarks(sqrt: real -> real, hand: seq<Vec3>, thumbThreshold: real) returns (fingerStates: seq<char>)
    requires IsSqrt(sqrt) && IsHand(hand)
    ensures fingerStates == HandMarks(sqrt, hand, thumbThreshold)
  {
    var palmLength := LengthXY(sqrt, hand[Wrist], hand[Knuckle]);
    fingerStates := [];
    var thumbLength := LengthXY(sqrt, hand[Knuckle], hand[Tips[0]]);
    if RatioAbove(thumbLength, palmLength, thumbThreshold) {
      fingerStates := fingerStates + ['^'];
    } else {
      fingerStates := fingerStates + ['_'];
    }
    for f := 1 to 5
      invariant |fingerStates| == f
      invariant fingerStates[0] == Mark(ThumbUp(sqrt, hand, thumbThreshold))
      invariant forall j :: 1 <= j < f ==> fingerStates[j] == Mark(FingerUp(sqrt, hand, j))
    {
      var fingerLength := LengthXY(sqrt, hand[Wrist], hand[Tips[f]]);
      if RatioAbove(fingerLength, palmLength, FingerThreshold) {
        fingerStates := fingerStates + ['^'];
      } else {
        fingerStates := fingerStates + ['_'];
      }
    }
  }

  /** A map keyed by hand index holding `marks` of every hand and nothing else. */
  ghost predicate KeyedByHand(m: map<int, seq<char>>, sqrt: real -> real, hands: seq<seq<Vec3>>, thumbThreshold: real, n: int)
    requires IsSqrt(sqrt) && (forall k :: 0 <= k < |hands| ==> IsHand(hands[k])) && 0 <= n <= |hands|
  {
    && (forall i :: i in m <==> 0 <= i < n)
    && (forall i :: 0 <= i < n ==> m[i] == HandMarks(sqrt, hands[i], thumbThreshold))
  }

  /** The forEach over the hands, shared with the test phase, which uses a different thumb threshold. */
  method MarksByHand(sqrt: real -> real, hands: seq<seq<Vec3>>, thumbThreshold: real) returns (m: map<int, seq<char>>)
    requires IsSqrt(sqrt) && forall k :: 0 <= k < |hands| ==> IsHand(hands[k])
    ensures KeyedByHand(m, sqrt, hands, thumbThreshold, |hands|)
  {
    m := map[];
    for i := 0 to |hands|
      invariant KeyedByHand(m, sqrt, hands, thumbThreshold, i)
    {
      var fingerStates := FingerMarks(sqrt, hands[i], thumbThreshold);
      m := m[i := fingerStates];
    }
  }

  class GestureDetector {
    var fingerStates: map<int, seq<char>>
    var handOrientations: map<int, real>

    constructor ()
      ensures fingerStates == map[] && handOrientations == map[]
    {
      fingerStates := map[];
      handOrientations := map[];
    }

    /** getFingerStatus: both maps are replaced by ones keyed by the current hands; the
        orientation angle of a hand is given by `orientation`. Returns the detector itself. */
    method GetFingerStatus(sqrt: real -> real, hands: seq<seq<Vec3>>, orientation: seq<Vec3> -> real) returns (self: GestureDetector)
      requires IsSqrt(sqrt) && forall k :: 0 <= k < |hands| ==> IsHand(hands[k])
      modifies this
      ensures self == this
      ensures KeyedByHand(fingerStates, sqrt, hands, DetectorThumbThreshold, |hands|)
      ensures forall i :: i in handOrientations <==> 0 <= i < |hands|
      ensures forall i :: 0 <= i < |hands| ==> handOrientations[i] == orientation(hands[i])
    {
      var states := MarksByHand(sqrt, hands, DetectorThumbThreshold);
      var angles := map[];
      for i := 0 to |hands|
        invariant forall j :: j in angles <==> 0 <= j < i
        invariant forall j :: 0 <= j < i ==> angles[j] == orientation(hands[j])
      {
        angles := angles[i := orientation(hands[i])];
      }
      fingerStates := states;
      handOrientations := angles;
      return this;
    }
  }
}
