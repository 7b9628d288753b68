/** The finger test phase of the 3D scene (js/phases/TestPhase.js): the same finger
    classification as the gesture detector with a thumb threshold of 0.4, the per-hand
    display strings, and gesture and collision handlers that do nothing. */
module TestPhase {
  import opened Geometry
  import opened Gesture

  const TestThumbThreshold: real := 0.4

  /** `hand.map(state => state === '^' ? 'O' : '-').join('')`. */
  function FingerString(states: seq<char>): (s: string)
    ensures |s| == |states|
    ensures forall k :: 0 <= k < |states| ==> (s[k] == 'O' <==> states[k] == '^') && s[k] in {'O', '-'}
  {
    if states == [] then [] else [if states[0] == '^' then 'O' else '-'] + FingerString(states[1..])
  }

  /** The display string of a hand shows a raised finger as 'O' and a contracted one as '-'. */
  lemma FingerStringOfMarks(sqrt: real -> real, hand: seq<Vec3>)
    requires IsSqrt(sqrt) && IsHand(hand)
    ensures |FingerString(HandMarks(sqrt, hand, TestThumbThreshold))| == 5
    ensures FingerString(HandMarks(sqrt, hand, TestThumbThreshold))[0] == 'O' <==> ThumbUp(sqrt, hand, TestThumbThreshold)
    ensures forall f :: 1 <= f < 5 ==> (FingerString(HandMarks(sqrt, hand, TestThumbThreshold))[f] == 'O' <==> FingerUp(sqrt, hand, f))
  {
  }

  /** The raised thumbs of the test phase are raised for the detector too: 0.4 is the
      stricter threshold, and the other fingers agree. */
  lemma TestThumbStricter(sqrt: real -> real, hand: seq<Vec3>)
    requires IsSqrt(sqrt) && IsHand(hand)
    ensures ThumbUp(sqrt, hand, TestThumbThreshold) ==> ThumbUp(sqrt, hand, DetectorThumbThreshold)
    ensures HandMarks(sqrt, hand, TestThumbThreshold)[1..] == HandMarks(sqrt, hand, DetectorThumbThreshold)[1..]
  {
    var palm := PalmLength(sqrt, hand);
    if palm != 0.0 && ThumbUp(sqrt, hand, TestThumbThreshold) {
      assert LengthXY(sqrt, hand[Knuckle], hand[Tips[0]]) / palm > 0.4;
    }
  }

  class Phase {
    var fingerStates: map<int, seq<char>>

    constructor ()
      ensures fingerStates == map[]
    {
      fingerStates := map[];
    }

    /** animate: the finger marks of every hand replace `fingerStates`; `shown` is the
        string each hand's panel displays. */
    method Animate(sqrt: real -> real, hands: seq<seq<Vec3>>) returns (shown: map<int, string>)
      requires IsSqrt(sqrt) && forall k :: 0 <= k < |hands| ==> IsHand(hands[k])
      modifies this
      ensures KeyedByHand(fingerStates, sqrt, hands, TestThumbThreshold, |hands|)
      ensures forall i :: i in shown <==> 0 <= i < |hands|
      ensures forall i :: 0 <= i < |hands| ==> shown[i] == FingerString(HandMarks(sqrt, hands[i], TestThumbThreshold))
    {
      var states := MarksByHand(sqrt, hands, TestThumbThreshold);
      fingerStates := states;
      shown := UpdateFingerStatus(states);
    }

    /** updateFingerStatus: one display string per entry of the map. */
    method UpdateFingerStatus(states: map<int, seq<char>>) returns (shown: map<int, string>)
      ensures shown.Keys == states.Keys
      ensures forall i :: i in states ==> shown[i] == FingerString(states[i])
    {
      shown := map i | i in states :: FingerString(states[i]);
    }

    /** handleGesture does nothing. */
    method HandleGesture(command: string, handIndex: int)
      ensures fingerStates == old(fingerStates)
    {
    }

    /** handleCollision does nothing. */
    method HandleCollision(command: string, objects: seq<int>)
      ensures fingerStates == old(fingerStates)
    {
    }
  }
}
