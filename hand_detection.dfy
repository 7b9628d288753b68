/** The rhythm game's hand detector (MIR/js/handDetection.js): the palm-size depth
    heuristic, the results handler that keeps the last hands seen, and the per-hand records
    detectHands returns. The MediaPipe model and the video frame are outside the model: what
    a frame sends to the results handler is a parameter. */
module HandDetection {
  import opened Geometry

  datatype Option<T> = None | Some(value: T)
  datatype Result<T> = Ok(value: T) | Failure(message: string)

  /** The wrist and the landmarks whose distance to it measures the palm. */
  const WristIndex: nat := 0
  const PalmPoints: seq<nat> := [5, 9, 3, 17]
  const NotInitialized: string := "Hand detector not initialized"

  /** MediaPipe reports 21 landmarks per hand. */
  predicate IsHand(hand: seq<Vec3>)
  {
    |hand| == 21
  }

  predicate AllHands(hands: seq<seq<Vec3>>)
  {
    forall k :: 0 <= k < |hands| ==> IsHand(hands[k])
  }

  /** The wrist distances to the landmarks of PalmPoints, in that order. */
  function WristDistances(sqrt: real -> real, hand: seq<Vec3>): (ds: seq<real>)
    requires IsSqrt(sqrt) && IsHand(hand)
    ensures |ds| == 4
    ensures forall k :: 0 <= k < 4 ==> ds[k] == sqrt(SquaredDistance(hand[PalmPoints[k]], hand[WristIndex])) && ds[k] >= 0.0
  {
    seq(4, k requires 0 <= k < 4 => sqrt(SquaredDistance(hand[PalmPoints[k]], hand[WristIndex])))
  }

  /** Math.max of a non-empty list. */
  function MaxOf(xs: seq<real>): (m: real)
    requires xs != []
    ensures forall k :: 0 <= k < |xs| ==> xs[k] <= m
    ensures exists k :: 0 <= k < |xs| && xs[k] == m
  {
    if |xs| == 1 then xs[0]
    else
      var rest := MaxOf(xs[1..]);
      assert forall k :: 1 <= k < |xs| ==> xs[k] == xs[1..][k - 1];
      Max(xs[0], rest)
  }

  /** The palm size: the largest of the four wrist distances (the comment in the source
      says average; the code takes the maximum). */
  function PalmSize(sqrt: real -> real, hand: seq<Vec3>): real
    requires IsSqrt(sqrt) && IsHand(hand)
  {
    MaxOf(WristDistances(sqrt, hand))
  }

  /** The palm size is the maximum of the distances: at least each of them, equal to one of
      them, and so non-negative. */
  lemma PalmSizeIsMax(sqrt: real -> real, hand: seq<Vec3>)
    requires IsSqrt(sqrt) && IsHand(hand)
    ensures PalmSize(sqrt, hand) >= 0.0
    ensures forall k :: 0 <= k < 4 ==> sqrt(SquaredDistance(hand[PalmPoints[k]], hand[0])) <= PalmSize(sqrt, hand)
    ensures exists k :: 0 <= k < 4 && sqrt(SquaredDistance(hand[PalmPoints[k]], hand[0])) == PalmSize(sqrt, hand)
  {
    var ds := WristDistances(sqrt, hand);
    assert ds[0] <= PalmSize(sqrt, hand);
  }

  /** The palm is smaller than t >= 0 exactly when every squared wrist distance is below t * t. */
  lemma PalmSizeBelow(sqrt: real -> real, hand: seq<Vec3>, t: real)
    requires IsSqrt(sqrt) && IsHand(hand) && t >= 0.0
    ensures PalmSize(sqrt, hand) < t <==> forall k :: 0 <= k < 4 ==> SquaredDistance(hand[PalmPoints[k]], hand[0]) < t * t
  {
    var ds := WristDistances(sqrt, hand);
    PalmSizeIsMax(sqrt, hand);
    forall k | 0 <= k < 4
      ensures ds[k] < t <==> SquaredDistance(hand[PalmPoints[k]], hand[0]) < t * t
    {
      SqrtLess(sqrt, SquaredDistance(hand[PalmPoints[k]], hand[0]), t);
    }
  }

  /** What calculateHandDepth returns: depth, depth plus the offset, and the wrist. */
  datatype HandDepth = HandDepth(depth: real, depth2Offset: real, wrist: Vec3)

  /** One entry of detectHands' result. */
  datatype HandData = HandData(landmarks: seq<Vec3>, depth: real, depth2Offset: real, wrist: Vec3,
                               confidence: real, handIndex: nat)

  class HandDetector {
    var isInitialized: bool
    var lastLandmarks: seq<seq<Vec3>>
    var handScale: real
    var distScale: real
    var handOffsetZDistance: real

    /** Every stored hand has its 21 landmarks. */
    ghost predicate Valid()
      reads this
    {
      AllHands(lastLandmarks)
    }

    constructor ()
      ensures Valid()
      ensures !isInitialized && lastLandmarks == [] && handScale == 0.8 && distScale == 3.0 && handOffsetZDistance == 0.0
    {
      isInitialized := false;
      lastLandmarks := [];
      handScale := 0.8;
      distScale := 3.0;
      handOffsetZDistance := 0.0;
    }

    /** calculateHandDepth: ten times the palm size, the same plus the z offset, and the wrist. */
    function CalculateHandDepth(sqrt: real -> real, landmarks: seq<Vec3>): (r: HandDepth)
      requires IsSqrt(sqrt) && IsHand(landmarks)
      reads this
      ensures r.depth == 10.0 * PalmSize(sqrt, landmarks) && r.depth >= 0.0
      ensures r.depth2Offset == r.depth + handOffsetZDistance
      ensures r.wrist == landmarks[0]
    {
      PalmSizeIsMax(sqrt, landmarks);
      var palmSize := MaxOf(WristDistances(sqrt, landmarks));
      var depth := palmSize * 10.0;
      HandDepth(depth, depth + handOffsetZDistance, landmarks[WristIndex])
    }

    /** initialize, once the model has loaded: the detector is ready. */
    method Initialize()
      modifies this
      ensures isInitialized && lastLandmarks == old(lastLandmarks) && handOffsetZDistance == old(handOffsetZDistance)
    {
      isInitialized := true;
    }

    /** The results handler: the reported hands, or none when there are none. */
    method OnResults(multiHandLandmarks: Option<seq<seq<Vec3>>>)
      requires multiHandLandmarks.Some? ==> AllHands(multiHandLandmarks.value)
      modifies this
      ensures Valid()
      ensures lastLandmarks == if multiHandLandmarks.Some? && |multiHandLandmarks.value| > 0 then multiHandLandmarks.value else []
      ensures isInitialized == old(isInitialized) && handOffsetZDistance == old(handOffsetZDistance)
    {
      if multiHandLandmarks.Some? && |multiHandLandmarks.value| > 0 {
        lastLandmarks := multiHandLandmarks.value;
      } else {
        lastLandmarks := [];
      }
    }

    /** The records of the stored hands, in order. */
    function HandRecords(sqrt: real -> real): (r: seq<HandData>)
      requires IsSqrt(sqrt) && Valid()
      reads this
      ensures |r| == |lastLandmarks|
      ensures forall i :: 0 <= i < |r| ==>
        && r[i].landmarks == lastLandmarks[i] && r[i].handIndex == i && r[i].confidence == 1.0
        && r[i].depth == CalculateHandDepth(sqrt, lastLandmarks[i]).depth
        && r[i].depth2Offset == CalculateHandDepth(sqrt, lastLandmarks[i]).depth2Offset
        && r[i].wrist == lastLandmarks[i][0]
    {
      var hands, offset := lastLandmarks, handOffsetZDistance;
      seq(|hands|, i requires 0 <= i < |hands| =>
        PalmSizeIsMax(sqrt, hands[i]);
        var depth := PalmSize(sqrt, hands[i]) * 10.0;
        HandData(hands[i], depth, depth + offset, hands[i][WristIndex], 1.0, i))
    }

    /** detectHands: fails when the detector is not initialised; otherwise the frame is sent
        (`sent` is what it delivers to the results handler, `sendFailed` whether sending
        threw) and one record per stored hand is returned, none when sending failed. */
    method DetectHands(sqrt: real -> real, sent: Option<seq<seq<Vec3>>>, sendFailed: bool) returns (r: Result<seq<HandData>>)
      requires IsSqrt(sqrt) && Valid()
      requires sent.Some? ==> AllHands(sent.value)
      modifies this
      ensures Valid() && isInitialized == old(isInitialized)
      ensures !isInitialized ==> r == Failure(NotInitialized) && lastLandmarks == old(lastLandmarks)
      ensures isInitialized && sendFailed ==> r == Ok([]) && lastLandmarks == old(lastLandmarks)
      ensures isInitialized && !sendFailed ==>
        && lastLandmarks == (if sent.Some? && |sent.value| > 0 then sent.value else [])
        && r == Ok(HandRecords(sqrt))
    {
      if !isInitialized {
        return Failure(NotInitialized);
      }
      if sendFailed {
        return Ok([]);
      }
      OnResults(sent);
      if |lastLandmarks| > 0 {
        r := Ok(HandRecords(sqrt));
      } else {
        r := Ok([]);
      }
    }
  }

  /** With no hands seen, or with the default offset, the records agree with the heuristic:
      depth is ten times the palm and the two depths coincide. */
  lemma DefaultOffsetDepths(d: HandDetector, sqrt: real -> real)
    requires IsSqrt(sqrt) && d.Valid() && d.handOffsetZDistance == 0.0
    ensures forall i :: 0 <= i < |d.lastLandmarks| ==>
      d.HandRecords(sqrt)[i].depth2Offset == d.HandRecords(sqrt)[i].depth == 10.0 * PalmSize(sqrt, d.lastLandmarks[i])
  {
  }
}
