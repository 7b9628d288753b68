/** The rhythm game's hit test (MIR/js/collisionDetection.js): a box not yet hit whose
    centre is closer to the hand than the threshold is marked hit and reported with its
    points and an accuracy that falls from 100 at the centre to 0 at the threshold. */
module CollisionDetection {
  import opened Geometry
  import opened GameAnimation

  /** One entry of checkCollision's result. */
  datatype Report = Report(box: Box, points: int, accuracy: Number)

  const DefaultThreshold: real := 0.5

  /** calculateDistance: the Euclidean distance, with Math.sqrt passed in. */
  function Distance(a: Vec3, b: Vec3, sqrt: real -> real): real
  {
    sqrt(SquaredDistance(a, b))
  }

  /** calculateAccuracy: 1 - distance / threshold clamped to [0, 1], times 100. A zero threshold
      divides by zero: Infinity gives 0, -Infinity gives 100 and 0 / 0 gives NaN. */
  function Accuracy(distance: real, threshold: real): Number
  {
    if threshold == 0.0 then
      if distance > 0.0 then Num(0.0) else if distance == 0.0 then NaN else Num(100.0)
    else
      Num(Clamp(1.0 - distance / threshold, 0.0, 1.0) * 100.0)
  }

  /** The accuracy is a percentage, and NaN only for a zero distance at a zero threshold. */
  lemma AccuracyRange(distance: real, threshold: real)
    ensures Accuracy(distance, threshold).Num? ==> 0.0 <= Accuracy(distance, threshold).value <= 100.0
    ensures Accuracy(distance, threshold).NaN? <==> threshold == 0.0 && distance == 0.0
  {
  }

  /** Inside the threshold no clamping happens: the accuracy falls linearly from 100 at the
      centre to 0 at the threshold. */
  lemma AccuracyLinear(distance: real, threshold: real)
    requires 0.0 <= distance <= threshold && threshold > 0.0
    ensures Accuracy(distance, threshold) == Num((1.0 - distance / threshold) * 100.0)
    ensures distance == 0.0 ==> Accuracy(distance, threshold) == Num(100.0)
  {
    var q := distance / threshold;
    if q > 1.0 {
      calc { threshold; == 1.0 * threshold; < { MulLess(1.0, q, threshold); } q * threshold; == distance; }
    }
  }

  /** With a positive threshold, a closer hit never scores a lower accuracy. */
  lemma AccuracyMonotone(d1: real, d2: real, threshold: real)
    requires d1 <= d2 && threshold > 0.0
    ensures Accuracy(d1, threshold).value >= Accuracy(d2, threshold).value
  {
    var q1, q2 := d1 / threshold, d2 / threshold;
    calc { q1 * threshold; == d1; }
    calc { q2 * threshold; == d2; }
    if q1 > q2 {
      MulLess(q2, q1, threshold);
    }
  }

  /** Whether box state s is a fresh hit at index k: not hit before, near enough, and the first
      time this box object appears in the list (a repeated box was already marked). */
  predicate FreshHit(hand: Vec3, bs: seq<Box>, ss: seq<BoxState>, k: int, threshold: real, sqrt: real -> real)
    requires |ss| == |bs| && 0 <= k < |bs|
  {
    !ss[k].isHit && Distance(hand, ss[k].position, sqrt) < threshold && bs[k] !in bs[..k]
  }

  function ReportAt(hand: Vec3, bs: seq<Box>, ss: seq<BoxState>, k: int, threshold: real, sqrt: real -> real): Report
    requires |ss| == |bs| && 0 <= k < |bs|
  {
    Report(bs[k], ss[k].points, Accuracy(Distance(hand, ss[k].position, sqrt), threshold))
  }

  /** The indices of the boxes checkCollision reports, given the boxes' states before the call. */
  function Picked(hand: Vec3, bs: seq<Box>, ss: seq<BoxState>, threshold: real, sqrt: real -> real): (p: seq<int>)
    requires |ss| == |bs|
    ensures forall j :: 0 <= j < |p| ==> 0 <= p[j] < |bs|
  {
    if bs == [] then []
    else
      var n := |bs| - 1;
      Picked(hand, bs[..n], ss[..n], threshold, sqrt) + (if FreshHit(hand, bs, ss, n, threshold, sqrt) then [n] else [])
  }

  /** What checkCollision returns, given the boxes' states before the call. */
  function Reports(hand: Vec3, bs: seq<Box>, ss: seq<BoxState>, threshold: real, sqrt: real -> real): (r: seq<Report>)
    requires |ss| == |bs|
  {
    if bs == [] then []
    else
      var n := |bs| - 1;
      Reports(hand, bs[..n], ss[..n], threshold, sqrt)
        + (if FreshHit(hand, bs, ss, n, threshold, sqrt) then [ReportAt(hand, bs, ss, n, threshold, sqrt)] else [])
  }

  /** The states after checkCollision: a box near the hand is hit, nothing else changes. */
  function Marked(hand: Vec3, ss: seq<BoxState>, threshold: real, sqrt: real -> real): (r: seq<BoxState>)
    ensures |r| == |ss|
    ensures forall k :: 0 <= k < |ss| ==>
      r[k] == ss[k].(isHit := ss[k].isHit || Distance(hand, ss[k].position, sqrt) < threshold)
  {
    if ss == [] then []
    else [ss[0].(isHit := ss[0].isHit || Distance(hand, ss[0].position, sqrt) < threshold)]
           + Marked(hand, ss[1..], threshold, sqrt)
  }

  /** The same box object has the same state wherever it appears. */
  ghost predicate Consistent(bs: seq<Box>, ss: seq<BoxState>)
  {
    |ss| == |bs| && forall i, j :: 0 <= i < |bs| && 0 <= j < |bs| && bs[i] == bs[j] ==> ss[i] == ss[j]
  }

  class CollisionDetector {
    var collisionThreshold: real

    constructor ()
      ensures collisionThreshold == DefaultThreshold
    {
      collisionThreshold := 0.5;
    }

    /** calculateAccuracy with the current threshold. */
    function CalculateAccuracy(distance: real): (r: Number)
      reads this
      ensures r == Accuracy(distance, collisionThreshold)
    {
      if collisionThreshold == 0.0 then Accuracy(distance, collisionThreshold)
      else
        var accuracy := 1.0 - distance / collisionThreshold;
        Num(Max(0.0, Min(1.0, accuracy)) * 100.0)
    }

    method SetCollisionThreshold(threshold: real)
      modifies this
      ensures collisionThreshold == threshold
    {
      collisionThreshold := threshold;
    }

    /** checkCollision: one pass over the boxes in order; each box not yet hit and closer than
        the threshold is marked hit and reported. */
    method CheckCollision(hand: Vec3, boxes: seq<Box>, sqrt: real -> real) returns (collisions: seq<Report>)
      modifies set b | b in boxes
      ensures collisions == Reports(hand, boxes, old(States(boxes)), collisionThreshold, sqrt)
      ensures States(boxes) == Marked(hand, old(States(boxes)), collisionThreshold, sqrt)
    {
      ghost var ss := States(boxes);
      StatesConsistent(boxes);
      collisions := [];
      var k := 0;
      while k < |boxes|
        invariant 0 <= k <= |boxes|
        invariant collisions == Reports(hand, boxes[..k], ss[..k], collisionThreshold, sqrt)
        invariant Scanned(hand, boxes, ss, k, sqrt)
      {
        var report := Visit(hand, boxes, k, sqrt, ss);
        ReportsStep(hand, boxes, ss, k, collisionThreshold, sqrt);
        if report.Some? {
          collisions := collisions + [report.value];
        }
        k := k + 1;
      }
      assert boxes[..k] == boxes && ss[..k] == ss;
      forall j | 0 <= j < |boxes| ensures States(boxes)[j] == Marked(hand, ss, collisionThreshold, sqrt)[j] {
        assert boxes[j] in boxes[..k];
      }
    }

    /** The boxes once the first k are done: a box is marked once it has been visited. */
    ghost predicate Scanned(hand: Vec3, boxes: seq<Box>, ss: seq<BoxState>, k: int, sqrt: real -> real)
      reads this, set b | b in boxes
    {
      && Consistent(boxes, ss) && 0 <= k <= |boxes|
      && forall j :: 0 <= j < |boxes| ==>
           boxes[j].State() == (if boxes[j] in boxes[..k] then Marked(hand, ss, collisionThreshold, sqrt)[j] else ss[j])
    }

    /** One turn of the pass: box k is probed, and reported when it is a fresh hit. */
    method Visit(hand: Vec3, boxes: seq<Box>, k: int, sqrt: real -> real, ghost ss: seq<BoxState>)
      returns (report: Option<Report>)
      requires 0 <= k < |boxes| && Scanned(hand, boxes, ss, k, sqrt)
      modifies boxes[k]
      ensures Scanned(hand, boxes, ss, k + 1, sqrt)
      ensures report.Some? <==> FreshHit(hand, boxes, ss, k, collisionThreshold, sqrt)
      ensures report.Some? ==> report.value == ReportAt(hand, boxes, ss, k, collisionThreshold, sqrt)
    {
      var box := boxes[k];
      ghost var m := Marked(hand, ss, collisionThreshold, sqrt);
      assert box.State() == if box in boxes[..k] then m[k] else ss[k];
      report := Probe(hand, box, sqrt);
      assert box.State() == m[k];
      assert boxes[..k + 1] == boxes[..k] + [box];
      forall j | 0 <= j < |boxes|
        ensures boxes[j].State() == (if boxes[j] in boxes[..k + 1] then m[j] else ss[j])
      {
        if boxes[j] == box {
          assert ss[j] == ss[k];
        }
      }
    }

    /** The loop body for one box. */
    method Probe(hand: Vec3, box: Box, sqrt: real -> real) returns (report: Option<Report>)
      modifies box
      ensures report.Some? <==> !old(box.isHit) && Distance(hand, box.position, sqrt) < collisionThreshold
      ensures report.Some? ==> report.value == Report(box, box.points, Accuracy(Distance(hand, box.position, sqrt), collisionThreshold))
      ensures box.State() == old(box.State()).(isHit := old(box.isHit) || Distance(hand, box.position, sqrt) < collisionThreshold)
    {
      report := None;
      if !box.isHit {
        var distance := Distance(hand, box.position, sqrt);
        if distance < collisionThreshold {
          box.isHit := true;
          report := Some(Report(box, box.points, CalculateAccuracy(distance)));
        }
      }
    }
  }

  datatype Option<T> = None | Some(value: T)

  lemma StatesConsistent(bs: seq<Box>)
    ensures Consistent(bs, States(bs))
  {
  }

  lemma ReportsStep(hand: Vec3, bs: seq<Box>, ss: seq<BoxState>, k: int, threshold: real, sqrt: real -> real)
    requires |ss| == |bs| && 0 <= k < |bs|
    ensures Reports(hand, bs[..k + 1], ss[..k + 1], threshold, sqrt)
      == Reports(hand, bs[..k], ss[..k], threshold, sqrt)
         + (if FreshHit(hand, bs, ss, k, threshold, sqrt) then [ReportAt(hand, bs, ss, k, threshold, sqrt)] else [])
  {
    assert bs[..k + 1][..k] == bs[..k];
    assert ss[..k + 1][..k] == ss[..k];
  }

  /** The distance is never negative and is 0 from a point to itself. */
  lemma DistanceFacts(a: Vec3, b: Vec3, sqrt: real -> real)
    requires IsSqrt(sqrt)
    ensures Distance(a, b, sqrt) >= 0.0
    ensures Distance(a, a, sqrt) == 0.0
  {
    SqrtZero(sqrt);
  }

  /** A fresh hit at k depends only on the boxes up to k. */
  lemma FreshHitPrefix(hand: Vec3, bs: seq<Box>, ss: seq<BoxState>, n: int, k: int, threshold: real, sqrt: real -> real)
    requires |ss| == |bs| && 0 <= k < n <= |bs|
    ensures FreshHit(hand, bs[..n], ss[..n], k, threshold, sqrt) == FreshHit(hand, bs, ss, k, threshold, sqrt)
  {
    assert bs[..n][..k] == bs[..k];
  }

  /** A box index is picked exactly when it is a fresh hit. */
  lemma {:induction false} PickedMembers(hand: Vec3, bs: seq<Box>, ss: seq<BoxState>, threshold: real, sqrt: real -> real, k: int)
    requires |ss| == |bs|
    ensures k in Picked(hand, bs, ss, threshold, sqrt) <==> 0 <= k < |bs| && FreshHit(hand, bs, ss, k, threshold, sqrt)
  {
    if bs != [] {
      var n := |bs| - 1;
      PickedMembers(hand, bs[..n], ss[..n], threshold, sqrt, k);
      if 0 <= k < n {
        FreshHitPrefix(hand, bs, ss, n, k, threshold, sqrt);
      }
    }
  }

  /** The picked indices ascend: reports follow the order of the boxes. */
  lemma {:induction false} PickedIncreasing(hand: Vec3, bs: seq<Box>, ss: seq<BoxState>, threshold: real, sqrt: real -> real)
    requires |ss| == |bs|
    ensures forall i, j :: 0 <= i < j < |Picked(hand, bs, ss, threshold, sqrt)| ==>
      Picked(hand, bs, ss, threshold, sqrt)[i] < Picked(hand, bs, ss, threshold, sqrt)[j]
  {
    if bs != [] {
      var n := |bs| - 1;
      PickedIncreasing(hand, bs[..n], ss[..n], threshold, sqrt);
    }
  }

  /** The reports are the reports of the picked boxes, in order. */
  lemma {:induction false} ReportsArePicked(hand: Vec3, bs: seq<Box>, ss: seq<BoxState>, threshold: real, sqrt: real -> real)
    requires |ss| == |bs|
    ensures |Reports(hand, bs, ss, threshold, sqrt)| == |Picked(hand, bs, ss, threshold, sqrt)|
    ensures forall j :: 0 <= j < |Reports(hand, bs, ss, threshold, sqrt)| ==>
      Reports(hand, bs, ss, threshold, sqrt)[j] == ReportAt(hand, bs, ss, Picked(hand, bs, ss, threshold, sqrt)[j], threshold, sqrt)
  {
    if bs != [] {
      var n := |bs| - 1;
      ReportsArePicked(hand, bs[..n], ss[..n], threshold, sqrt);
      var p := Picked(hand, bs[..n], ss[..n], threshold, sqrt);
      forall j | 0 <= j < |p| ensures ReportAt(hand, bs[..n], ss[..n], p[j], threshold, sqrt) == ReportAt(hand, bs, ss, p[j], threshold, sqrt) {
      }
    }
  }

  /** Every report is of a box that was not hit before and lies closer than the threshold,
      with that box's points and the accuracy of its distance. */
  lemma ReportsSound(hand: Vec3, bs: seq<Box>, ss: seq<BoxState>, threshold: real, sqrt: real -> real, j: int)
    requires |ss| == |bs| && 0 <= j < |Reports(hand, bs, ss, threshold, sqrt)|
    ensures exists k :: (
      && 0 <= k < |bs| && bs[k] == Reports(hand, bs, ss, threshold, sqrt)[j].box
      && !ss[k].isHit && Distance(hand, ss[k].position, sqrt) < threshold
      && Reports(hand, bs, ss, threshold, sqrt)[j].points == ss[k].points
      && Reports(hand, bs, ss, threshold, sqrt)[j].accuracy == Accuracy(Distance(hand, ss[k].position, sqrt), threshold))
  {
    ReportsArePicked(hand, bs, ss, threshold, sqrt);
    var k := Picked(hand, bs, ss, threshold, sqrt)[j];
    PickedMembers(hand, bs, ss, threshold, sqrt, k);
  }

  /** No box is reported twice, even when it appears twice in the list. */
  lemma ReportsOncePerBox(hand: Vec3, bs: seq<Box>, ss: seq<BoxState>, threshold: real, sqrt: real -> real)
    requires |ss| == |bs|
    ensures forall i, j :: 0 <= i < j < |Reports(hand, bs, ss, threshold, sqrt)| ==>
      Reports(hand, bs, ss, threshold, sqrt)[i].box != Reports(hand, bs, ss, threshold, sqrt)[j].box
  {
    ReportsArePicked(hand, bs, ss, threshold, sqrt);
    PickedIncreasing(hand, bs, ss, threshold, sqrt);
    var p := Picked(hand, bs, ss, threshold, sqrt);
    forall i, j | 0 <= i < j < |p| ensures bs[p[i]] != bs[p[j]] {
      PickedMembers(hand, bs, ss, threshold, sqrt, p[j]);
      assert bs[p[i]] == bs[..p[j]][p[i]];
    }
  }

  /** The first position of x in s. */
  function FirstIndex<T(==)>(s: seq<T>, x: T): (r: int)
    requires x in s
    ensures 0 <= r < |s| && s[r] == x && x !in s[..r]
  {
    if s[0] == x then 0 else
      assert s[1..][FirstIndex(s[1..], x)] == x;
      assert s[..FirstIndex(s[1..], x) + 1] == [s[0]] + s[1..][..FirstIndex(s[1..], x)];
      1 + FirstIndex(s[1..], x)
  }

  /** Every box that was not hit and lies closer than the threshold is reported. */
  lemma ReportsComplete(hand: Vec3, bs: seq<Box>, ss: seq<BoxState>, threshold: real, sqrt: real -> real, k: int)
    requires Consistent(bs, ss) && 0 <= k < |bs|
    requires !ss[k].isHit && Distance(hand, ss[k].position, sqrt) < threshold
    ensures exists j :: 0 <= j < |Reports(hand, bs, ss, threshold, sqrt)| && Reports(hand, bs, ss, threshold, sqrt)[j].box == bs[k]
  {
    var f := FirstIndex(bs, bs[k]);
    PickedMembers(hand, bs, ss, threshold, sqrt, f);
    ReportsArePicked(hand, bs, ss, threshold, sqrt);
    var p := Picked(hand, bs, ss, threshold, sqrt);
    var j :| 0 <= j < |p| && p[j] == f;
    assert Reports(hand, bs, ss, threshold, sqrt)[j].box == bs[k];
  }

  /** Once the call has marked the boxes, the same hand position reports nothing. */
  lemma SecondCallReportsNothing(hand: Vec3, bs: seq<Box>, ss: seq<BoxState>, threshold: real, sqrt: real -> real)
    requires |ss| == |bs|
    ensures Reports(hand, bs, Marked(hand, ss, threshold, sqrt), threshold, sqrt) == []
  {
    var ms := Marked(hand, ss, threshold, sqrt);
    ReportsArePicked(hand, bs, ms, threshold, sqrt);
    var p := Picked(hand, bs, ms, threshold, sqrt);
    if p != [] {
      PickedMembers(hand, bs, ms, threshold, sqrt, p[0]);
    }
  }
}
