/** The rhythm game's falling boxes (MIR/js/3DAnimation.js): each beat becomes a box far
    from the camera; every frame moves the boxes closer and drops those that are hit or past
    the camera. The Three.js scene graph, camera and renderer are not modelled. */
module GameAnimation {
  import opened Geometry

  /** A beat of the beat map, as createBox reads it. */
  datatype BeatData = BeatData(time: real, position: Vec3, points: int)

  /** Everything the game keeps about a box: position, x and y rotation and its user data. */
  datatype BoxState = BoxState(position: Vec3, rotX: real, rotY: real,
                               points: int, isHit: bool, startTime: real)

  /** A box mesh; the scene and the collision detector share it by reference. */
  class Box {
    var position: Vec3
    var rotX: real
    var rotY: real
    var points: int
    var isHit: bool
    var startTime: real

    function State(): BoxState
      reads this
    {
      BoxState(position, rotX, rotY, points, isHit, startTime)
    }

    constructor (s: BoxState)
      ensures State() == s
    {
      position, rotX, rotY := s.position, s.rotX, s.rotY;
      points, isHit, startTime := s.points, s.isHit, s.startTime;
    }
  }

  /** No box is listed twice. */
  ghost predicate Distinct(bs: seq<Box>)
  {
    forall i, j :: 0 <= i < j < |bs| ==> bs[i] != bs[j]
  }

  /** The box createBox makes for a beat: x and y map [0, 1] onto [-2, 2], z is -20, it is
      not hit, and points and start time come from the beat. */
  function Placed(beat: BeatData): (s: BoxState)
    ensures s.position == Vec3(beat.position.x * 4.0 - 2.0, beat.position.y * 4.0 - 2.0, -20.0)
    ensures !s.isHit && s.points == beat.points && s.startTime == beat.time
    ensures s.rotX == 0.0 && s.rotY == 0.0
  {
    BoxState(Vec3(beat.position.x * 4.0 - 2.0, beat.position.y * 4.0 - 2.0, -20.0), 0.0, 0.0,
             beat.points, false, beat.time)
  }

  /** The speed updateBoxes moves a box by when its caller passes none. */
  const DefaultSpeed: real := 0.1

  /** One frame of motion: z grows by speed and both rotations by 0.01. */
  function Moved(s: BoxState, speed: real): BoxState
  {
    s.(position := s.position.(z := s.position.z + speed), rotX := s.rotX + 0.01, rotY := s.rotY + 0.01)
  }

  /** The removal test of updateBoxes. */
  predicate Gone(s: BoxState)
  {
    s.position.z > 5.0 || s.isHit
  }

  /** The boxes that stay, in their order. */
  function Survivors(bs: seq<Box>): (r: seq<Box>)
    reads set b | b in bs
    ensures |r| <= |bs|
  {
    if bs == [] then []
    else (if Gone(bs[0].State()) then [] else [bs[0]]) + Survivors(bs[1..])
  }

  /** A snapshot of the boxes' state. */
  function States(bs: seq<Box>): (r: seq<BoxState>)
    reads set b | b in bs
    ensures |r| == |bs| && forall k :: 0 <= k < |bs| ==> r[k] == bs[k].State()
  {
    if bs == [] then [] else [bs[0].State()] + States(bs[1..])
  }

  /** Which boxes a frame removes: those that pass the test once moved. */
  function Flags(ss: seq<BoxState>, speed: real): (r: seq<bool>)
    ensures |r| == |ss| && forall k :: 0 <= k < |ss| ==> r[k] == Gone(Moved(ss[k], speed))
  {
    if ss == [] then [] else [Gone(Moved(ss[0], speed))] + Flags(ss[1..], speed)
  }

  /** The boxes whose flag is false, in order. */
  function Kept(bs: seq<Box>, gone: seq<bool>): (r: seq<Box>)
    requires |gone| == |bs|
  {
    if bs == [] then [] else (if gone[0] then [] else [bs[0]]) + Kept(bs[1..], gone[1..])
  }

  lemma KeptStep(bs: seq<Box>, gone: seq<bool>, i: int)
    requires |gone| == |bs| && 0 <= i < |bs|
    ensures Kept(bs[i..], gone[i..]) == (if gone[i] then [] else [bs[i]]) + Kept(bs[i + 1..], gone[i + 1..])
  {
    assert bs[i..][1..] == bs[i + 1..];
    assert gone[i..][1..] == gone[i + 1..];
  }

  /** One step of the back-to-front walk: splicing out box i when its flag is set extends
      the filtered tail by one position. */
  lemma SpliceStep(boxes: seq<Box>, bs: seq<Box>, gone: seq<bool>, i: int)
    requires |gone| == |bs| && 0 <= i < |bs|
    requires boxes == bs[..i + 1] + Kept(bs[i + 1..], gone[i + 1..])
    ensures i < |boxes| && boxes[i] == bs[i]
    ensures gone[i] ==> boxes[..i] + boxes[i + 1..] == bs[..i] + Kept(bs[i..], gone[i..])
    ensures !gone[i] ==> boxes == bs[..i] + Kept(bs[i..], gone[i..])
  {
    KeptStep(bs, gone, i);
    assert boxes[..i] == bs[..i];
    assert boxes[i + 1..] == Kept(bs[i + 1..], gone[i + 1..]);
    assert bs[..i + 1] == bs[..i] + [bs[i]];
  }

  /** Filtering by flags computed from the boxes' state is the survivor filter. */
  lemma {:induction false} KeptSurvivors(bs: seq<Box>, gone: seq<bool>)
    requires |gone| == |bs|
    requires forall k :: 0 <= k < |bs| ==> gone[k] == Gone(bs[k].State())
    ensures Kept(bs, gone) == Survivors(bs)
  {
    if bs != [] {
      KeptSurvivors(bs[1..], gone[1..]);
    }
  }

  class GameAnimator {
    var boxes: seq<Box>

    ghost predicate Valid()
      reads this
    {
      Distinct(boxes)
    }

    constructor ()
      ensures Valid() && boxes == []
    {
      boxes := [];
    }

    /** createBox: a fresh box placed for the beat is appended to the boxes. */
    method CreateBox(beat: BeatData) returns (box: Box)
      requires Valid()
      modifies this
      ensures Valid()
      ensures fresh(box) && box.State() == Placed(beat)
      ensures boxes == old(boxes) + [box]
    {
      box := new Box(Placed(beat));
      boxes := boxes + [box];
    }

    /** updateBoxes: walks the boxes from the back, moves and turns each one and splices
        out those that are hit or past z = 5. */
    method UpdateBoxes(speed: real)
      requires Valid()
      modifies this, set b | b in boxes
      ensures Valid()
      ensures forall b :: b in old(boxes) ==> b.State() == Moved(old(b.State()), speed)
      ensures boxes == Survivors(old(boxes))
    {
      ghost var bs := boxes;
      ghost var before := States(bs);
      ghost var gone := Flags(before, speed);
      var i := |boxes| - 1;
      assert bs[..i + 1] == bs && gone[i + 1..] == [];
      while i >= 0
        invariant -1 <= i < |bs|
        invariant Walked(bs, before, gone, speed, i)
      {
        Visit(i, speed, bs, before, gone);
        i := i - 1;
      }
      assert bs[0..] == bs && gone[0..] == gone;
      KeptSurvivors(bs, gone);
      SurvivorsDistinct(bs);
    }

    /** The state of the walk once the boxes after index i are done: those are moved and
        filtered, the others untouched. */
    ghost predicate Walked(bs: seq<Box>, before: seq<BoxState>, gone: seq<bool>, speed: real, i: int)
      reads this, set b | b in bs
    {
      && |before| == |bs| && |gone| == |bs| && -1 <= i < |bs|
      && boxes == bs[..i + 1] + Kept(bs[i + 1..], gone[i + 1..])
      && (forall k :: i < k < |bs| ==> bs[k].State() == Moved(before[k], speed))
      && (forall k :: 0 <= k <= i ==> bs[k].State() == before[k])
    }

    /** The body of the walk at index i: box i moves and turns, and is spliced out when it is
        hit or past z = 5. */
    method Visit(i: int, speed: real, ghost bs: seq<Box>, ghost before: seq<BoxState>, ghost gone: seq<bool>)
      requires 0 <= i && Distinct(bs) && Walked(bs, before, gone, speed, i)
      requires forall k :: 0 <= k < |bs| ==> gone[k] == Gone(Moved(before[k], speed))
      modifies this, bs[i]
      ensures Walked(bs, before, gone, speed, i - 1)
    {
      var box := boxes[i];
      SpliceStep(boxes, bs, gone, i);
      DistinctSplit(bs, i);
      Advance(box, speed);
      if box.position.z > 5.0 || box.isHit {
        boxes := boxes[..i] + boxes[i + 1..];
      }
    }

    /** The body of the loop for one box: it moves toward the camera and turns. */
    static method Advance(box: Box, speed: real)
      modifies box
      ensures box.State() == Moved(old(box.State()), speed)
    {
      box.position := box.position.(z := box.position.z + speed);
      box.rotX := box.rotX + 0.01;
      box.rotY := box.rotY + 0.01;
    }

    /** clear: no box is left. */
    method Clear()
      modifies this
      ensures Valid() && boxes == []
    {
      boxes := [];
    }
  }

  lemma DistinctSplit(bs: seq<Box>, i: int)
    requires Distinct(bs) && 0 <= i < |bs|
    ensures bs[i] !in bs[i + 1..]
  {
  }

  /** A box stays exactly when it does not pass the removal test. */
  lemma {:induction false} SurvivorsMembers(bs: seq<Box>, b: Box)
    ensures b in Survivors(bs) <==> b in bs && !Gone(b.State())
  {
    if bs != [] {
      SurvivorsMembers(bs[1..], b);
      assert b in bs <==> b == bs[0] || b in bs[1..];
    }
  }

  /** No surviving box is hit or beyond z = 5. */
  lemma SurvivorsKept(bs: seq<Box>)
    ensures forall b :: b in Survivors(bs) ==> !b.isHit && b.position.z <= 5.0
  {
    forall b | b in Survivors(bs) ensures !b.isHit && b.position.z <= 5.0 {
      SurvivorsMembers(bs, b);
    }
  }

  /** The filter works piece by piece, so the survivors keep their relative order. */
  lemma {:induction false} SurvivorsAppend(bs: seq<Box>, cs: seq<Box>)
    ensures Survivors(bs + cs) == Survivors(bs) + Survivors(cs)
  {
    if bs != [] {
      assert (bs + cs)[1..] == bs[1..] + cs;
      SurvivorsAppend(bs[1..], cs);
    } else {
      assert bs + cs == cs;
    }
  }

  /** A list without repeats keeps none after the filter. */
  lemma {:induction false} SurvivorsDistinct(bs: seq<Box>)
    requires Distinct(bs)
    ensures Distinct(Survivors(bs))
  {
    if bs != [] {
      SurvivorsDistinct(bs[1..]);
      DistinctSplit(bs, 0);
      SurvivorsMembers(bs[1..], bs[0]);
    }
  }
}
