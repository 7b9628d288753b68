/** The hand cursor of the 3D scene (js/HandControls.js): per update, the fist test and the
    cursor position from one tracked hand and the gesture events; per frame, the collision,
    selection and drag pass over the scene objects. Box intersection is given per object, the
    on-screen depth distance is given per update, and square roots are a parameter. */
module HandControls {
  import opened Geometry

  datatype Option<T> = None | Some(value: T)

  /** A MediaPipe landmark in normalised image coordinates. */
  datatype Landmark = Landmark(x: real, y: real, z: real)

  /** A scene object as the pass sees it: the collision flag, the material opacity and the position. */
  class Obj {
    var hasCollision: bool
    var opacity: real
    var position: Vec3

    constructor (position: Vec3)
      ensures this.position == position && opacity == 1.0 && !hasCollision
    {
      this.position := position;
      opacity := 1.0;
      hasCollision := false;
    }

    function State(): ObjState
      reads this
    {
      ObjState(hasCollision, opacity, position)
    }
  }

  datatype ObjState = ObjState(hasCollision: bool, opacity: real, position: Vec3)

  /** The events dispatched to the listeners, in order. */
  datatype Event =
    | ClosedFistEvent
    | OpenedFistEvent
    | DragEnd(dragged: Option<Obj>)
    | DragStart(obj: Obj)
    | CollisionOn(obj: Obj)
    | CollisionOff

  const FistThreshold: real := 0.35
  const Grab: real := 0.3

  /** A landmark mirrored into the scene: (-x + 0.5, -y + 0.5, -z) scaled by 4. */
  function ToScene(l: Landmark): Vec3
  {
    Vec3((-l.x + 0.5) * 4.0, (-l.y + 0.5) * 4.0, -l.z * 4.0)
  }

  /** The fist is closed when joint 12 (middle fingertip) is within 0.35 of joint 9 (its
      knuckle) in the scene: the root of the squared distance compared with 0.35. */
  function IsClosedFist(sqrt: real -> real, from: Vec3, to: Vec3): bool
  {
    sqrt(SquaredDistance(from, to)) < FistThreshold
  }

  /** The fist test needs no root: the squared distance is below 0.35 * 0.35. */
  lemma ClosedFistSquared(sqrt: real -> real, from: Vec3, to: Vec3)
    requires IsSqrt(sqrt)
    ensures IsClosedFist(sqrt, from, to) <==> SquaredDistance(from, to) < 0.1225
  {
    SqrtLess(sqrt, SquaredDistance(from, to), FistThreshold);
  }

  /** The fist test reads only joints 9 and 12: whenever the two landmarks lie within 0.05
      of each other on every axis of the camera's normalised coordinates, they are within
      0.2 on every scene axis and the fist is closed. */
  lemma ClosedFistNear(sqrt: real -> real, hand: seq<Landmark>)
    requires IsSqrt(sqrt) && |hand| > 12
    requires -0.05 < hand[9].x - hand[12].x < 0.05
    requires -0.05 < hand[9].y - hand[12].y < 0.05
    requires -0.05 < hand[9].z - hand[12].z < 0.05
    ensures IsClosedFist(sqrt, ToScene(hand[9]), ToScene(hand[12]))
  {
    var a, b := ToScene(hand[9]), ToScene(hand[12]);
    SquareBelow(a.x - b.x);
    SquareBelow(a.y - b.y);
    SquareBelow(a.z - b.z);
    assert SquaredDistance(a, b) < 0.12;
    ClosedFistSquared(sqrt, a, b);
  }

  lemma SquareBelow(d: real)
    requires -0.2 < d < 0.2
    ensures d * d < 0.04
  {
    if d >= 0.0 {
      MulLeq(d, 0.2, d);
      MulLess(d, 0.2, 0.2);
    } else {
      MulLeq(-d, 0.2, -d);
      MulLess(-d, 0.2, 0.2);
    }
  }

  /** THREE.MathUtils.mapLinear: x moved from the range [a1, a2] to the range [b1, b2]. */
  function MapLinear(x: real, a1: real, a2: real, b1: real, b2: real): real
    requires a1 != a2
  {
    b1 + (x - a1) * (b2 - b1) / (a2 - a1)
  }

  /** mapLinear maps the ends of the first range to the ends of the second. */
  lemma MapLinearEnds(a1: real, a2: real, b1: real, b2: real)
    requires a1 != a2
    ensures MapLinear(a1, a1, a2, b1, b2) == b1 && MapLinear(a2, a1, a2, b1, b2) == b2
  {
  }

  /** The cursor depth: the on-screen distance mapped from [0, 1000] to [-3, 5], clamped to [-2, 4]. */
  function DepthZ(depthDistance: real): (z: real)
    ensures -2.0 <= z <= 4.0
  {
    Clamp(MapLinear(depthDistance, 0.0, 1000.0, -3.0, 5.0), -2.0, 4.0)
  }

  /** Distances up to 125 give the nearest depth -2, from 875 the farthest 4, linear between. */
  lemma DepthZCases(d: real)
    ensures d <= 125.0 ==> DepthZ(d) == -2.0
    ensures d >= 875.0 ==> DepthZ(d) == 4.0
    ensures 125.0 <= d <= 875.0 ==> DepthZ(d) == -3.0 + d / 125.0
  {
    assert MapLinear(d, 0.0, 1000.0, -3.0, 5.0) == -3.0 + d / 125.0;
  }

  /** A larger on-screen distance never brings the cursor nearer. */
  lemma DepthZMonotone(d1: real, d2: real)
    requires d1 <= d2
    ensures DepthZ(d1) <= DepthZ(d2)
  {
    assert MapLinear(d1, 0.0, 1000.0, -3.0, 5.0) == -3.0 + d1 / 125.0;
    assert MapLinear(d2, 0.0, 1000.0, -3.0, 5.0) == -3.0 + d2 / 125.0;
  }

  /** The events of handleGestureEvents. As written, a closed fist dispatches "opened_fist"
      and an open one "closed_fist" followed by "drag_end" of the selected object. */
  function GestureEvents(closedFist: bool, selected: Option<Obj>): (es: seq<Event>)
    ensures |es| >= 1
    ensures closedFist <==> es == [OpenedFistEvent]
    ensures !closedFist <==> es[0] == ClosedFistEvent
  {
    if !closedFist then [ClosedFistEvent, DragEnd(selected)] else [OpenedFistEvent]
  }

  // ---------------------------------------------------------------------------
  // The pass of animate over the objects

  /** The selected object after the first objects of the pass, from `sel` before it; `grab`
      stands for `closedFist && isDraggable`. */
  function SelectedAfter(objs: seq<Obj>, hits: seq<bool>, sel: Option<Obj>, grab: bool): Option<Obj>
    requires |hits| == |objs|
  {
    if objs == [] then sel
    else
      var before := SelectedAfter(objs[..|objs| - 1], hits[..|hits| - 1], sel, grab);
      if hits[|hits| - 1] && grab && before.None? then Some(objs[|objs| - 1]) else before
  }

  /** The events of one object, given the selected object before it. */
  function StepEvents(o: Obj, hit: bool, before: Option<Obj>, grab: bool): seq<Event>
  {
    if hit then (if grab && before.None? then [DragStart(o)] else []) + [CollisionOn(o)]
    else if before.None? then [CollisionOff]
    else []
  }

  function PassEvents(objs: seq<Obj>, hits: seq<bool>, sel: Option<Obj>, grab: bool): seq<Event>
    requires |hits| == |objs|
  {
    if objs == [] then []
    else
      var init, initHits := objs[..|objs| - 1], hits[..|hits| - 1];
      PassEvents(init, initHits, sel, grab) + StepEvents(objs[|objs| - 1], hits[|hits| - 1], SelectedAfter(init, initHits, sel, grab), grab)
  }

  /** The index of the first intersecting object, if any. */
  function FirstHit(hits: seq<bool>): (r: Option<nat>)
    ensures r.Some? ==> r.value < |hits| && hits[r.value] && forall k :: 0 <= k < r.value ==> !hits[k]
    ensures r.None? ==> forall k :: 0 <= k < |hits| ==> !hits[k]
  {
    if hits == [] then None
    else if hits[0] then Some(0)
    else var r := FirstHit(hits[1..]); if r.Some? then Some(r.value + 1) else None
  }

  /** A pass selects only with a closed fist, dragging allowed and nothing selected, and then
      the first intersecting object in array order. */
  lemma {:induction false} SelectedFirstHit(objs: seq<Obj>, hits: seq<bool>, sel: Option<Obj>, grab: bool)
    requires |hits| == |objs|
    ensures SelectedAfter(objs, hits, sel, grab) ==
      if sel.Some? || !grab || FirstHit(hits).None? then sel else Some(objs[FirstHit(hits).value])
  {
    if objs != [] {
      var init, initHits := objs[..|objs| - 1], hits[..|hits| - 1];
      SelectedFirstHit(init, initHits, sel, grab);
      var f, g := FirstHit(initHits), FirstHit(hits);
      if f.Some? {
        assert g == f;
      } else if hits[|hits| - 1] {
        assert g == Some(|hits| - 1);
      } else {
        assert g.None?;
      }
    }
  }

  /** The objects a list of events reports a collision with, in order. */
  function Ons(es: seq<Event>): seq<Obj>
  {
    if es == [] then [] else Ons(es[..|es| - 1]) + (if es[|es| - 1].CollisionOn? then [es[|es| - 1].obj] else [])
  }

  /** The objects a list of events starts dragging, in order. */
  function DragStarts(es: seq<Event>): seq<Obj>
  {
    if es == [] then [] else DragStarts(es[..|es| - 1]) + (if es[|es| - 1].DragStart? then [es[|es| - 1].obj] else [])
  }

  /** The number of "collision off" events. */
  function Offs(es: seq<Event>): nat
  {
    if es == [] then 0 else Offs(es[..|es| - 1]) + (if es[|es| - 1] == CollisionOff then 1 else 0)
  }

  lemma {:induction false} EventsAppend(a: seq<Event>, b: seq<Event>)
    ensures Ons(a + b) == Ons(a) + Ons(b)
    ensures DragStarts(a + b) == DragStarts(a) + DragStarts(b)
    ensures Offs(a + b) == Offs(a) + Offs(b)
    decreases |b|
  {
    if b != [] {
      assert (a + b)[..|a + b| - 1] == a + b[..|b| - 1];
      assert (a + b)[|a + b| - 1] == b[|b| - 1];
      EventsAppend(a, b[..|b| - 1]);
    } else {
      assert a + b == a;
    }
  }

  /** The intersecting objects, in order. */
  function Hits(objs: seq<Obj>, hits: seq<bool>): seq<Obj>
    requires |hits| == |objs|
  {
    if objs == [] then [] else Hits(objs[..|objs| - 1], hits[..|hits| - 1]) + (if hits[|hits| - 1] then [objs[|objs| - 1]] else [])
  }

  /** The number of objects that do not intersect the cursor. */
  function Misses(hits: seq<bool>): nat
  {
    if hits == [] then 0 else Misses(hits[..|hits| - 1]) + (if hits[|hits| - 1] then 0 else 1)
  }

  /** One "collision on" per intersecting object, in array order; at most one "drag start",
      for the selected object; and no "collision off" once something is selected. */
  lemma PassEventsCounts(objs: seq<Obj>, hits: seq<bool>, sel: Option<Obj>, grab: bool)
    requires |hits| == |objs|
    ensures Ons(PassEvents(objs, hits, sel, grab)) == Hits(objs, hits)
    ensures DragStarts(PassEvents(objs, hits, sel, grab)) ==
      if sel.None? && SelectedAfter(objs, hits, sel, grab).Some? then [SelectedAfter(objs, hits, sel, grab).value] else []
    ensures sel.Some? ==> Offs(PassEvents(objs, hits, sel, grab)) == 0
    ensures sel.None? && !grab ==> Offs(PassEvents(objs, hits, sel, grab)) == Misses(hits)
  {
    PassEventsOns(objs, hits, sel, grab);
    PassEventsDragStarts(objs, hits, sel, grab);
    PassEventsOffs(objs, hits, sel, grab);
  }

  lemma {:induction false} PassEventsOns(objs: seq<Obj>, hits: seq<bool>, sel: Option<Obj>, grab: bool)
    requires |hits| == |objs|
    ensures Ons(PassEvents(objs, hits, sel, grab)) == Hits(objs, hits)
  {
    if objs != [] {
      var init, initHits := objs[..|objs| - 1], hits[..|hits| - 1];
      PassEventsOns(init, initHits, sel, grab);
      var before := SelectedAfter(init, initHits, sel, grab);
      var o, hit := objs[|objs| - 1], hits[|hits| - 1];
      var earlier, step := PassEvents(init, initHits, sel, grab), StepEvents(o, hit, before, grab);
      assert PassEvents(objs, hits, sel, grab) == earlier + step;
      EventsAppend(earlier, step);
      StepCounts(o, hit, before, grab);
    }
  }

  lemma {:induction false} PassEventsDragStarts(objs: seq<Obj>, hits: seq<bool>, sel: Option<Obj>, grab: bool)
    requires |hits| == |objs|
    ensures DragStarts(PassEvents(objs, hits, sel, grab)) ==
      if sel.None? && SelectedAfter(objs, hits, sel, grab).Some? then [SelectedAfter(objs, hits, sel, grab).value] else []
  {
    if objs != [] {
      var init, initHits := objs[..|objs| - 1], hits[..|hits| - 1];
      PassEventsDragStarts(init, initHits, sel, grab);
      var before := SelectedAfter(init, initHits, sel, grab);
      var o, hit := objs[|objs| - 1], hits[|hits| - 1];
      var earlier, step := PassEvents(init, initHits, sel, grab), StepEvents(o, hit, before, grab);
      assert PassEvents(objs, hits, sel, grab) == earlier + step;
      assert SelectedAfter(objs, hits, sel, grab) == if hit && grab && before.None? then Some(o) else before;
      EventsAppend(earlier, step);
      StepCounts(o, hit, before, grab);
      SelectedKept(init, initHits, sel, grab);
    }
  }

  lemma {:induction false} PassEventsOffs(objs: seq<Obj>, hits: seq<bool>, sel: Option<Obj>, grab: bool)
    requires |hits| == |objs|
    ensures sel.Some? ==> Offs(PassEvents(objs, hits, sel, grab)) == 0
    ensures sel.None? && !grab ==> Offs(PassEvents(objs, hits, sel, grab)) == Misses(hits)
  {
    if objs != [] {
      var init, initHits := objs[..|objs| - 1], hits[..|hits| - 1];
      PassEventsOffs(init, initHits, sel, grab);
      var before := SelectedAfter(init, initHits, sel, grab);
      var o, hit := objs[|objs| - 1], hits[|hits| - 1];
      var earlier, step := PassEvents(init, initHits, sel, grab), StepEvents(o, hit, before, grab);
      assert PassEvents(objs, hits, sel, grab) == earlier + step;
      assert Misses(hits) == Misses(initHits) + (if hit then 0 else 1);
      EventsAppend(earlier, step);
      StepCounts(o, hit, before, grab);
      SelectedKept(init, initHits, sel, grab);
    }
  }

  lemma StepCounts(o: Obj, hit: bool, before: Option<Obj>, grab: bool)
    ensures Ons(StepEvents(o, hit, before, grab)) == if hit then [o] else []
    ensures DragStarts(StepEvents(o, hit, before, grab)) == if hit && grab && before.None? then [o] else []
    ensures Offs(StepEvents(o, hit, before, grab)) == if !hit && before.None? then 1 else 0
  {
    EventSingle(CollisionOn(o));
    EventSingle(CollisionOff);
    if hit && grab && before.None? {
      EventSingle(DragStart(o));
      EventsAppend([DragStart(o)], [CollisionOn(o)]);
    }
  }

  lemma EventSingle(e: Event)
    ensures Ons([e]) == (if e.CollisionOn? then [e.obj] else [])
    ensures DragStarts([e]) == (if e.DragStart? then [e.obj] else [])
    ensures Offs([e]) == if e == CollisionOff then 1 else 0
  {
    assert [e][..0] == [];
  }

  /** One more object extends the events of the pass by the events of that object. */
  lemma PassEventsStep(objs: seq<Obj>, hits: seq<bool>, k: nat, sel: Option<Obj>, grab: bool)
    requires |hits| == |objs| && k < |objs|
    ensures PassEvents(objs[..k + 1], hits[..k + 1], sel, grab) ==
      PassEvents(objs[..k], hits[..k], sel, grab) + StepEvents(objs[k], hits[k], SelectedAfter(objs[..k], hits[..k], sel, grab), grab)
    ensures SelectedAfter(objs[..k + 1], hits[..k + 1], sel, grab) ==
      if hits[k] && grab && SelectedAfter(objs[..k], hits[..k], sel, grab).None? then Some(objs[k]) else SelectedAfter(objs[..k], hits[..k], sel, grab)
  {
    assert objs[..k + 1][..k] == objs[..k] && hits[..k + 1][..k] == hits[..k];
  }

  /** A selected object stays selected for the rest of the pass, and without `grab` nothing is selected. */
  lemma {:induction false} SelectedKept(objs: seq<Obj>, hits: seq<bool>, sel: Option<Obj>, grab: bool)
    requires |hits| == |objs|
    ensures sel.Some? ==> SelectedAfter(objs, hits, sel, grab) == sel
    ensures !grab ==> SelectedAfter(objs, hits, sel, grab) == sel
  {
    if objs != [] {
      SelectedKept(objs[..|objs| - 1], hits[..|hits| - 1], sel, grab);
    }
  }

  /** An object's state after the pass: opacity 0.4 and the collision flag set when it
      intersects, opacity 1 otherwise; the flag is never cleared. */
  function Touched(s: ObjState, hit: bool): (t: ObjState)
    ensures t.position == s.position && (t.hasCollision <==> s.hasCollision || hit)
    ensures t.opacity == if hit then 0.4 else 1.0
  {
    if hit then s.(hasCollision := true, opacity := 0.4) else s.(opacity := 1.0)
  }

  ghost predicate Distinct(objs: seq<Obj>)
  {
    forall i, j :: 0 <= i < j < |objs| ==> objs[i] != objs[j]
  }

  function States(objs: seq<Obj>): (r: seq<ObjState>)
    reads set o | o in objs
    ensures |r| == |objs| && forall k :: 0 <= k < |objs| ==> r[k] == objs[k].State()
  {
    if objs == [] then [] else [objs[0].State()] + States(objs[1..])
  }

  /** The first k objects are touched and the rest keep their states from `prior`. */
  ghost predicate Visited(objs: seq<Obj>, hits: seq<bool>, prior: seq<ObjState>, k: int)
    reads set o | o in objs
  {
    VisitedStates(States(objs), hits, prior, k)
  }

  ghost predicate VisitedStates(states: seq<ObjState>, hits: seq<bool>, prior: seq<ObjState>, k: int)
  {
    && |hits| == |states| == |prior| && 0 <= k <= |states|
    && (forall j :: 0 <= j < k ==> states[j] == Touched(prior[j], hits[j]))
    && (forall j :: k <= j < |states| ==> states[j] == prior[j])
  }

  /** Touching object k moves the visited boundary past it. */
  lemma VisitedStep(states: seq<ObjState>, hits: seq<bool>, prior: seq<ObjState>, k: nat)
    requires VisitedStates(states, hits, prior, k) && k < |states|
    ensures VisitedStates(states[k := Touched(prior[k], hits[k])], hits, prior, k + 1)
  {
  }

  /** The pass has visited the first k objects: their states are touched, and the selection
      and the events are what the pass reaches there. */
  ghost predicate PassReached(objs: seq<Obj>, hits: seq<bool>, prior: seq<ObjState>, sel0: Option<Obj>, events0: seq<Event>,
                              grab: bool, k: int, states: seq<ObjState>, sel: Option<Obj>, events: seq<Event>)
  {
    && |objs| == |states| && VisitedStates(states, hits, prior, k)
    && sel == SelectedAfter(objs[..k], hits[..k], sel0, grab)
    && events == events0 + PassEvents(objs[..k], hits[..k], sel0, grab)
  }

  lemma PassStep(objs: seq<Obj>, hits: seq<bool>, prior: seq<ObjState>, sel0: Option<Obj>, events0: seq<Event>,
                 grab: bool, k: nat, states: seq<ObjState>, sel: Option<Obj>, events: seq<Event>)
    requires PassReached(objs, hits, prior, sel0, events0, grab, k, states, sel, events) && k < |objs|
    ensures PassReached(objs, hits, prior, sel0, events0, grab, k + 1, states[k := Touched(prior[k], hits[k])],
                        if hits[k] && grab && sel.None? then Some(objs[k]) else sel,
                        events + StepEvents(objs[k], hits[k], sel, grab))
  {
    PassEventsStep(objs, hits, k, sel0, grab);
    VisitedStep(states, hits, prior, k);
    ConcatAssoc(events0, PassEvents(objs[..k], hits[..k], sel0, grab), StepEvents(objs[k], hits[k], sel, grab));
  }

  // ---------------------------------------------------------------------------
  // The controls

  /** Whether the controls let a closed fist drag an object when their creator does not say. */
  const DefaultDraggable: bool := false

  class Controls {
    const target: Obj
    const objects: seq<Obj>
    const isDraggable: bool
    var closedFist: bool
    var selected: Option<Obj>
    var depthZ: real
    var depthFrom: Vec3
    var depthTo: Vec3
    var from: Vec3
    var to: Vec3
    var events: seq<Event>

    /** The cursor is not a scene object, the objects are distinct, and a selected object is one of them. */
    ghost predicate Valid()
      reads this
    {
      && target !in objects && Distinct(objects)
      && (selected.Some? ==> selected.value in objects)
    }

    /** The constructor clears every object's collision flag. */
    constructor (target: Obj, objects: seq<Obj>, isDraggable: bool)
      requires target !in objects && Distinct(objects)
      modifies set o | o in objects
      ensures Valid()
      ensures this.target == target && this.objects == objects && this.isDraggable == isDraggable
      ensures selected == None && events == []
      ensures forall k :: 0 <= k < |objects| ==> !objects[k].hasCollision
    {
      this.target := target;
      this.objects := objects;
      this.isDraggable := isDraggable;
      closedFist := false;
      selected := None;
      depthZ := 0.0;
      depthFrom, depthTo, from, to := Vec3(0.0, 0.0, 0.0), Vec3(0.0, 0.0, 0.0), Vec3(0.0, 0.0, 0.0), Vec3(0.0, 0.0, 0.0);
      events := [];
      new;
      for k := 0 to |objects|
        invariant Valid() && selected == None && events == []
        invariant forall j :: 0 <= j < k ==> !objects[j].hasCollision
      {
        objects[k].hasCollision := false;
      }
    }

    /** update: only with exactly one tracked hand, the gesture points, the fist test, the
        cursor position and the gesture events. `depthDistance` is the on-screen distance
        between the projected wrist (joint 0) and joint 10. */
    method Update(hands: seq<seq<Landmark>>, depthDistance: real, sqrt: real -> real)
      requires Valid() && (|hands| == 1 ==> |hands[0]| > 12)
      modifies this, target
      ensures Valid()
      ensures |hands| != 1 ==> events == old(events) && selected == old(selected) && closedFist == old(closedFist)
      ensures |hands| != 1 ==> depthZ == old(depthZ) && target.position == old(target.position)
      ensures |hands| == 1 ==>
        && from == ToScene(hands[0][9]) && to == ToScene(hands[0][12])
        && depthFrom == ToScene(hands[0][0]) && depthTo == ToScene(hands[0][10])
        && closedFist == IsClosedFist(sqrt, from, to)
        && depthZ == DepthZ(depthDistance)
        && target.position == Vec3(from.x, from.y, -depthZ)
        && events == old(events) + GestureEvents(closedFist, old(selected))
        && selected == (if closedFist then None else old(selected))
      ensures target.hasCollision == old(target.hasCollision) && target.opacity == old(target.opacity)
    {
      if |hands| == 1 {
        CalculateGestures(hands[0]);
        var pointsDist := sqrt(SquaredDistance(from, to));
        closedFist := pointsDist < FistThreshold;
        UpdateTargetPosition(depthDistance);
        HandleGestureEvents();
      }
    }

    method CalculateGestures(hand: seq<Landmark>)
      requires |hand| > 12
      modifies this
      ensures depthFrom == ToScene(hand[0]) && depthTo == ToScene(hand[10])
      ensures from == ToScene(hand[9]) && to == ToScene(hand[12])
      ensures closedFist == old(closedFist) && selected == old(selected) && events == old(events) && depthZ == old(depthZ)
    {
      depthFrom := ToScene(hand[0]);
      depthTo := ToScene(hand[10]);
      from := ToScene(hand[9]);
      to := ToScene(hand[12]);
    }

    /** updateTargetPosition: the cursor goes to the knuckle's x and y at depth -depthZ. */
    method UpdateTargetPosition(depthDistance: real)
      modifies this, target
      ensures depthZ == DepthZ(depthDistance) && -4.0 <= target.position.z <= 2.0
      ensures target.position == Vec3(from.x, from.y, -depthZ)
      ensures from == old(from) && to == old(to) && depthFrom == old(depthFrom) && depthTo == old(depthTo)
      ensures closedFist == old(closedFist) && selected == old(selected) && events == old(events)
      ensures target.hasCollision == old(target.hasCollision) && target.opacity == old(target.opacity)
    {
      depthZ := Clamp(MapLinear(depthDistance, 0.0, 1000.0, -3.0, 5.0), -2.0, 4.0);
      target.position := Vec3(from.x, from.y, -depthZ);
    }

    /** handleGestureEvents: dispatched on every update, not only when the fist changes. */
    method HandleGestureEvents()
      modifies this
      ensures events == old(events) + GestureEvents(closedFist, old(selected))
      ensures selected == if closedFist then None else old(selected)
      ensures closedFist == old(closedFist) && depthZ == old(depthZ)
      ensures from == old(from) && to == old(to) && depthFrom == old(depthFrom) && depthTo == old(depthTo)
    {
      if !closedFist {
        events := events + [ClosedFistEvent];
        events := events + [DragEnd(selected)];
      } else {
        selected := None;
        events := events + [OpenedFistEvent];
      }
    }

    /** animate: `hits[k]` is whether the cursor's box intersects the box of object k. */
    method Animate(hits: seq<bool>)
      requires Valid() && |hits| == |objects|
      modifies this, set o | o in objects
      ensures Valid()
      ensures selected == SelectedAfter(objects, hits, old(selected), closedFist && isDraggable)
      ensures events == old(events) + PassEvents(objects, hits, old(selected), closedFist && isDraggable)
      ensures forall k :: 0 <= k < |objects| ==>
        objects[k].State() == Touched(old(objects[k].State()), hits[k]).(position :=
          if selected == Some(objects[k]) && closedFist && isDraggable
          then Lerp(old(objects[k].position), target.position, Grab) else old(objects[k].position))
      ensures closedFist == old(closedFist) && depthZ == old(depthZ)
    {
      ghost var prior := States(objects);
      VisitAll(hits, prior);
      ghost var touched := States(objects);
      DragSelected(touched);
    }

    /** The forEach over the objects. */
    method VisitAll(hits: seq<bool>, ghost prior: seq<ObjState>)
      requires Valid() && |hits| == |objects| && prior == States(objects)
      modifies this, set o | o in objects
      ensures Valid() && closedFist == old(closedFist) && depthZ == old(depthZ)
      ensures selected == SelectedAfter(objects, hits, old(selected), closedFist && isDraggable)
      ensures events == old(events) + PassEvents(objects, hits, old(selected), closedFist && isDraggable)
      ensures forall k :: 0 <= k < |objects| ==> objects[k].State() == Touched(prior[k], hits[k])
    {
      ghost var sel0, events0 := selected, events;
      for k := 0 to |objects|
        invariant Valid() && closedFist == old(closedFist) && depthZ == old(depthZ)
        invariant Progress(hits, prior, sel0, events0, k)
      {
        Visit(k, hits, prior, sel0, events0);
      }
      assert objects[..|objects|] == objects && hits[..|hits|] == hits;
    }

    /** The first k objects are visited, with the selection and the events the pass reaches there. */
    ghost predicate Progress(hits: seq<bool>, prior: seq<ObjState>, sel0: Option<Obj>, events0: seq<Event>, k: int)
      reads this, set o | o in objects
    {
      PassReached(objects, hits, prior, sel0, events0, closedFist && isDraggable, k, States(objects), selected, events)
    }

    /** The drag: with a closed fist and dragging allowed, the selected object moves 30% of
        the way to the cursor. */
    method DragSelected(ghost touched: seq<ObjState>)
      requires Valid() && touched == States(objects)
      modifies if selected.Some? then {selected.value} else {}
      ensures forall k :: 0 <= k < |objects| ==>
        objects[k].State() == touched[k].(position :=
          if selected == Some(objects[k]) && closedFist && isDraggable
          then Lerp(touched[k].position, target.position, Grab) else touched[k].position)
    {
      if selected.Some? && closedFist && isDraggable {
        selected.value.position := Lerp(selected.value.position, target.position, Grab);
      }
    }

    /** The body of the forEach for object k. */
    method Visit(k: nat, hits: seq<bool>, ghost prior: seq<ObjState>, ghost sel0: Option<Obj>, ghost events0: seq<Event>)
      requires Valid() && k < |objects| && Progress(hits, prior, sel0, events0, k)
      modifies this, objects[k]
      ensures Valid() && closedFist == old(closedFist) && depthZ == old(depthZ)
      ensures Progress(hits, prior, sel0, events0, k + 1)
    {
      ghost var states, sel, ev := States(objects), selected, events;
      var obj := objects[k];
      if hits[k] {
        obj.hasCollision := true;
        Dispatch(obj, true);
        obj.opacity := 0.4;
      } else {
        obj.opacity := 1.0;
        Dispatch(obj, false);
      }
      PassStep(objects, hits, prior, sel0, events0, closedFist && isDraggable, k, states, sel, ev);
      ghost var now := States(objects);
      assert states[k] == prior[k] && obj.State() == Touched(prior[k], hits[k]);
      forall j | 0 <= j < |objects|
        ensures now[j] == states[k := Touched(prior[k], hits[k])][j]
      {
        if j != k {
          assert objects[j] != obj;
          assert objects[j].State() == old(objects[j].State());
        }
      }
      assert now == states[k := Touched(prior[k], hits[k])];
    }

    /** The selection and the events of one object of the pass. */
    method Dispatch(obj: Obj, hit: bool)
      modifies this
      ensures selected == if hit && closedFist && isDraggable && old(selected).None? then Some(obj) else old(selected)
      ensures events == old(events) + StepEvents(obj, hit, old(selected), closedFist && isDraggable)
      ensures closedFist == old(closedFist) && depthZ == old(depthZ)
    {
      if hit {
        if closedFist && selected.None? && isDraggable {
          selected := Some(obj);
          events := events + [DragStart(obj)];
        }
        events := events + [CollisionOn(obj)];
      } else {
        if selected.None? {
          events := events + [CollisionOff];
        }
      }
    }
  }
}
