/** The boxes flying at the player in the 3D scene: spawned far away at random x and y and
    moved towards the camera each frame, a box that passes the camera going back to the far
    plane. js/GameController.js (game_phase_0 and the spawning in build_environment) and
    js/phases/Phase1.js (animate and initialize) do the same; here it is written once.
    `Math.random()` draws are parameters in [0, 1). */
module SceneBoxes {
  import opened Geometry
  import opened HandControls

  /** The two draws a box uses for x and y. */
  datatype Draw = Draw(x: real, y: real)

  predicate IsDraw(d: Draw)
  {
    0.0 <= d.x < 1.0 && 0.0 <= d.y < 1.0
  }

  const FarZ: real := -10.0
  const Speed: real := 0.05
  const PassedZ: real := 2.5
  const BoxCount: nat := 5

  /** A spawned or recycled box position: x = r * 2 - 1, y = r * 0.5 - 0.25, at the far plane. */
  function SpawnPosition(d: Draw): (p: Vec3)
    ensures IsDraw(d) ==> -1.0 <= p.x < 1.0 && -0.25 <= p.y < 0.25
    ensures p.z == FarZ
  {
    Vec3(d.x * 2.0 - 1.0, d.y * 0.5 - 0.25, FarZ)
  }

  /** One frame of a box: 0.05 nearer, and back to the far plane, opaque, when past 2.5. */
  function Advanced(s: ObjState, d: Draw): ObjState
  {
    var z := s.position.z + Speed;
    if z > PassedZ then s.(position := SpawnPosition(d), opacity := 1.0)
    else s.(position := s.position.(z := z))
  }

  /** After a frame no box is past 2.5; a recycled box is at the far plane within the spawn
      ranges and opaque; any other box only moved 0.05 in z. The collision flag is kept. */
  lemma AdvancedProperties(s: ObjState, d: Draw)
    requires IsDraw(d)
    ensures Advanced(s, d).position.z <= PassedZ
    ensures Advanced(s, d).hasCollision == s.hasCollision
    ensures s.position.z + Speed > PassedZ ==>
      && Advanced(s, d).position == SpawnPosition(d) && Advanced(s, d).opacity == 1.0
      && -1.0 <= Advanced(s, d).position.x < 1.0 && -0.25 <= Advanced(s, d).position.y < 0.25
    ensures s.position.z + Speed <= PassedZ ==>
      Advanced(s, d) == s.(position := Vec3(s.position.x, s.position.y, s.position.z + Speed))
  {
  }

  /** A box spawned at the far plane advances 0.05 a frame and is not recycled during its first 250 frames. */
  lemma {:induction false} FramesBeforeRecycle(s: ObjState, ds: seq<Draw>)
    requires s.position.z == FarZ && |ds| <= 250
    ensures AdvancedMany(s, ds).position.z == FarZ + Speed * (|ds| as real)
  {
    if ds != [] {
      FramesBeforeRecycle(s, ds[..|ds| - 1]);
    }
  }

  /** A box after a number of frames, with one draw per frame. */
  function AdvancedMany(s: ObjState, ds: seq<Draw>): ObjState
  {
    if ds == [] then s else Advanced(AdvancedMany(s, ds[..|ds| - 1]), ds[|ds| - 1])
  }

  /** The frame's forEach over the boxes; box k uses draws[k] if it is recycled. */
  method AdvanceAll(boxes: seq<Obj>, draws: seq<Draw>)
    requires Distinct(boxes) && |draws| == |boxes|
    modifies set o | o in boxes
    ensures forall k :: 0 <= k < |boxes| ==> boxes[k].State() == Advanced(old(boxes[k].State()), draws[k])
  {
    ghost var prior := States(boxes);
    for k := 0 to |boxes|
      invariant forall j :: 0 <= j < k ==> boxes[j].State() == Advanced(prior[j], draws[j])
      invariant forall j :: k <= j < |boxes| ==> boxes[j].State() == prior[j]
    {
      AdvanceBox(boxes[k], draws[k]);
    }
  }

  /** The body of the forEach for one box. */
  method AdvanceBox(box: Obj, draw: Draw)
    modifies box
    ensures box.State() == Advanced(old(box.State()), draw)
  {
    box.position := box.position.(z := box.position.z + Speed);
    if box.position.z > PassedZ {
      box.position := box.position.(z := FarZ);
      box.position := box.position.(x := draw.x * 2.0 - 1.0);
      box.position := box.position.(y := draw.y * 0.5 - 0.25);
      box.opacity := 1.0;
    }
  }

  /** The spawning loop: five new boxes at the far plane, one draw each for x and y. */
  method SpawnBoxes(draws: seq<Draw>) returns (boxes: seq<Obj>)
    requires |draws| == BoxCount
    ensures |boxes| == BoxCount && Distinct(boxes) && forall k :: 0 <= k < BoxCount ==> fresh(boxes[k])
    ensures forall k :: 0 <= k < BoxCount ==> boxes[k].position == SpawnPosition(draws[k]) && !boxes[k].hasCollision
  {
    boxes := [];
    for i := 0 to BoxCount
      invariant |boxes| == i && Distinct(boxes) && forall k :: 0 <= k < i ==> fresh(boxes[k])
      invariant forall k :: 0 <= k < i ==> boxes[k].position == SpawnPosition(draws[k]) && !boxes[k].hasCollision
    {
      var box := new Obj(Vec3(draws[i].x * 2.0 - 1.0, draws[i].y * 0.5 - 0.25, FarZ));
      boxes := boxes + [box];
    }
  }

  /** The game controller's state the boxes and the cursor feedback depend on. */
  class GameController {
    var gameStart: bool
    var phase: int
    var objects: seq<Obj>
    var cursorOpacity: real

    /** The objects are distinct boxes. */
    ghost predicate Valid()
      reads this
    {
      Distinct(objects)
    }

    constructor ()
      ensures Valid() && !gameStart && phase == 0 && objects == [] && cursorOpacity == 1.0
    {
      gameStart := false;
      phase := 0;
      objects := [];
      cursorOpacity := 1.0;
    }

    /** build_environment: the five boxes become the objects. */
    method BuildEnvironment(draws: seq<Draw>)
      requires |draws| == BoxCount
      modifies this
      ensures Valid() && |objects| == BoxCount
      ensures forall k :: 0 <= k < BoxCount ==> fresh(objects[k]) && objects[k].position == SpawnPosition(draws[k])
      ensures gameStart == old(gameStart) && phase == old(phase)
    {
      objects := SpawnBoxes(draws);
    }

    /** The "gameStart" toggle. */
    method SetGameStart(value: bool)
      modifies this
      ensures gameStart == value && phase == old(phase) && objects == old(objects)
    {
      gameStart := value;
    }

    /** The collision listener: a translucent cursor on "on", an opaque one otherwise. */
    method OnCollision(state: string)
      modifies this
      ensures cursorOpacity == (if state == "on" then 0.4 else 1.0)
      ensures gameStart == old(gameStart) && phase == old(phase) && objects == old(objects)
    {
      cursorOpacity := if state == "on" then 0.4 else 1.0;
    }

    /** animate: the boxes move only while the game is started and in phase 0. */
    method Animate(draws: seq<Draw>)
      requires Valid() && |draws| == |objects|
      modifies set o | o in objects
      ensures gameStart && phase == 0 ==>
        forall k :: 0 <= k < |objects| ==> objects[k].State() == Advanced(old(objects[k].State()), draws[k])
      ensures !(gameStart && phase == 0) ==> forall k :: 0 <= k < |objects| ==> objects[k].State() == old(objects[k].State())
    {
      if gameStart {
        match phase {
          case 0 => GamePhase0(draws);
          case _ =>
        }
      }
    }

    /** game_phase_0. */
    method GamePhase0(draws: seq<Draw>)
      requires Valid() && |draws| == |objects|
      modifies set o | o in objects
      ensures forall k :: 0 <= k < |objects| ==> objects[k].State() == Advanced(old(objects[k].State()), draws[k])
    {
      AdvanceAll(objects, draws);
    }
  }

  /** Phase 1 of the game: its own boxes added to the controller's objects, moved the same way. */
  class Phase1 {
    const gameController: GameController

    /** The constructor runs initialize. */
    constructor (gameController: GameController, draws: seq<Draw>)
      requires gameController.Valid() && |draws| == BoxCount
      modifies gameController
      ensures this.gameController == gameController && gameController.Valid()
      ensures |gameController.objects| == |old(gameController.objects)| + BoxCount
      ensures gameController.objects[..|old(gameController.objects)|] == old(gameController.objects)
      ensures forall k :: 0 <= k < BoxCount ==> gameController.objects[|old(gameController.objects)| + k].position == SpawnPosition(draws[k])
    {
      this.gameController := gameController;
      new;
      Initialize(draws);
    }

    /** initialize: five new boxes pushed onto the controller's objects. The screen,
        cursor-feedback and collision set-up calls it makes first are taken to leave the
        objects as they are. */
    method Initialize(draws: seq<Draw>)
      requires gameController.Valid() && |draws| == BoxCount
      modifies gameController
      ensures gameController.Valid()
      ensures |gameController.objects| == |old(gameController.objects)| + BoxCount
      ensures gameController.objects[..|old(gameController.objects)|] == old(gameController.objects)
      ensures forall k :: 0 <= k < BoxCount ==>
        fresh(gameController.objects[|old(gameController.objects)| + k])
        && gameController.objects[|old(gameController.objects)| + k].position == SpawnPosition(draws[k])
      ensures gameController.gameStart == old(gameController.gameStart) && gameController.phase == old(gameController.phase)
    {
      var boxes := SpawnBoxes(draws);
      var before := gameController.objects;
      gameController.objects := before + boxes;
      forall i, j | 0 <= i < j < |before + boxes|
        ensures (before + boxes)[i] != (before + boxes)[j]
      {
        if i < |before| && j >= |before| {
          assert (before + boxes)[j] == boxes[j - |before|];
        }
      }
    }

    /** animate: every box of the controller moves one frame. */
    method Animate(draws: seq<Draw>)
      requires gameController.Valid() && |draws| == |gameController.objects|
      modifies set o | o in gameController.objects
      ensures forall k :: 0 <= k < |gameController.objects| ==>
        gameController.objects[k].State() == Advanced(old(gameController.objects[k].State()), draws[k])
    {
      AdvanceAll(gameController.objects, draws);
    }
  }
}
