/** The option menu of the hand-controlled 3D scene (3D_control/js/phases/SelectionMenu.js):
    per-hand collision bookkeeping, the diff against the previous frame, the selection of a
    game phase by closing the fist over an option box, the selection text sprite, and the
    greedy word wrap of the option labels. */
module SelectionMenu {
  import opened Text
  import Geometry

  datatype Option<T> = None | Some(value: T)

  /** A scene object: an option box or label (objectId set) or a text sprite (objectId undefined). */
  class SceneObject {
    const objectId: Option<int>
    const text: string

    constructor (objectId: Option<int>, text: string)
      ensures this.objectId == objectId && this.text == text
    {
      this.objectId := objectId;
      this.text := text;
    }
  }

  /** The part of the game controller the menu uses: updateGamePhase is taken to assign the phase. */
  class Controller {
    var phase: int
    var objects: seq<SceneObject>

    constructor (phase: int)
      ensures this.phase == phase && objects == []
    {
      this.phase := phase;
      objects := [];
    }
  }

  const OptionTexts: seq<string> := ["Test Phase", "Game Phase 1", "Placeholder 1", "Placeholder 2", "Placeholder 3", "Placeholder 4"]
  const GreetingText: string := "Select an option by closing the fingers."
  const ClosedFist: string := "closed_fist"

  /** `optionTexts[id]`: out of range it is undefined, which fillText draws as "undefined". */
  function OptionText(texts: seq<string>, id: int): (t: string)
    ensures 0 <= id < |texts| ==> t == texts[id]
  {
    if 0 <= id < |texts| then texts[id] else "undefined"
  }

  // ---------------------------------------------------------------------------
  // Collision diff

  /** `a.filter(obj => !b.includes(obj))`. */
  function Without(a: seq<SceneObject>, b: seq<SceneObject>): (r: seq<SceneObject>)
    ensures |r| <= |a|
    ensures forall o :: o in r ==> o in a && o !in b
    ensures forall o :: o in a && o !in b ==> o in r
    ensures forall o :: o in a ==> multiset(r)[o] == if o in b then 0 else multiset(a)[o]
  {
    if a == [] then []
    else
      assert a == [a[0]] + a[1..];
      (if a[0] in b then [] else [a[0]]) + Without(a[1..], b)
  }

  /** The filter keeps the order of a: an element appended to a is kept at the end exactly
      when it is not in b. */
  lemma {:induction false} WithoutAppend(a: seq<SceneObject>, x: SceneObject, b: seq<SceneObject>)
    ensures Without(a + [x], b) == Without(a, b) + (if x in b then [] else [x])
  {
    if a == [] {
      assert a + [x] == [x];
    } else {
      var head := if a[0] in b then [] else [a[0]];
      var tail := if x in b then [] else [x];
      assert (a + [x])[0] == a[0] && (a + [x])[1..] == a[1..] + [x];
      assert Without(a + [x], b) == head + Without(a[1..] + [x], b);
      assert Without(a, b) == head + Without(a[1..], b);
      WithoutAppend(a[1..], x, b);
      Geometry.ConcatAssoc(head, Without(a[1..], b), tail);
    }
  }

  /** Filtering keeps the order: removing nothing gives the list back. */
  lemma {:induction false} WithoutNothing(a: seq<SceneObject>)
    ensures Without(a, []) == a
  {
    if a != [] {
      WithoutNothing(a[1..]);
      assert [a[0]] + a[1..] == a;
    }
  }

  /** The arguments handleGesture passes to handleNewCollisions. */
  datatype Diff = Diff(newCollided: seq<SceneObject>, newNotCollided: seq<SceneObject>, isUnderStateChange: bool)

  /** With the fist state of the previous frame unchanged, the objects entered and left since
      then; otherwise every current collision counts as new. */
  function GestureDiff(current: seq<SceneObject>, prev: Option<seq<SceneObject>>,
                       prevState: Option<string>, command: string): (d: Diff)
    ensures d.isUnderStateChange <==> prevState != Some(command)
    ensures prevState != Some(command) ==> d.newCollided == current && d.newNotCollided == []
    ensures prevState == Some(command) ==>
      && (forall o :: o in d.newCollided ==> o in current && (prev.None? || o !in prev.value))
      && (forall o :: o in current && (prev.None? || o !in prev.value) ==> o in d.newCollided)
      && (forall o :: o in d.newNotCollided ==> prev.Some? && o in prev.value && o !in current)
      && (forall o :: prev.Some? && o in prev.value && o !in current ==> o in d.newNotCollided)
      && (forall o :: o in current ==> multiset(d.newCollided)[o] == if prev.Some? && o in prev.value then 0 else multiset(current)[o])
      && (prev.Some? ==> forall o :: o in prev.value ==> multiset(d.newNotCollided)[o] == if o in current then 0 else multiset(prev.value)[o])
  {
    if prevState == Some(command) then
      var p := if prev.Some? then prev.value else [];
      Diff(Without(current, p), Without(p, current), false)
    else Diff(current, [], true)
  }

  /** Under a steady fist the new collisions follow the order of the current ones: a
      collision appended to them is added at the end exactly when the previous frame lacked it. */
  lemma GestureDiffAppend(current: seq<SceneObject>, o: SceneObject, prev: Option<seq<SceneObject>>,
                          prevState: Option<string>, command: string)
    requires prevState == Some(command)
    ensures GestureDiff(current + [o], prev, prevState, command).newCollided ==
      GestureDiff(current, prev, prevState, command).newCollided + (if prev.Some? && o in prev.value then [] else [o])
  {
    WithoutAppend(current, o, if prev.Some? then prev.value else []);
  }

  /** Holding the same fist over the same objects as in the previous frame yields no change. */
  lemma SteadyGestureNoChange(current: seq<SceneObject>, command: string)
    ensures GestureDiff(current, Some(current), Some(command), command).newCollided == []
    ensures GestureDiff(current, Some(current), Some(command), command).newNotCollided == []
  {
    WithoutAll(current, current);
  }

  /** Filtering out a list that holds every element leaves nothing. */
  lemma {:induction false} WithoutAll(a: seq<SceneObject>, b: seq<SceneObject>)
    requires forall k :: 0 <= k < |a| ==> a[k] in b
    ensures Without(a, b) == []
  {
    if a != [] {
      WithoutAll(a[1..], b);
    }
  }

  /** On the first frame of a hand all its current collisions are new. */
  lemma FirstGestureAllNew(current: seq<SceneObject>, command: string)
    ensures GestureDiff(current, None, None, command) == Diff(current, [], true)
  {
  }

  // ---------------------------------------------------------------------------
  // Selection

  /** handleSelection through updateGamePhase: option 0 leads to phase -1, option 1 to phase 1. */
  function PhaseAfter(phase: int, id: int): int
  {
    if id == 0 then -1 else if id == 1 then 1 else phase
  }

  lemma PhaseAfterCases(phase: int, id: int)
    ensures PhaseAfter(phase, id) != phase ==> (id == 0 && phase != -1) || (id == 1 && phase != 1)
    ensures PhaseAfter(phase, id) == -1 <==> id == 0 || (id != 1 && phase == -1)
    ensures id != 0 && id != 1 ==> PhaseAfter(phase, id) == phase
  {
  }

  /** What the menu shows: the game phase and the text of the selection sprite, if any. */
  datatype View = View(phase: int, shown: Option<string>)

  /** One selected id: the phase may change, and the text is shown only if the phase is then 0. */
  function Select(v: View, id: int, texts: seq<string>): View
  {
    var p := PhaseAfter(v.phase, id);
    if p != 0 then View(p, v.shown) else View(p, Some(OptionText(texts, id)))
  }

  /** The ids of newly collided objects in order, undefined ones skipped. */
  function SelectAll(v: View, ids: seq<Option<int>>, texts: seq<string>): View
  {
    if ids == [] then v
    else
      var w := SelectAll(v, ids[..|ids| - 1], texts);
      if ids[|ids| - 1].Some? then Select(w, ids[|ids| - 1].value, texts) else w
  }

  /** `newCollided.map(obj => obj.objectId)`. */
  function Ids(objs: seq<SceneObject>): (ids: seq<Option<int>>)
    ensures |ids| == |objs| && forall k :: 0 <= k < |objs| ==> ids[k] == objs[k].objectId
  {
    if objs == [] then [] else Ids(objs[..|objs| - 1]) + [objs[|objs| - 1].objectId]
  }

  /** The effect of handleNewCollisions: selection only on a closed fist with new collisions. */
  function NewCollisionsEffect(v: View, newCollided: seq<SceneObject>, fistState: string, texts: seq<string>): View
  {
    if |newCollided| > 0 && fistState == ClosedFist then SelectAll(v, Ids(newCollided), texts) else v
  }

  /** Only a closed fist selects. */
  lemma OpenFistSelectsNothing(v: View, objs: seq<SceneObject>, fistState: string, texts: seq<string>)
    requires fistState != ClosedFist
    ensures NewCollisionsEffect(v, objs, fistState, texts) == v
  {
  }

  /** Objects without an id are skipped. */
  lemma {:induction false} UndefinedIdsSkipped(v: View, ids: seq<Option<int>>, texts: seq<string>)
    requires forall k :: 0 <= k < |ids| ==> ids[k].None?
    ensures SelectAll(v, ids, texts) == v
  {
    if ids != [] {
      UndefinedIdsSkipped(v, ids[..|ids| - 1], texts);
    }
  }

  /** Outside phase 0 no text is shown, so the shown text is kept. */
  lemma {:induction false} NoTextOutsideMenu(v: View, ids: seq<Option<int>>, texts: seq<string>)
    requires v.phase != 0
    ensures SelectAll(v, ids, texts).shown == v.shown && SelectAll(v, ids, texts).phase != 0
  {
    if ids != [] {
      NoTextOutsideMenu(v, ids[..|ids| - 1], texts);
    }
  }

  /** Ids other than 0 and 1 leave the phase alone; once 0 or 1 is among them the phase is -1 or 1. */
  lemma {:induction false} SelectAllPhase(v: View, ids: seq<Option<int>>, texts: seq<string>)
    ensures (forall k :: 0 <= k < |ids| ==> ids[k] != Some(0) && ids[k] != Some(1)) ==>
      SelectAll(v, ids, texts).phase == v.phase
    ensures (exists k :: 0 <= k < |ids| && (ids[k] == Some(0) || ids[k] == Some(1))) ==>
      SelectAll(v, ids, texts).phase in {-1, 1}
  {
    if ids != [] {
      var init := ids[..|ids| - 1];
      SelectAllPhase(v, init, texts);
      var w := SelectAll(v, init, texts);
      if exists k :: 0 <= k < |ids| && (ids[k] == Some(0) || ids[k] == Some(1)) {
        var k :| 0 <= k < |ids| && (ids[k] == Some(0) || ids[k] == Some(1));
        if k < |init| {
          assert init[k] == ids[k];
        }
      }
      if forall k :: 0 <= k < |ids| ==> ids[k] != Some(0) && ids[k] != Some(1) {
        assert forall k :: 0 <= k < |init| ==> init[k] == ids[k];
      }
    }
  }

  /** Choosing "Test Phase" or "Game Phase 1" leaves the menu phase, so its text is not shown. */
  lemma SelectingPhaseShowsNoText(v: View, id: int, texts: seq<string>)
    requires id == 0 || id == 1
    ensures Select(v, id, texts) == View(if id == 0 then -1 else 1, v.shown)
  {
  }

  /** The text of the sprite currently shown; the sprite sits in the scene objects. */
  function Shown(selected: Option<SceneObject>): Option<string>
  {
    if selected.Some? then Some(selected.value.text) else None
  }

  // ---------------------------------------------------------------------------
  // Word wrap of the option labels

  /** The greedy line breaking: `current` is the words of the line being built. */
  function Groups(current: seq<string>, rest: seq<string>, measure: string -> real, maxWidth: real): (gs: seq<seq<string>>)
    requires current != []
    decreases |rest|
  {
    if rest == [] then [current]
    else if measure(Join(current + [rest[0]], ' ')) > maxWidth then [current] + Groups([rest[0]], rest[1..], measure, maxWidth)
    else Groups(current + [rest[0]], rest[1..], measure, maxWidth)
  }

  /** The words of each line. */
  function Wrap(words: seq<string>, measure: string -> real, maxWidth: real): seq<seq<string>>
    requires words != []
  {
    Groups([words[0]], words[1..], measure, maxWidth)
  }

  function Lines(gs: seq<seq<string>>): (lines: seq<string>)
    ensures |lines| == |gs| && forall k :: 0 <= k < |gs| ==> lines[k] == Join(gs[k], ' ')
  {
    if gs == [] then [] else Lines(gs[..|gs| - 1]) + [Join(gs[|gs| - 1], ' ')]
  }

  function Flatten(gs: seq<seq<string>>): seq<string>
  {
    if gs == [] then [] else gs[0] + Flatten(gs[1..])
  }

  /** The lines hold the words in order, each line at least one word. */
  lemma {:induction false} GroupsPartition(current: seq<string>, rest: seq<string>, measure: string -> real, maxWidth: real)
    requires current != []
    ensures Flatten(Groups(current, rest, measure, maxWidth)) == current + rest
    ensures forall k :: 0 <= k < |Groups(current, rest, measure, maxWidth)| ==> Groups(current, rest, measure, maxWidth)[k] != []
    decreases |rest|
  {
    if rest != [] {
      assert current + rest == (current + [rest[0]]) + rest[1..];
      if measure(Join(current + [rest[0]], ' ')) > maxWidth {
        GroupsPartition([rest[0]], rest[1..], measure, maxWidth);
        var tail := Groups([rest[0]], rest[1..], measure, maxWidth);
        assert ([current] + tail)[1..] == tail;
        assert [rest[0]] + rest[1..] == rest;
      } else {
        GroupsPartition(current + [rest[0]], rest[1..], measure, maxWidth);
      }
    }
  }

  /** A line of two or more words fits, and a line ends only where its next word would not fit. */
  lemma {:induction false} GroupsGreedy(current: seq<string>, rest: seq<string>, measure: string -> real, maxWidth: real)
    requires current != [] && (|current| > 1 ==> measure(Join(current, ' ')) <= maxWidth)
    ensures forall k :: 0 <= k < |Groups(current, rest, measure, maxWidth)| ==>
      |Groups(current, rest, measure, maxWidth)[k]| > 1 ==> measure(Join(Groups(current, rest, measure, maxWidth)[k], ' ')) <= maxWidth
    ensures forall k :: 1 <= k < |Groups(current, rest, measure, maxWidth)| ==>
      && Groups(current, rest, measure, maxWidth)[k] != []
      && measure(Join(Groups(current, rest, measure, maxWidth)[k - 1] + [Groups(current, rest, measure, maxWidth)[k][0]], ' ')) > maxWidth
    decreases |rest|
  {
    if rest != [] {
      if measure(Join(current + [rest[0]], ' ')) > maxWidth {
        GroupsGreedy([rest[0]], rest[1..], measure, maxWidth);
        GroupsFirst([rest[0]], rest[1..], measure, maxWidth);
        var tail := Groups([rest[0]], rest[1..], measure, maxWidth);
        var gs := [current] + tail;
        assert Groups(current, rest, measure, maxWidth) == gs;
        assert tail[0][..1] == [rest[0]];
        assert gs[1][0] == rest[0];
        forall k | 1 <= k < |gs|
          ensures gs[k] != [] && measure(Join(gs[k - 1] + [gs[k][0]], ' ')) > maxWidth
        {
          if k > 1 {
            assert gs[k - 1] == tail[k - 2] && gs[k] == tail[k - 1];
          }
        }
      } else {
        GroupsGreedy(current + [rest[0]], rest[1..], measure, maxWidth);
      }
    }
  }

  /** The first line starts with the words already taken. */
  lemma {:induction false} GroupsFirst(current: seq<string>, rest: seq<string>, measure: string -> real, maxWidth: real)
    requires current != []
    ensures |Groups(current, rest, measure, maxWidth)| > 0
    ensures |Groups(current, rest, measure, maxWidth)[0]| >= |current|
    ensures Groups(current, rest, measure, maxWidth)[0][..|current|] == current
    decreases |rest|
  {
    if rest != [] && measure(Join(current + [rest[0]], ' ')) <= maxWidth {
      GroupsFirst(current + [rest[0]], rest[1..], measure, maxWidth);
      var g := Groups(current, rest, measure, maxWidth)[0];
      assert g[..|current|] == g[..|current| + 1][..|current|];
    }
  }

  /** Joining groups of words with a space joins all the words with a space. */
  lemma {:induction false} JoinFlatten(gs: seq<seq<string>>)
    requires forall k :: 0 <= k < |gs| ==> gs[k] != []
    ensures Join(Lines(gs), ' ') == Join(Flatten(gs), ' ')
  {
    if |gs| > 1 {
      JoinFlatten(gs[1..]);
      assert Lines(gs)[1..] == Lines(gs[1..]);
      JoinConcat(gs[0], Flatten(gs[1..]));
      FlattenNonEmpty(gs[1..]);
    } else if |gs| == 1 {
      assert Flatten(gs) == gs[0] + Flatten(gs[1..]) == gs[0];
    }
  }

  lemma FlattenNonEmpty(gs: seq<seq<string>>)
    requires gs != [] && gs[0] != []
    ensures Flatten(gs) != []
  {
  }

  lemma {:induction false} JoinConcat(a: seq<string>, b: seq<string>)
    requires a != [] && b != []
    ensures Join(a + b, ' ') == Join(a, ' ') + [' '] + Join(b, ' ')
  {
    if |a| == 1 {
      assert (a + b)[1..] == b;
    } else {
      assert (a + b)[1..] == a[1..] + b;
      JoinConcat(a[1..], b);
    }
  }

  /** The wrapped lines of a label, joined with single spaces, give the label back; a line wider
      than maxWidth is one word; and a line breaks only where the next word would not fit. */
  lemma WrapProperties(text: string, measure: string -> real, maxWidth: real)
    ensures var gs := Wrap(Split(text, ' '), measure, maxWidth);
      && Join(Lines(gs), ' ') == text
      && (forall k :: 0 <= k < |gs| && measure(Lines(gs)[k]) > maxWidth ==> |gs[k]| == 1 && Lines(gs)[k] in Split(text, ' '))
      && (forall k :: 1 <= k < |gs| ==> gs[k] != [] && measure(Join(gs[k - 1] + [gs[k][0]], ' ')) > maxWidth)
  {
    var words := Split(text, ' ');
    var gs := Wrap(words, measure, maxWidth);
    GroupsPartition([words[0]], words[1..], measure, maxWidth);
    GroupsGreedy([words[0]], words[1..], measure, maxWidth);
    JoinFlatten(gs);
    assert [words[0]] + words[1..] == words;
    JoinSplit(text, ' ');
    forall k | 0 <= k < |gs| && measure(Lines(gs)[k]) > maxWidth
      ensures |gs[k]| == 1 && Lines(gs)[k] in words
    {
      FlattenMember(gs, k);
    }
  }

  lemma {:induction false} FlattenMember(gs: seq<seq<string>>, k: int)
    requires 0 <= k < |gs| && |gs[k]| == 1
    ensures gs[k][0] in Flatten(gs)
  {
    if k > 0 {
      FlattenMember(gs[1..], k - 1);
    }
  }

  lemma GroupsStep(current: seq<string>, rest: seq<string>, measure: string -> real, maxWidth: real)
    requires current != [] && rest != []
    ensures measure(Join(current + [rest[0]], ' ')) > maxWidth ==>
      Groups(current, rest, measure, maxWidth) == [current] + Groups([rest[0]], rest[1..], measure, maxWidth)
    ensures measure(Join(current + [rest[0]], ' ')) <= maxWidth ==>
      Groups(current, rest, measure, maxWidth) == Groups(current + [rest[0]], rest[1..], measure, maxWidth)
  {
  }

  /** The word-wrap of initialize: the label split at spaces, then the loop. */
  method WrapLabel(text: string, measure: string -> real, maxWidth: real) returns (lines: seq<string>)
    ensures lines == Lines(Wrap(Split(text, ' '), measure, maxWidth))
  {
    var words := Split(text, ' ');
    lines := WrapWords(words, measure, maxWidth);
  }

  /** The loop: `words[0]` starts the first line, and each further word either extends the
      current line or, when the extended line would be wider than maxWidth, starts a new one. */
  method WrapWords(words: seq<string>, measure: string -> real, maxWidth: real) returns (lines: seq<string>)
    requires words != []
    ensures lines == Lines(Wrap(words, measure, maxWidth))
  {
    lines := [];
    var currentLine := words[0];
    ghost var group := [words[0]];
    ghost var done: seq<seq<string>> := [];
    for j := 1 to |words|
      invariant group != [] && currentLine == Join(group, ' ')
      invariant lines == Lines(done)
      invariant done + Groups(group, words[j..], measure, maxWidth) == Wrap(words, measure, maxWidth)
    {
      var testLine := currentLine + " " + words[j];
      JoinAppend(group, words[j], ' ');
      assert words[j..] == [words[j]] + words[j + 1..];
      if measure(testLine) > maxWidth {
        WrapBreak(done, group, words[j], words[j + 1..], measure, maxWidth);
        LinesAppend(done, group);
        lines := lines + [currentLine];
        done := done + [group];
        currentLine := words[j];
        group := [words[j]];
      } else {
        WrapExtend(done, group, words[j], words[j + 1..], measure, maxWidth);
        currentLine := testLine;
        group := group + [words[j]];
      }
    }
    LinesAppend(done, group);
    lines := lines + [currentLine];
    done := done + [group];
  }

  lemma WrapBreak(done: seq<seq<string>>, group: seq<string>, w: string, rest: seq<string>, measure: string -> real, maxWidth: real)
    requires group != [] && measure(Join(group + [w], ' ')) > maxWidth
    ensures done + Groups(group, [w] + rest, measure, maxWidth) == (done + [group]) + Groups([w], rest, measure, maxWidth)
  {
    GroupsStep(group, [w] + rest, measure, maxWidth);
    assert ([w] + rest)[1..] == rest;
  }

  lemma WrapExtend(done: seq<seq<string>>, group: seq<string>, w: string, rest: seq<string>, measure: string -> real, maxWidth: real)
    requires group != [] && measure(Join(group + [w], ' ')) <= maxWidth
    ensures done + Groups(group, [w] + rest, measure, maxWidth) == done + Groups(group + [w], rest, measure, maxWidth)
  {
    GroupsStep(group, [w] + rest, measure, maxWidth);
    assert ([w] + rest)[1..] == rest;
  }

  lemma LinesAppend(gs: seq<seq<string>>, g: seq<string>)
    ensures Lines(gs + [g]) == Lines(gs) + [Join(g, ' ')]
  {
    assert (gs + [g])[..|gs|] == gs;
  }

  // ---------------------------------------------------------------------------
  // The menu

  class Menu {
    const gameController: Controller
    const optionTexts: seq<string>
    var collisions: map<int, seq<SceneObject>>
    var prevCollisions: map<int, seq<SceneObject>>
    var prevFistState: map<int, string>
    var selectedTextObject: Option<SceneObject>
    /** Every selection text sprite the menu has made. */
    ghost var sprites: set<SceneObject>

    /** At most the current selection sprite is among the scene objects. */
    ghost predicate Valid()
      reads this, gameController
    {
      && (selectedTextObject.Some? ==> selectedTextObject.value in sprites)
      && (forall o :: o in gameController.objects && o in sprites ==> selectedTextObject == Some(o))
    }

    ghost function Displayed(): View
      reads this, gameController
    {
      View(gameController.phase, Shown(selectedTextObject))
    }

    /** The selection sprites in the scene: none, or the current one. */
    ghost function SpritesInScene(): (r: set<SceneObject>)
      requires Valid()
      reads this, gameController
      ensures |r| <= 1
      ensures forall o :: o in r ==> selectedTextObject == Some(o)
    {
      var r := set o | o in gameController.objects && o in sprites;
      if selectedTextObject.Some? then
        assert r <= {selectedTextObject.value};
        SubsetCard(r, {selectedTextObject.value});
        r
      else
        assert r == {};
        r
    }

    /** The constructor: empty dictionaries, then the greeting text (shown in phase 0). */
    constructor (gameController: Controller)
      modifies gameController
      ensures Valid()
      ensures this.gameController == gameController && optionTexts == OptionTexts
      ensures collisions == map[] && prevCollisions == map[] && prevFistState == map[]
      ensures Displayed() == View(old(gameController.phase), if old(gameController.phase) == 0 then Some(GreetingText) else None)
    {
      this.gameController := gameController;
      optionTexts := OptionTexts;
      collisions := map[];
      prevCollisions := map[];
      prevFistState := map[];
      selectedTextObject := None;
      sprites := {};
      new;
      ShowSelectionText(GreetingText);
    }

    /** handleCollision: the hand's collisions become the event's objects, or [] without any. */
    method HandleCollision(command: string, handIndex: int, objects: Option<seq<SceneObject>>)
      modifies this
      ensures collisions == old(collisions)[handIndex := if objects.Some? then objects.value else []]
      ensures prevCollisions == old(prevCollisions) && prevFistState == old(prevFistState)
      ensures selectedTextObject == old(selectedTextObject) && sprites == old(sprites)
    {
      collisions := collisions[handIndex := if objects.Some? then objects.value else []];
    }

    /** handleGesture: diff the hand's collisions against the previous frame, act on them, and
        remember this frame's fist state and collisions for that hand only. */
    method HandleGesture(command: string, handIndex: int)
      requires Valid()
      modifies this, gameController
      ensures Valid()
      ensures collisions == old(collisions)[handIndex := if handIndex in old(collisions) then old(collisions)[handIndex] else []]
      ensures prevFistState == old(prevFistState)[handIndex := command]
      ensures prevCollisions == old(prevCollisions)[handIndex := collisions[handIndex]]
      ensures Displayed() == NewCollisionsEffect(old(Displayed()),
        GestureDiff(collisions[handIndex], Lookup(old(prevCollisions), handIndex),
                    Lookup(old(prevFistState), handIndex), command).newCollided, command, optionTexts)
      ensures SceneKept(old(gameController.objects), gameController.objects, sprites)
    {
      if handIndex !in collisions {
        collisions := collisions[handIndex := []];
      }
      var d := GestureDiff(collisions[handIndex], Lookup(prevCollisions, handIndex), Lookup(prevFistState, handIndex), command);
      HandleNewCollisions(d.newCollided, d.newNotCollided, command, d.isUnderStateChange, handIndex);
      prevFistState := prevFistState[handIndex := command];
      prevCollisions := prevCollisions[handIndex := collisions[handIndex]];
    }

    /** handleNewCollisions: on a closed fist, select every newly collided option in order. */
    method HandleNewCollisions(newCollided: seq<SceneObject>, newNotCollided: seq<SceneObject>,
                               fistState: string, isUnderStateChange: bool, handIndex: int)
      requires Valid()
      modifies this, gameController
      ensures Valid()
      ensures Displayed() == NewCollisionsEffect(old(Displayed()), newCollided, fistState, optionTexts)
      ensures collisions == old(collisions) && prevCollisions == old(prevCollisions) && prevFistState == old(prevFistState)
      ensures SceneKept(old(gameController.objects), gameController.objects, sprites)
    {
      SceneKeptRefl(gameController.objects, sprites);
      if |newCollided| > 0 {
        var newCollidedIds := Ids(newCollided);
        if fistState == ClosedFist {
          for k := 0 to |newCollidedIds|
            invariant Valid()
            invariant Displayed() == SelectAll(old(Displayed()), newCollidedIds[..k], optionTexts)
            invariant collisions == old(collisions) && prevCollisions == old(prevCollisions) && prevFistState == old(prevFistState)
            invariant SceneKept(old(gameController.objects), gameController.objects, sprites)
          {
            var id := newCollidedIds[k];
            assert newCollidedIds[..k + 1][..k] == newCollidedIds[..k];
            if id.Some? {
              SelectOne(id.value, handIndex);
            }
          }
          assert newCollidedIds[..|newCollidedIds|] == newCollidedIds;
        }
      }
    }

    /** The body of the forEach for one defined id. */
    method SelectOne(id: int, handIndex: int)
      requires Valid()
      modifies this, gameController
      ensures Valid()
      ensures Displayed() == Select(old(Displayed()), id, optionTexts)
      ensures collisions == old(collisions) && prevCollisions == old(prevCollisions) && prevFistState == old(prevFistState)
      ensures SceneKept(old(gameController.objects), gameController.objects, sprites) && old(sprites) <= sprites
    {
      HandleSelection(id, handIndex);
      ShowSelectionText(OptionText(optionTexts, id));
    }

    /** handleSelection: the switch on the option id. */
    method HandleSelection(objectId: int, handId: int)
      modifies gameController
      ensures gameController.phase == PhaseAfter(old(gameController.phase), objectId)
      ensures gameController.objects == old(gameController.objects)
    {
      if objectId == 0 {
        gameController.phase := -1;
      } else if objectId == 1 {
        gameController.phase := 1;
      }
    }

    /** showSelectionText: only in phase 0, the previous sprite leaves the scene and a new one
        with the text is added and remembered. */
    method ShowSelectionText(objectText: string)
      requires Valid()
      modifies this, gameController
      ensures Valid()
      ensures gameController.phase == old(gameController.phase)
      ensures collisions == old(collisions) && prevCollisions == old(prevCollisions) && prevFistState == old(prevFistState)
      ensures old(gameController.phase) != 0 ==>
        && gameController.objects == old(gameController.objects)
        && selectedTextObject == old(selectedTextObject) && sprites == old(sprites)
      ensures old(gameController.phase) == 0 ==>
        && selectedTextObject.Some? && fresh(selectedTextObject.value)
        && selectedTextObject.value.text == objectText
        && sprites == old(sprites) + {selectedTextObject.value}
        && gameController.objects == Remove(old(gameController.objects), old(selectedTextObject)) + [selectedTextObject.value]
      ensures SceneKept(old(gameController.objects), gameController.objects, sprites)
    {
      SceneKeptRefl(gameController.objects, sprites);
      if gameController.phase != 0 {
        return;
      }
      if selectedTextObject.Some? {
        gameController.objects := Without(gameController.objects, [selectedTextObject.value]);
      }
      var textSprite := new SceneObject(None, objectText);
      gameController.objects := gameController.objects + [textSprite];
      selectedTextObject := Some(textSprite);
      sprites := sprites + {textSprite};
    }
  }

  /** The scene objects after the selection sprite, if any, is filtered out. */
  function Remove(objects: seq<SceneObject>, selected: Option<SceneObject>): (r: seq<SceneObject>)
    ensures selected.Some? ==> selected.value !in r
    ensures forall o :: o in objects && Some(o) != selected ==> o in r
  {
    if selected.Some? then Without(objects, [selected.value]) else objects
  }

  /** The scene changed only by selection sprites: the other objects are all kept and the new ones are sprites. */
  ghost predicate SceneKept(before: seq<SceneObject>, after: seq<SceneObject>, sprites: set<SceneObject>)
  {
    && (forall o :: o in before && o !in sprites ==> o in after)
    && (forall o :: o in after ==> o in before || o in sprites)
  }

  lemma SceneKeptRefl(objects: seq<SceneObject>, sprites: set<SceneObject>)
    ensures SceneKept(objects, objects, sprites)
  {
  }

  function Lookup<V>(m: map<int, V>, k: int): Option<V>
  {
    if k in m then Some(m[k]) else None
  }

  lemma SubsetCard<T>(a: set<T>, b: set<T>)
    requires a <= b
    ensures |a| <= |b|
  {
    if a != {} {
      var x :| x in a;
      SubsetCard(a - {x}, b - {x});
    }
  }
}
