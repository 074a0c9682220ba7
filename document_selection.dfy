/**
 * What the selection commands do to a document: clicking items of the frames
 * and animations lists, of the timeline and of the workbench's hitboxes,
 * selecting everything, browsing with the arrow, home and end keys, and
 * nudging, deleting or renaming what is selected.
 */
module DocumentSelection {
  import opened Wrappers
  import opened Sheets
  import opened Ordering
  import opened Selections
  import opened Views
  import opened Documents
  import Commands
  import Timeline
  import Content
  import KeyframeEdits
  import Gestures

  // ----- The item pools -----

  /**
   * `Document::selectable_frames`: the frame sources in the order of
   * `Sheet::sorted_frames`, which sorts frames by source.
   */
  function SelectableFrames(sheet: Sheet): (r: seq<Path>)
    ensures forall p :: p in r <==> HasFrame(sheet, p)
    ensures StrictlyAscending(r)
  {
    Ascending(set p | p in Sources(sheet.frames))
  }

  /** `Document::selectable_animations`: the animation names in ascending order. */
  function SelectableAnimations(sheet: Sheet): (r: seq<string>)
    ensures forall n :: n in r <==> n in sheet.animations
    ensures StrictlyAscending(r)
  {
    Ascending(sheet.animations.Keys)
  }

  /** The identities of the hitboxes `names` of the keyframe at `slot` of `animation`. */
  function HitboxRefs(animation: string, slot: KeyframeSlot, names: seq<string>): (r: seq<HitboxRef>)
    ensures |r| == |names|
    ensures forall k :: 0 <= k < |r| ==> r[k] == HitboxRef(animation, slot.0, slot.1, names[k])
  {
    seq(|names|, k requires 0 <= k < |names| => HitboxRef(animation, slot.0, slot.1, names[k]))
  }

  /**
   * `Document::selectable_hitboxes`: the hitboxes of the keyframe under the
   * clock, by name; fails when there is no such keyframe.
   */
  function SelectableHitboxes(sheet: Sheet, view: View): (r: Result<seq<HitboxRef>, DocumentError>)
    ensures WorkbenchKeyframe(sheet, view).Err? ==> r == Err(WorkbenchKeyframe(sheet, view).error)
    ensures r.Ok? ==>
      && WorkbenchKeyframe(sheet, view).Ok?
      && var name := WorkbenchAnimation(sheet, view).value.0;
         var (slot, keyframe) := WorkbenchKeyframe(sheet, view).value;
         && |r.value| == |keyframe.hitboxes|
         && forall h :: h in r.value <==>
              h.animation == name && h.direction == slot.0 && h.index == slot.1 && h.name in keyframe.hitboxes
  {
    var (name, _) :- WorkbenchAnimation(sheet, view);
    var (slot, keyframe) :- WorkbenchKeyframe(sheet, view);
    var names := Ascending(keyframe.hitboxes.Keys);
    HitboxRefsOfNames(name, slot, names);
    Ok(HitboxRefs(name, slot, names))
  }

  /** The identities listed are exactly those of the keyframe at `slot` whose name is listed. */
  lemma HitboxRefsOfNames(animation: string, slot: KeyframeSlot, names: seq<string>)
    ensures forall h :: h in HitboxRefs(animation, slot, names) <==>
      h.animation == animation && h.direction == slot.0 && h.index == slot.1 && h.name in names
  {
    var refs := HitboxRefs(animation, slot, names);
    forall n | n in names
      ensures HitboxRef(animation, slot.0, slot.1, n) in refs
    {
      var k :| 0 <= k < |names| && names[k] == n;
      assert refs[k] == HitboxRef(animation, slot.0, slot.1, n);
    }
  }

  /** The range a shift-click covers in a list pool; `alter` computes it only when shift is held. */
  function ListAffected<T(==,!new)>(pool: seq<T>, pivot: Option<T>, item: T, shift: bool): seq<T>
    requires shift ==> |pool| > 0
  {
    if shift then ListRange(pool, pivot, item) else []
  }

  /** `x` sorts between `a` and `b`, ends included, whichever of the two comes first. */
  predicate SortsBetween(x: string, a: string, b: string) {
    (StrLe(a, x) && StrLe(x, b)) || (StrLe(b, x) && StrLe(x, a))
  }

  /** Every member of the range between `a` and `b` sorts between them. */
  lemma RangeMemberSortsBetween(pool: seq<string>, a: string, b: string, j: nat)
    requires StrictlyAscending(pool) && a in pool && b in pool
    requires j < |ListRange(pool, Some(a), b)|
    ensures SortsBetween(ListRange(pool, Some(a), b)[j], a, b)
  {
    var f := PositionOrFirst(pool, Some(a));
    var t := PositionOrFirst(pool, Some(b));
    var x := pool[Min(f, t) + j];
    assert ListRange(pool, Some(a), b)[j] == x;
    StrLeTotal(x, x);
    assert StrLe(pool[Min(f, t)], x) && StrLe(x, pool[Max(f, t)]);
  }

  /** A member of the pool that sorts between `a` and `b` lies in the range between them. */
  lemma SortsBetweenInRange(pool: seq<string>, a: string, b: string, k: nat)
    requires StrictlyAscending(pool) && a in pool && b in pool
    requires k < |pool| && SortsBetween(pool[k], a, b)
    ensures pool[k] in ListRange(pool, Some(a), b)
  {
    var f := PositionOrFirst(pool, Some(a));
    var t := PositionOrFirst(pool, Some(b));
    var x := pool[k];
    if k < Min(f, t) {
      assert StrLe(x, a) && x != a && StrLe(x, b) && x != b;
      if StrLe(a, x) {
        StrLeAntisymmetric(a, x);
      } else {
        StrLeAntisymmetric(b, x);
      }
    } else if k > Max(f, t) {
      assert StrLe(a, x) && x != a && StrLe(b, x) && x != b;
      if StrLe(x, b) {
        StrLeAntisymmetric(b, x);
      } else {
        StrLeAntisymmetric(a, x);
      }
    } else {
      assert ListRange(pool, Some(a), b)[k - Min(f, t)] == x;
    }
  }

  /**
   * In an ascending pool, the range between two of its members holds exactly
   * the members that sort between them.
   */
  lemma AscendingRange(pool: seq<string>, a: string, b: string)
    requires StrictlyAscending(pool) && a in pool && b in pool
    ensures forall x :: x in ListRange(pool, Some(a), b) <==> x in pool && SortsBetween(x, a, b)
  {
    var r := ListRange(pool, Some(a), b);
    forall x | x in r
      ensures x in pool && SortsBetween(x, a, b)
    {
      var j :| 0 <= j < |r| && r[j] == x;
      RangeMemberSortsBetween(pool, a, b, j);
    }
    forall x | x in pool && SortsBetween(x, a, b)
      ensures x in r
    {
      var k :| 0 <= k < |pool| && pool[k] == x;
      SortsBetweenInRange(pool, a, b, k);
    }
  }

  // ----- Clicking items -----

  /**
   * `Document::select_frame`: the other three kinds are cleared and the
   * frames selection is altered by the click, a shift-click ranging over the
   * sorted frames. A shift-click on a sheet without frames panics in the
   * source (it slices an empty pool), hence the precondition.
   */
  function FrameClicked(sheet: Sheet, view: View, path: Path, shift: bool, ctrl: bool): (r: View)
    requires shift ==> |sheet.frames| > 0
    ensures r == view.(selection := r.selection)
    ensures r.selection == EmptySelectionState.(frames := r.selection.frames)
    ensures r.selection.frames.lastInteracted == Some(path)
    ensures r.selection.frames.pivot == if shift && !ctrl then view.selection.frames.pivot else Some(path)
    ensures !shift && !ctrl ==> r.selection.frames.selected == {path}
    ensures !shift && ctrl ==> forall p :: p in r.selection.frames.selected <==>
      (if p == path then p !in view.selection.frames.selected else p in view.selection.frames.selected)
  {
    var pool := SelectableFrames(sheet);
    assert shift ==> Sources(sheet.frames)[0] in pool;
    var frames := Alter(view.selection.frames, path, ListAffected(pool, view.selection.frames.pivot, path, shift), shift, ctrl);
    view.(selection := EmptySelectionState.(frames := frames))
  }

  /**
   * A shift-click (without ctrl) from a pivot frame selects exactly the
   * frames whose sources sort between the pivot and the clicked frame.
   */
  lemma FrameShiftClickSelectsSpan(sheet: Sheet, view: View, path: Path)
    requires view.selection.frames.pivot.Some? && HasFrame(sheet, view.selection.frames.pivot.value)
    requires HasFrame(sheet, path)
    ensures |sheet.frames| > 0
    ensures var pivot := view.selection.frames.pivot.value;
      forall p :: p in FrameClicked(sheet, view, path, true, false).selection.frames.selected <==>
        HasFrame(sheet, p) && SortsBetween(p, pivot, path)
  {
    assert |Sources(sheet.frames)| > 0;
    AscendingRange(SelectableFrames(sheet), view.selection.frames.pivot.value, path);
  }

  /** `Document::select_animation`: as for frames, over the sorted animation names. */
  function AnimationClicked(sheet: Sheet, view: View, name: string, shift: bool, ctrl: bool): (r: View)
    requires shift ==> |sheet.animations| > 0
    ensures r == view.(selection := r.selection)
    ensures r.selection == EmptySelectionState.(animations := r.selection.animations)
    ensures r.selection.animations.lastInteracted == Some(name)
    ensures !shift && !ctrl ==> r.selection.animations.selected == {name}
    ensures !shift && ctrl ==> forall n :: n in r.selection.animations.selected <==>
      (if n == name then n !in view.selection.animations.selected else n in view.selection.animations.selected)
  {
    var pool := SelectableAnimations(sheet);
    assert shift ==> |pool| == |sheet.animations.Keys|;
    var animations := Alter(view.selection.animations, name, ListAffected(pool, view.selection.animations.pivot, name, shift), shift, ctrl);
    view.(selection := EmptySelectionState.(animations := animations))
  }

  /** A shift-click from a pivot animation selects exactly the animations named between the two. */
  lemma AnimationShiftClickSelectsSpan(sheet: Sheet, view: View, name: string)
    requires view.selection.animations.pivot.Some? && view.selection.animations.pivot.value in sheet.animations
    requires name in sheet.animations
    ensures |sheet.animations| > 0
    ensures var pivot := view.selection.animations.pivot.value;
      forall n :: n in AnimationClicked(sheet, view, name, true, false).selection.animations.selected <==>
        n in sheet.animations && SortsBetween(n, pivot, name)
  {
    assert name in sheet.animations.Keys;
    AscendingRange(SelectableAnimations(sheet), view.selection.animations.pivot.value, name);
  }

  /**
   * `Document::select_keyframe_internal`: the other three kinds are cleared
   * and the clicked direction becomes current before the current animation
   * is resolved, so both changes stay when that fails; otherwise the
   * keyframes selection is altered, a shift-click ranging over the time span
   * between the pivot and the clicked keyframe. The range is the one the
   * code computes: a missing pivot, or one in another animation, is replaced
   * by the default identity, so the shift-selected keyframes are then named
   * after the empty animation.
   */
  function KeyframeClicked(sheet: Sheet, view: View, direction: Direction, index: nat, shift: bool, ctrl: bool)
    : (r: (View, Result<(), DocumentError>))
    ensures r.0 == view.(currentSequence := Some(direction), selection := r.0.selection)
    ensures r.0.selection == EmptySelectionState.(keyframes := r.0.selection.keyframes)
    ensures WorkbenchAnimation(sheet, view).Err? ==>
      r.1 == Err(WorkbenchAnimation(sheet, view).error) && r.0.selection.keyframes == view.selection.keyframes
    ensures WorkbenchAnimation(sheet, view).Ok? ==>
      && r.1.Ok?
      && var clicked := KeyframeRef(WorkbenchAnimation(sheet, view).value.0, direction, index);
         var pivot := view.selection.keyframes.pivot;
         && r.0.selection.keyframes.lastInteracted == Some(clicked)
         && (!shift && !ctrl ==> r.0.selection.keyframes.selected == {clicked})
         && (shift && !ctrl && pivot.Some? && pivot.value.animation == clicked.animation ==>
               forall k :: k in r.0.selection.keyframes.selected ==>
                 KeyframeExists(sheet, clicked.animation, k.direction, k.index) && k.animation == clicked.animation)
         && (shift && !ctrl && !(pivot.Some? && pivot.value.animation == clicked.animation) ==>
               forall k :: k in r.0.selection.keyframes.selected ==> k.animation == "")
  {
    var cleared := view.(currentSequence := Some(direction),
                         selection := EmptySelectionState.(keyframes := view.selection.keyframes));
    match WorkbenchAnimation(sheet, cleared)
    case Err(e) => (cleared, Err(e))
    case Ok((name, animation)) =>
      var keyframes := KeyframesClicked(view.selection.keyframes, name, animation, direction, index, shift, ctrl);
      (cleared.(selection := cleared.selection.(keyframes := keyframes)), Ok(()))
  }

  /** The keyframes selection after a click on a keyframe of `animation`, named `name`, with the range as written. */
  function KeyframesClicked(s: Selection<KeyframeRef>, name: string, animation: Animation, direction: Direction, index: nat,
                            shift: bool, ctrl: bool): (r: Selection<KeyframeRef>)
    ensures r.lastInteracted == Some(KeyframeRef(name, direction, index))
    ensures !shift && !ctrl ==> r.selected == {KeyframeRef(name, direction, index)}
    ensures shift && !ctrl && s.pivot.Some? && s.pivot.value.animation == name ==>
      forall k :: k in r.selected ==>
        k.direction in animation.sequences && k.index < |animation.sequences[k.direction].keyframes| && k.animation == name
    ensures shift && !ctrl && !(s.pivot.Some? && s.pivot.value.animation == name) ==>
      forall k :: k in r.selected ==> k.animation == ""
  {
    var clicked := KeyframeRef(name, direction, index);
    var affected := if shift then KeyframeRangeAsWritten(animation, s.pivot, clicked) else [];
    KeyframeRangeAsWrittenCases(animation, s.pivot, clicked);
    Alter(s, clicked, affected, shift, ctrl)
  }

  /**
   * The click as evidently intended: the shift range starts from the first
   * keyframe of the clicked keyframe's own animation when there is no usable
   * pivot, so every keyframe a shift-click selects is a keyframe of the
   * animation being edited.
   */
  function KeyframeClickedIntended(sheet: Sheet, view: View, direction: Direction, index: nat, shift: bool, ctrl: bool)
    : (r: (View, Result<(), DocumentError>))
    ensures r.0 == view.(currentSequence := Some(direction), selection := r.0.selection)
    ensures r.0.selection == EmptySelectionState.(keyframes := r.0.selection.keyframes)
    ensures WorkbenchAnimation(sheet, view).Err? ==>
      r.1 == Err(WorkbenchAnimation(sheet, view).error) && r.0.selection.keyframes == view.selection.keyframes
    ensures WorkbenchAnimation(sheet, view).Ok? ==>
      && r.1.Ok?
      && var clicked := KeyframeRef(WorkbenchAnimation(sheet, view).value.0, direction, index);
         && r.0.selection.keyframes.lastInteracted == Some(clicked)
         && (!shift && !ctrl ==> r.0.selection.keyframes.selected == {clicked})
         && (shift && !ctrl ==> forall k :: k in r.0.selection.keyframes.selected ==>
               KeyframeExists(sheet, clicked.animation, k.direction, k.index) && k.animation == clicked.animation)
  {
    var cleared := view.(currentSequence := Some(direction),
                         selection := EmptySelectionState.(keyframes := view.selection.keyframes));
    match WorkbenchAnimation(sheet, cleared)
    case Err(e) => (cleared, Err(e))
    case Ok((name, animation)) =>
      var keyframes := KeyframesClickedIntended(view.selection.keyframes, name, animation, direction, index, shift, ctrl);
      (cleared.(selection := cleared.selection.(keyframes := keyframes)), Ok(()))
  }

  /** The keyframes selection after a click on a keyframe of `animation`, named `name`, with the intended range. */
  function KeyframesClickedIntended(s: Selection<KeyframeRef>, name: string, animation: Animation, direction: Direction,
                                    index: nat, shift: bool, ctrl: bool): (r: Selection<KeyframeRef>)
    ensures r.lastInteracted == Some(KeyframeRef(name, direction, index))
    ensures !shift && !ctrl ==> r.selected == {KeyframeRef(name, direction, index)}
    ensures shift && !ctrl ==> forall k :: k in r.selected ==>
      k.direction in animation.sequences && k.index < |animation.sequences[k.direction].keyframes| && k.animation == name
  {
    var clicked := KeyframeRef(name, direction, index);
    var affected := if shift then KeyframeRange(animation, s.pivot, clicked) else [];
    Alter(s, clicked, affected, shift, ctrl)
  }

  /**
   * Shift-clicking the only keyframe of "walk" with no pivot: the code
   * selects the keyframe ("", East, 0), which belongs to no animation of the
   * sheet, where the intended click selects ("walk", East, 0).
   */
  lemma KeyframeClickedCounterexample()
    ensures var sheet := EmptySheet.(animations := map["walk" := Animation(map[East := Sequence([NewKeyframe("f")])], false)]);
      var view := DefaultView.(currentAnimation := Some("walk"));
      && KeyframeClicked(sheet, view, East, 0, true, false).0.selection.keyframes.selected == {KeyframeRef("", East, 0)}
      && KeyframeClickedIntended(sheet, view, East, 0, true, false).0.selection.keyframes.selected == {KeyframeRef("walk", East, 0)}
  {
    KeyframeRangeCounterexample();
  }

  /**
   * `Document::select_keyframe`: the click as above; then, unless the
   * timeline is playing, the clock moves to the start of the clicked keyframe
   * (to 0 when the index is past the end of the sequence), failing when the
   * clicked direction has no sequence.
   */
  function KeyframeSelected(sheet: Sheet, view: View, playing: bool, direction: Direction, index: nat,
                            shift: bool, ctrl: bool): (r: (View, Result<(), DocumentError>))
  {
    var (clicked, result) := KeyframeClicked(sheet, view, direction, index, shift, ctrl);
    if result.Err? || playing then (clicked, result)
    else match WorkbenchSequence(sheet, clicked)
      case Err(e) => (clicked, Err(e))
      case Ok((_, sequence)) =>
        var times := KeyframeTimes(sequence);
        (clicked.(timelineClock := if index < |times| then times[index] else 0), Ok(()))
  }

  /** Keyframe time ranges never run backwards: an earlier keyframe ends by the time a later one starts. */
  lemma {:induction false} RangesOrdered(sequence: Sequence, j: nat, i: nat)
    requires j < i < |sequence.keyframes|
    ensures TimeRanges(sequence)[j].end <= TimeRanges(sequence)[i].start
    decreases i - j
  {
    TimeRangesContiguous(sequence);
    if j + 1 < i {
      RangesOrdered(sequence, j + 1, i);
    }
  }

  /** A time within a keyframe's range finds that keyframe. */
  lemma IndexAtWithin(sequence: Sequence, i: nat, time: nat)
    requires i < |sequence.keyframes|
    requires TimeRanges(sequence)[i].start <= time < TimeRanges(sequence)[i].end
    ensures KeyframeIndexAt(sequence, time) == Some(i)
  {
    KeyframeIndexAtSpec(sequence, time);
    var r := KeyframeIndexAt(sequence, time).value;
    if r < i {
      RangesOrdered(sequence, r, i);
    }
  }

  /**
   * Clicking a keyframe that lasts, while the timeline is paused, puts it
   * under the clock: it becomes the keyframe the workbench shows, and a plain
   * click leaves it the only selected keyframe.
   */
  lemma ClickedKeyframeIsShown(sheet: Sheet, view: View, direction: Direction, index: nat, shift: bool, ctrl: bool)
    requires WorkbenchAnimation(sheet, view).Ok?
    requires var name := WorkbenchAnimation(sheet, view).value.0;
      KeyframeExists(sheet, name, direction, index)
      && sheet.animations[name].sequences[direction].keyframes[index].durationMillis > 0
    ensures var name := WorkbenchAnimation(sheet, view).value.0;
      var keyframe := sheet.animations[name].sequences[direction].keyframes[index];
      var r := KeyframeSelected(sheet, view, false, direction, index, shift, ctrl);
      && r.1.Ok?
      && WorkbenchKeyframe(sheet, r.0) == Ok(((direction, index), keyframe))
      && (!shift && !ctrl ==> SelectedKeyframes(sheet, r.0) == Ok({(direction, index)}))
  {
    var name := WorkbenchAnimation(sheet, view).value.0;
    var sequence := sheet.animations[name].sequences[direction];
    var (clicked, _) := KeyframeClicked(sheet, view, direction, index, shift, ctrl);
    TimeRangesContiguous(sequence);
    IndexAtWithin(sequence, index, TimeRanges(sequence)[index].start);
    var r := KeyframeSelected(sheet, view, false, direction, index, shift, ctrl);
    assert WorkbenchSequence(sheet, r.0) == Ok((direction, sequence));
    if !shift && !ctrl {
      var selected := SelectedKeyframes(sheet, r.0).value;
      assert selected == {(direction, index)} by {
        assert forall slot: KeyframeSlot :: slot in selected <==> slot == (direction, index);
      }
    }
  }

  /**
   * `Document::select_hitbox`: the other three kinds are cleared, then the
   * hitbox named `name` of the keyframe under the clock is clicked, a
   * shift-click ranging over that keyframe's hitboxes by name; without such
   * a keyframe the click fails after the clearing. A shift-click on a
   * keyframe without hitboxes panics in the source, hence the precondition.
   */
  function HitboxClicked(sheet: Sheet, view: View, name: string, shift: bool, ctrl: bool): (r: (View, Result<(), DocumentError>))
    requires shift && WorkbenchKeyframe(sheet, view).Ok? ==> |WorkbenchKeyframe(sheet, view).value.1.hitboxes| > 0
    ensures r.0 == view.(selection := r.0.selection)
    ensures r.0.selection == EmptySelectionState.(hitboxes := r.0.selection.hitboxes)
    ensures WorkbenchKeyframe(sheet, view).Err? ==>
      r.1 == Err(WorkbenchKeyframe(sheet, view).error) && r.0.selection.hitboxes == view.selection.hitboxes
    ensures WorkbenchKeyframe(sheet, view).Ok? ==>
      && r.1.Ok?
      && var slot := WorkbenchKeyframe(sheet, view).value.0;
         var clicked := HitboxRef(WorkbenchAnimation(sheet, view).value.0, slot.0, slot.1, name);
         && r.0.selection.hitboxes.lastInteracted == Some(clicked)
         && (!shift && !ctrl ==> r.0.selection.hitboxes.selected == {clicked})
  {
    var cleared := view.(selection := EmptySelectionState.(hitboxes := view.selection.hitboxes));
    ResolutionDependsOnCurrents(sheet, view, cleared);
    assert WorkbenchKeyframe(sheet, cleared) == WorkbenchKeyframe(sheet, view);
    match SelectableHitboxes(sheet, cleared)
    case Err(e) => (cleared, Err(e))
    case Ok(pool) =>
      var animation := WorkbenchAnimation(sheet, cleared).value.0;
      var slot := WorkbenchKeyframe(sheet, cleared).value.0;
      assert |pool| == |WorkbenchKeyframe(sheet, view).value.1.hitboxes|;
      var clicked := HitboxRef(animation, slot.0, slot.1, name);
      var hitboxes := Alter(view.selection.hitboxes, clicked, ListAffected(pool, view.selection.hitboxes.pivot, clicked, shift), shift, ctrl);
      (cleared.(selection := cleared.selection.(hitboxes := hitboxes)), Ok(()))
  }

  // ----- Selecting everything -----

  /** The keyframes of the sequence `d` of `animation` (named `name`), in order. */
  function SequenceKeyframes(name: string, animation: Animation, d: Direction): (r: seq<KeyframeRef>)
    ensures forall k :: k in r <==>
      k.animation == name && k.direction == d && d in animation.sequences && k.index < |animation.sequences[d].keyframes|
  {
    if d !in animation.sequences then []
    else
      var n := |animation.sequences[d].keyframes|;
      var r := seq(n, i requires 0 <= i < n => KeyframeRef(name, d, i));
      assert forall k: KeyframeRef :: k.animation == name && k.direction == d && k.index < n ==> r[k.index] == k;
      r
  }

  /** The keyframes of the directions from `AllDirections[k]` on, as `sequences_iter` lists them. */
  function KeyframesFrom(name: string, animation: Animation, k: nat): (r: seq<KeyframeRef>)
    requires k <= |AllDirections|
    ensures forall x :: x in r <==>
      && x.animation == name && DirectionRank(x.direction) >= k
      && x.direction in animation.sequences && x.index < |animation.sequences[x.direction].keyframes|
    decreases |AllDirections| - k
  {
    if k == |AllDirections| then []
    else SequenceKeyframes(name, animation, AllDirections[k]) + KeyframesFrom(name, animation, k + 1)
  }

  /**
   * `Document::select_all`: everything of the first kind that has a selection
   * (frames, animations, then hitboxes of the keyframe under the clock), or,
   * when nothing is selected, every keyframe of the current animation; the
   * other kinds end up empty. Fails, changing nothing, when the hitboxes or
   * the keyframes to select cannot be resolved.
   */
  function AllSelected(sheet: Sheet, view: View): (r: Result<View, DocumentError>)
    ensures r.Ok? ==> r.value == view.(selection := r.value.selection)
    ensures r.Err? ==> view.selection.frames.selected == {} && view.selection.animations.selected == {}
    ensures view.selection.frames.selected != {} ==>
      && r.Ok? && r.value.selection == EmptySelectionState.(frames := r.value.selection.frames)
      && forall p :: p in r.value.selection.frames.selected <==> HasFrame(sheet, p)
    ensures view.selection.frames.selected == {} && view.selection.animations.selected != {} ==>
      && r.Ok? && r.value.selection == EmptySelectionState.(animations := r.value.selection.animations)
      && forall n :: n in r.value.selection.animations.selected <==> n in sheet.animations
  {
    var s := view.selection;
    if s.frames.selected != {} then Ok(SelectFramesOnly(view, SelectableFrames(sheet)))
    else if s.animations.selected != {} then Ok(SelectAnimationsOnly(view, SelectableAnimations(sheet)))
    else if s.hitboxes.selected != {} then
      var pool :- SelectableHitboxes(sheet, view);
      Ok(SelectHitboxesOnly(view, pool))
    else
      var (name, animation) :- WorkbenchAnimation(sheet, view);
      Ok(SelectKeyframesOnly(view, KeyframesFrom(name, animation, 0)))
  }

  /**
   * With only hitboxes selected, selecting all selects every hitbox of the
   * keyframe under the clock, or fails when there is none.
   */
  lemma SelectAllHitboxes(sheet: Sheet, view: View)
    requires view.selection.frames.selected == {} && view.selection.animations.selected == {}
    requires view.selection.hitboxes.selected != {}
    ensures WorkbenchKeyframe(sheet, view).Err? ==> AllSelected(sheet, view) == Err(WorkbenchKeyframe(sheet, view).error)
    ensures WorkbenchKeyframe(sheet, view).Ok? ==>
      var r := AllSelected(sheet, view);
      && r.Ok? && r.value.selection == EmptySelectionState.(hitboxes := r.value.selection.hitboxes)
      && SelectedHitboxes(sheet, r.value) == Ok(WorkbenchKeyframe(sheet, view).value.1.hitboxes.Keys)
  {
    var r := AllSelected(sheet, view);
    if WorkbenchKeyframe(sheet, view).Ok? {
      ResolutionDependsOnCurrents(sheet, view, r.value);
      var keys := WorkbenchKeyframe(sheet, view).value.1.hitboxes.Keys;
      var selected := SelectedHitboxes(sheet, r.value).value;
      assert forall h :: h in selected <==> h in keys;
      assert selected == keys;
    }
  }

  /**
   * With nothing selected, selecting all selects every keyframe of the
   * current animation, or fails when there is none.
   */
  lemma SelectAllKeyframes(sheet: Sheet, view: View)
    requires view.selection.frames.selected == {} && view.selection.animations.selected == {}
    requires view.selection.hitboxes.selected == {}
    ensures WorkbenchAnimation(sheet, view).Err? ==> AllSelected(sheet, view) == Err(WorkbenchAnimation(sheet, view).error)
    ensures WorkbenchAnimation(sheet, view).Ok? ==>
      var r := AllSelected(sheet, view);
      && r.Ok? && r.value.selection == EmptySelectionState.(keyframes := r.value.selection.keyframes)
      && forall k :: k in r.value.selection.keyframes.selected <==>
           k.animation == WorkbenchAnimation(sheet, view).value.0 && KeyframeExists(sheet, k.animation, k.direction, k.index)
  {
  }

  /** `SelectionState::clear`, as the clear-selection command applies it. */
  function SelectionCleared(view: View): (r: View)
    ensures r == view.(selection := r.selection)
    ensures r.selection.frames.selected == {} && r.selection.animations.selected == {}
    ensures r.selection.hitboxes.selected == {} && r.selection.keyframes.selected == {}
    ensures r.selection.frames.pivot.None? && r.selection.frames.lastInteracted.None?
    ensures r.selection.animations.pivot.None? && r.selection.animations.lastInteracted.None?
    ensures r.selection.hitboxes.pivot.None? && r.selection.hitboxes.lastInteracted.None?
    ensures r.selection.keyframes.pivot.None? && r.selection.keyframes.lastInteracted.None?
  {
    view.(selection := EmptySelectionState)
  }

  // ----- Browsing with the arrow keys -----

  /** In a pool without repeats, every item is found at its own position. */
  lemma IndexOfDistinct<T(!new)>(pool: seq<T>, j: nat)
    requires j < |pool| && forall a, b :: 0 <= a < b < |pool| ==> pool[a] != pool[b]
    ensures IndexOf(pool, pool[j]) == Some(j)
  {
  }

  /** In a pool without repeats, stepping `delta` places and then `-delta` places comes back. */
  lemma {:induction false} OffsetAndBack<T(!new)>(pool: seq<T>, from: T, delta: int)
    requires forall a, b :: 0 <= a < b < |pool| ==> pool[a] != pool[b]
    requires OffsetFrom(pool, Some(from), delta).Some?
    ensures OffsetFrom(pool, OffsetFrom(pool, Some(from), delta), -delta) == Some(from)
  {
    var i := IndexOf(pool, from).value;
    IndexOfDistinct(pool, i + delta);
  }

  /** `Document::browse_frames`: step from the last clicked frame through the sorted frames, laid out as the list mode shows them. */
  function FramesBrowsed(sheet: Sheet, view: View, browse: BrowseDirection, shift: bool): (r: View)
    ensures var target := OffsetFrom(SelectableFrames(sheet), view.selection.frames.lastInteracted,
                                     AsListOffset(browse, view.framesListMode));
      && (target.None? ==> r == view)
      && (target.Some? ==> && r == view.(selection := r.selection)
                           && HasFrame(sheet, target.value)
                           && r.selection.frames.lastInteracted == target
                           && (!shift ==> r.selection.frames == Selection(target, target, {target.value})))
  {
    var pool := SelectableFrames(sheet);
    match OffsetFrom(pool, view.selection.frames.lastInteracted, AsListOffset(browse, view.framesListMode))
    case None => view
    case Some(path) =>
      assert |Sources(sheet.frames)| > 0;
      FrameClicked(sheet, view, path, shift, false)
  }

  /**
   * Browsing down then up through the frames without shift comes back to the
   * frame clicked last, which is then the only one selected, pivot and last
   * clicked, whatever the list mode.
   */
  lemma FramesBrowseDownThenUp(sheet: Sheet, view: View)
    requires FramesBrowsed(sheet, view, BrowseDown, false) != view
    ensures view.selection.frames.lastInteracted.Some?
    ensures var p := view.selection.frames.lastInteracted.value;
      var back := FramesBrowsed(sheet, FramesBrowsed(sheet, view, BrowseDown, false), BrowseUp, false);
      back.selection.frames == Selection(Some(p), Some(p), {p})
  {
    var pool := SelectableFrames(sheet);
    var delta := AsListOffset(BrowseDown, view.framesListMode);
    var p := view.selection.frames.lastInteracted.value;
    var there := FramesBrowsed(sheet, view, BrowseDown, false);
    OffsetAndBack(pool, p, delta);
    assert AsListOffset(BrowseUp, there.framesListMode) == -delta;
  }

  /** `Document::browse_animations`: the same through the sorted animations, always laid out as a list. */
  function AnimationsBrowsed(sheet: Sheet, view: View, browse: BrowseDirection, shift: bool): (r: View)
    ensures var target := OffsetFrom(SelectableAnimations(sheet), view.selection.animations.lastInteracted,
                                     AsListOffset(browse, Linear));
      && (target.None? ==> r == view)
      && (target.Some? ==> && r == view.(selection := r.selection)
                           && target.value in sheet.animations
                           && r.selection.animations.lastInteracted == target
                           && (!shift ==> r.selection.animations.selected == {target.value}))
  {
    var pool := SelectableAnimations(sheet);
    match OffsetFrom(pool, view.selection.animations.lastInteracted, AsListOffset(browse, Linear))
    case None => view
    case Some(name) =>
      assert name in sheet.animations.Keys;
      AnimationClicked(sheet, view, name, shift, false)
  }

  /** `Document::browse_hitboxes`: step through the hitboxes of the keyframe under the clock, by name. */
  function HitboxesBrowsed(sheet: Sheet, view: View, browse: BrowseDirection, shift: bool): (r: (View, Result<(), DocumentError>))
    ensures WorkbenchKeyframe(sheet, view).Err? ==> r == (view, Err(WorkbenchKeyframe(sheet, view).error))
    ensures WorkbenchKeyframe(sheet, view).Ok? ==>
      var target := OffsetFrom(SelectableHitboxes(sheet, view).value, view.selection.hitboxes.lastInteracted,
                               AsListOffset(browse, Linear));
      && r.1.Ok?
      && (target.None? ==> r.0 == view)
      && (target.Some? ==> && r.0.selection.hitboxes.lastInteracted == target
                           && target.value.name in WorkbenchKeyframe(sheet, view).value.1.hitboxes
                           && (!shift ==> r.0.selection.hitboxes.selected == {target.value}))
  {
    match SelectableHitboxes(sheet, view)
    case Err(e) => (view, Err(e))
    case Ok(pool) =>
      match OffsetFrom(pool, view.selection.hitboxes.lastInteracted, AsListOffset(browse, Linear))
      case None => (view, Ok(()))
      case Some(h) => HitboxClicked(sheet, view, h.name, shift, false)
  }

  /** Where browsing the timeline starts: the keyframe clicked last, else the one under the clock. */
  function BrowseStart(view: View, name: string, slot: KeyframeSlot): KeyframeRef {
    view.selection.keyframes.lastInteracted.UnwrapOr(KeyframeRef(name, slot.0, slot.1))
  }

  /**
   * `Document::browse_keyframes` (shift held, nothing else selected): with no
   * keyframe clicked yet, the one under the clock is selected first; then
   * the keyframe next to the start (sideways in its sequence, up or down to
   * the nearest direction with a keyframe at the same time) is clicked,
   * and the clock moves to the start of that keyframe when it lies at or
   * before the pivot, else to the last millisecond of it. A pivot that no
   * longer exists fails after the click.
   */
  function KeyframesBrowsed(sheet: Sheet, view: View, browse: BrowseDirection, shift: bool): (r: (View, Result<(), DocumentError>))
    ensures WorkbenchKeyframe(sheet, view).Err? ==> r == (view, Err(WorkbenchKeyframe(sheet, view).error))
  {
    match WorkbenchKeyframe(sheet, view)
    case Err(e) => (view, Err(e))
    case Ok((slot, _)) =>
      var (name, animation) := WorkbenchAnimation(sheet, view).value;
      var from := BrowseStart(view, name, slot);
      var started := if view.selection.keyframes.lastInteracted.Some? then view
                     else SelectKeyframesOnly(view, [KeyframeRef(name, slot.0, slot.1)]);
      var pivot := started.selection.keyframes.pivot.UnwrapOr(from);
      match TimelineOffsetFrom(animation, Some(from), browse)
      case None => (started, Ok(()))
      case Some(to) => KeyframeBrowsedTo(sheet, started, animation, pivot, to, shift)
  }

  /** Where browsing the timeline puts the clock: at the start of the target when it lies at or before the pivot, else at its last millisecond. */
  function BrowseClock(target: TimeRange, pivotStart: nat): (t: nat)
    requires target.start <= target.end
    ensures target.start < target.end ==> target.start <= t < target.end
  {
    if target.start <= pivotStart then target.start else target.end - 1
  }

  /** The second half of `browse_keyframes`: click the keyframe `to`, then move the clock relative to the pivot. */
  function KeyframeBrowsedTo(sheet: Sheet, started: View, animation: Animation, pivot: KeyframeRef, to: KeyframeRef, shift: bool)
    : (r: (View, Result<(), DocumentError>))
    requires to.direction in animation.sequences && to.index < |animation.sequences[to.direction].keyframes|
    ensures var (clicked, result) := KeyframeClicked(sheet, started, to.direction, to.index, shift, false);
      && r.0 == clicked.(timelineClock := r.0.timelineClock)
      && (result.Ok? && r.1.Ok? ==>
            var target := TimeRanges(animation.sequences[to.direction])[to.index];
            target.start < target.end ==> target.start <= r.0.timelineClock < target.end)
  {
    var (clicked, result) := KeyframeClicked(sheet, started, to.direction, to.index, shift, false);
    if result.Err? then (clicked, result)
    else if pivot.direction !in animation.sequences then (clicked, Err(SequenceNotInAnimation(pivot.direction)))
    else
      var pivotRanges := TimeRanges(animation.sequences[pivot.direction]);
      if pivot.index >= |pivotRanges| then (clicked, Err(NoKeyframeAtIndex(pivot.index)))
      else
        var sequence := animation.sequences[to.direction];
        TimeRangesContiguous(sequence);
        (clicked.(timelineClock := BrowseClock(TimeRanges(sequence)[to.index], pivotRanges[pivot.index].start)), Ok(()))
  }

  /** Landing on a keyframe that lasts shows it, unless the pivot no longer exists. */
  lemma LandedKeyframeIsShown(sheet: Sheet, started: View, pivot: KeyframeRef, to: KeyframeRef, shift: bool)
    requires WorkbenchAnimation(sheet, started).Ok?
    requires var animation := WorkbenchAnimation(sheet, started).value.1;
      && to.direction in animation.sequences && to.index < |animation.sequences[to.direction].keyframes|
      && animation.sequences[to.direction].keyframes[to.index].durationMillis > 0
    ensures var (name, animation) := WorkbenchAnimation(sheet, started).value;
      var r := KeyframeBrowsedTo(sheet, started, animation, pivot, to, shift);
      && r.0.currentSequence == Some(to.direction)
      && r.0.selection.keyframes.lastInteracted == Some(KeyframeRef(name, to.direction, to.index))
      && (r.1.Ok? ==> WorkbenchKeyframe(sheet, r.0)
                      == Ok(((to.direction, to.index), animation.sequences[to.direction].keyframes[to.index])))
  {
    var (name, animation) := WorkbenchAnimation(sheet, started).value;
    var sequence := animation.sequences[to.direction];
    var r := KeyframeBrowsedTo(sheet, started, animation, pivot, to, shift);
    TimeRangesContiguous(sequence);
    if r.1.Ok? {
      IndexAtWithin(sequence, to.index, r.0.timelineClock);
      assert WorkbenchSequence(sheet, r.0) == Ok((to.direction, sequence));
    }
  }

  /**
   * Browsing the timeline to a keyframe that lasts shows that keyframe on
   * the workbench: it is the last clicked keyframe, its direction is current
   * and, unless the pivot no longer exists, the clock lies within it.
   */
  lemma BrowsedKeyframeIsShown(sheet: Sheet, view: View, browse: BrowseDirection, shift: bool)
    requires WorkbenchKeyframe(sheet, view).Ok?
    requires var (name, animation) := WorkbenchAnimation(sheet, view).value;
      var to := TimelineOffsetFrom(animation, Some(BrowseStart(view, name, WorkbenchKeyframe(sheet, view).value.0)), browse);
      to.Some? && animation.sequences[to.value.direction].keyframes[to.value.index].durationMillis > 0
    ensures var (name, animation) := WorkbenchAnimation(sheet, view).value;
      var to := TimelineOffsetFrom(animation, Some(BrowseStart(view, name, WorkbenchKeyframe(sheet, view).value.0)), browse).value;
      var r := KeyframesBrowsed(sheet, view, browse, shift);
      && r.0.currentSequence == Some(to.direction)
      && r.0.selection.keyframes.lastInteracted == Some(KeyframeRef(name, to.direction, to.index))
      && (r.1.Ok? ==> WorkbenchKeyframe(sheet, r.0)
                      == Ok(((to.direction, to.index), animation.sequences[to.direction].keyframes[to.index])))
  {
    var (name, animation) := WorkbenchAnimation(sheet, view).value;
    var slot := WorkbenchKeyframe(sheet, view).value.0;
    var from := BrowseStart(view, name, slot);
    var to := TimelineOffsetFrom(animation, Some(from), browse).value;
    var started := if view.selection.keyframes.lastInteracted.Some? then view
                   else SelectKeyframesOnly(view, [KeyframeRef(name, slot.0, slot.1)]);
    var pivot := started.selection.keyframes.pivot.UnwrapOr(from);
    ResolutionDependsOnCurrents(sheet, view, started);
    assert KeyframesBrowsed(sheet, view, browse, shift) == KeyframeBrowsedTo(sheet, started, animation, pivot, to, shift);
    LandedKeyframeIsShown(sheet, started, pivot, to, shift);
  }

  /**
   * `Document::browse_selection`: browse the first kind that has a
   * selection; with only keyframes (or nothing) selected, shift browses the
   * timeline's keyframes, and otherwise left and right jump to the previous
   * and next keyframe while up and down cycle through the directions.
   */
  function SelectionBrowsed(sheet: Sheet, view: View, browse: BrowseDirection, shift: bool): (View, Result<(), DocumentError>)
  {
    var s := view.selection;
    if s.frames.selected != {} then (FramesBrowsed(sheet, view, browse, shift), Ok(()))
    else if s.animations.selected != {} then (AnimationsBrowsed(sheet, view, browse, shift), Ok(()))
    else if s.hitboxes.selected != {} then HitboxesBrowsed(sheet, view, browse, shift)
    else if shift then KeyframesBrowsed(sheet, view, browse, shift)
    else match browse
      case BrowseLeft => Timeline.FrameJumped(sheet, view, false)
      case BrowseRight => Timeline.FrameJumped(sheet, view, true)
      case BrowseUp => Timeline.DirectionsCycled(sheet, view, false)
      case BrowseDown => Timeline.DirectionsCycled(sheet, view, true)
  }

  // ----- Browsing to either end -----

  /** The last item of a pool (`toEnd`) or its first. */
  function Edge<T>(pool: seq<T>, toEnd: bool): (r: T)
    requires |pool| > 0
    ensures r in pool
  {
    if toEnd then pool[|pool| - 1] else pool[0]
  }

  /**
   * `Document::browse_to_end` (`toEnd`) and `Document::browse_to_start`:
   * click the last (first) item of the first kind that has a selection;
   * with only keyframes (or nothing) selected, shift clicks the last (first)
   * keyframe of the current sequence, failing on an empty one, and otherwise
   * the clock jumps to the end (start) of the animation.
   */
  function BrowsedToEdge(sheet: Sheet, view: View, playing: bool, shift: bool, toEnd: bool): (View, Result<(), DocumentError>)
  {
    var s := view.selection;
    if s.frames.selected != {} then
      var pool := SelectableFrames(sheet);
      assert pool != [] ==> |Sources(sheet.frames)| > 0;
      (if pool == [] then view else FrameClicked(sheet, view, Edge(pool, toEnd), shift, false), Ok(()))
    else if s.animations.selected != {} then
      var pool := SelectableAnimations(sheet);
      assert pool != [] ==> Edge(pool, toEnd) in sheet.animations.Keys;
      (if pool == [] then view else AnimationClicked(sheet, view, Edge(pool, toEnd), shift, false), Ok(()))
    else if s.hitboxes.selected != {} then
      match SelectableHitboxes(sheet, view)
      case Err(e) => (view, Err(e))
      case Ok(pool) => if pool == [] then (view, Ok(())) else HitboxClicked(sheet, view, Edge(pool, toEnd).name, shift, false)
    else if shift then
      match WorkbenchSequence(sheet, view)
      case Err(e) => (view, Err(e))
      case Ok((direction, sequence)) =>
        if sequence.keyframes == [] then (view, Err(SequenceHasNoKeyframes))
        else KeyframeSelected(sheet, view, playing, direction, if toEnd then |sequence.keyframes| - 1 else 0, shift, false)
    else if toEnd then Timeline.JumpedToAnimationEnd(sheet, view)
    else Timeline.JumpedToAnimationStart(sheet, view)
  }

  /**
   * Home and end without shift, with frames selected, select exactly the
   * frame whose source sorts first or last.
   */
  lemma BrowseToEdgeSelectsExtremeFrame(sheet: Sheet, view: View, playing: bool, toEnd: bool)
    requires view.selection.frames.selected != {} && |sheet.frames| > 0
    ensures var r := BrowsedToEdge(sheet, view, playing, false, toEnd);
      && r.1.Ok?
      && exists p :: && HasFrame(sheet, p)
                     && r.0.selection.frames.selected == {p}
                     && forall q :: HasFrame(sheet, q) ==> (if toEnd then StrLe(q, p) else StrLe(p, q))
  {
    var pool := SelectableFrames(sheet);
    assert Sources(sheet.frames)[0] in pool;
    var p := Edge(pool, toEnd);
    forall q | HasFrame(sheet, q)
      ensures if toEnd then StrLe(q, p) else StrLe(p, q)
    {
      var k :| 0 <= k < |pool| && pool[k] == q;
      StrLeTotal(q, q);
    }
  }

  /**
   * Shift+end with nothing but keyframes selected, on a paused timeline,
   * clicks the last keyframe of the current sequence and moves the clock to
   * its start.
   */
  lemma BrowseToEndClicksLastKeyframe(sheet: Sheet, view: View)
    requires view.selection.frames.selected == {} && view.selection.animations.selected == {}
    requires view.selection.hitboxes.selected == {}
    requires WorkbenchSequence(sheet, view).Ok? && WorkbenchSequence(sheet, view).value.1.keyframes != []
    ensures var (direction, sequence) := WorkbenchSequence(sheet, view).value;
      var last := |sequence.keyframes| - 1;
      var r := BrowsedToEdge(sheet, view, false, true, true);
      && r.1.Ok?
      && r.0.selection.keyframes.lastInteracted == Some(KeyframeRef(view.currentAnimation.value, direction, last))
      && r.0.timelineClock == TimeRanges(sequence)[last].start
  {
    var (direction, sequence) := WorkbenchSequence(sheet, view).value;
    var (clicked, _) := KeyframeClicked(sheet, view, direction, |sequence.keyframes| - 1, true, false);
    ResolutionDependsOnCurrents(sheet, view, clicked);
  }

  // ----- Nudging -----

  /** How far `nudge_selection` moves things: one unit in the pressed direction, ten for a large nudge. */
  function NudgeDelta(nudge: Commands.NudgeDirection, large: bool): (r: Vec2)
    ensures var n := if large then 10 else 1;
      match nudge
      case NudgeUp => r == Vec2(0, -n)
      case NudgeDown => r == Vec2(0, n)
      case NudgeLeft => r == Vec2(-n, 0)
      case NudgeRight => r == Vec2(n, 0)
  {
    var unit := match nudge
      case NudgeUp => Vec2(0, -1)
      case NudgeDown => Vec2(0, 1)
      case NudgeLeft => Vec2(-1, 0)
      case NudgeRight => Vec2(1, 0);
    if large then Vec2(unit.x * 10, unit.y * 10) else unit
  }

  /** A keyframe's move by `delta`, hitboxes included. */
  function KeyframeNudge(delta: Vec2): Keyframe -> Keyframe {
    (k: Keyframe) => KeyframeEdits.NudgeKeyframe(k, k.offset.Plus(delta))
  }

  /** A hitbox's move by `delta`. */
  function HitboxNudge(delta: Vec2): Hitbox -> Hitbox {
    (h: Hitbox) => h.SetPosition(h.Position().Plus(delta))
  }

  /**
   * `Document::nudge_selection`: every selected keyframe of the current
   * animation moves (with its hitboxes) by the nudge, then every selected
   * hitbox of the keyframe under the clock does. Without a current animation
   * nothing moves; without a keyframe under the clock the keyframes have
   * moved when the failure is reported.
   */
  function SelectionNudged(sheet: Sheet, view: View, nudge: Commands.NudgeDirection, large: bool): (r: Outcome)
    ensures r.view == view
    ensures WorkbenchAnimation(sheet, view).Err? ==> r == Outcome(sheet, view, Err(WorkbenchAnimation(sheet, view).error))
  {
    var delta := NudgeDelta(nudge, large);
    match KeyframeEdits.EditSelectedKeyframes(sheet, view, KeyframeNudge(delta))
    case Err(e) => Outcome(sheet, view, Err(e))
    case Ok(moved) =>
      match KeyframeEdits.EditSelectedHitboxes(moved, view, HitboxNudge(delta))
      case Err(e) => Outcome(moved, view, Err(e))
      case Ok(after) => Outcome(after, view, Ok(()))
  }

  /** Editing the selected hitboxes leaves every keyframe of the sheet in place, at the same offset. */
  lemma HitboxEditKeepsOffsets(sheet: Sheet, view: View, g: Hitbox -> Hitbox, name: string)
    requires KeyframeEdits.EditSelectedHitboxes(sheet, view, g).Ok?
    ensures var r := KeyframeEdits.EditSelectedHitboxes(sheet, view, g).value;
      forall d: Direction, i: nat :: KeyframeExists(sheet, name, d, i) ==>
        && KeyframeExists(r, name, d, i)
        && r.animations[name].sequences[d].keyframes[i].offset == sheet.animations[name].sequences[d].keyframes[i].offset
  {
    var r := KeyframeEdits.EditSelectedHitboxes(sheet, view, g).value;
    var a := WorkbenchAnimation(sheet, view).value.0;
    var (slot, keyframe) := WorkbenchKeyframe(sheet, view).value;
    forall d: Direction, i: nat | KeyframeExists(sheet, name, d, i)
      ensures && KeyframeExists(r, name, d, i)
              && r.animations[name].sequences[d].keyframes[i].offset == sheet.animations[name].sequences[d].keyframes[i].offset
    {
      if name == a && d == slot.0 {
        assert r.animations[name].sequences[d].keyframes == sheet.animations[name].sequences[d].keyframes[slot.1 :=
          KeyframeEdits.MapHitboxes(keyframe, SelectedHitboxes(sheet, view).value, g)];
      }
    }
  }

  /**
   * After a nudge, every selected keyframe of the current animation sits at
   * its old offset plus the nudge, and every other keyframe at its old one,
   * whether or not the hitbox step then fails.
   */
  lemma NudgeMovesSelectedKeyframes(sheet: Sheet, view: View, nudge: Commands.NudgeDirection, large: bool)
    requires WorkbenchAnimation(sheet, view).Ok?
    ensures var name := WorkbenchAnimation(sheet, view).value.0;
      var r := SelectionNudged(sheet, view, nudge, large);
      forall d: Direction, i: nat :: KeyframeExists(sheet, name, d, i) ==>
        && KeyframeExists(r.sheet, name, d, i)
        && r.sheet.animations[name].sequences[d].keyframes[i].offset
           == var before := sheet.animations[name].sequences[d].keyframes[i].offset;
              if KeyframeRef(name, d, i) in view.selection.keyframes.selected then before.Plus(NudgeDelta(nudge, large)) else before
  {
    var name := WorkbenchAnimation(sheet, view).value.0;
    var delta := NudgeDelta(nudge, large);
    KeyframeEdits.EditSelectedKeyframesSpec(sheet, view, KeyframeNudge(delta));
    var moved := KeyframeEdits.EditSelectedKeyframes(sheet, view, KeyframeNudge(delta)).value;
    var after := KeyframeEdits.EditSelectedHitboxes(moved, view, HitboxNudge(delta));
    if after.Ok? {
      HitboxEditKeepsOffsets(moved, view, HitboxNudge(delta), name);
    }
  }

  // ----- Document commands -----

  /** `Document::select_frame`. */
  method SelectFrame(doc: Document, path: Path, shift: bool, ctrl: bool)
    requires shift ==> |doc.sheet.frames| > 0
    modifies doc
    ensures doc.view == FrameClicked(old(doc.sheet), old(doc.view), path, shift, ctrl)
    ensures doc.sheet == old(doc.sheet) && doc.transient == old(doc.transient)
    ensures doc.persistent == old(doc.persistent) && doc.KeepsHistory()
  {
    doc.view := FrameClicked(doc.sheet, doc.view, path, shift, ctrl);
  }

  /** `Document::select_animation`. */
  method SelectAnimation(doc: Document, name: string, shift: bool, ctrl: bool)
    requires shift ==> |doc.sheet.animations| > 0
    modifies doc
    ensures doc.view == AnimationClicked(old(doc.sheet), old(doc.view), name, shift, ctrl)
    ensures doc.sheet == old(doc.sheet) && doc.transient == old(doc.transient)
    ensures doc.persistent == old(doc.persistent) && doc.KeepsHistory()
  {
    doc.view := AnimationClicked(doc.sheet, doc.view, name, shift, ctrl);
  }

  /** `Document::select_keyframe`. */
  method SelectKeyframe(doc: Document, direction: Direction, index: nat, shift: bool, ctrl: bool)
    returns (r: Result<(), DocumentError>)
    modifies doc
    ensures (doc.view, r) == KeyframeSelected(old(doc.sheet), old(doc.view), old(doc.persistent.timelineIsPlaying),
                                              direction, index, shift, ctrl)
    ensures doc.sheet == old(doc.sheet) && doc.transient == old(doc.transient)
    ensures doc.persistent == old(doc.persistent) && doc.KeepsHistory()
  {
    var (view, result) := KeyframeSelected(doc.sheet, doc.view, doc.persistent.timelineIsPlaying, direction, index, shift, ctrl);
    doc.view := view;
    r := result;
  }

  /** `Document::select_hitbox`. */
  method SelectHitbox(doc: Document, name: string, shift: bool, ctrl: bool) returns (r: Result<(), DocumentError>)
    requires shift && WorkbenchKeyframe(doc.sheet, doc.view).Ok? ==> |WorkbenchKeyframe(doc.sheet, doc.view).value.1.hitboxes| > 0
    modifies doc
    ensures (doc.view, r) == HitboxClicked(old(doc.sheet), old(doc.view), name, shift, ctrl)
    ensures doc.sheet == old(doc.sheet) && doc.transient == old(doc.transient)
    ensures doc.persistent == old(doc.persistent) && doc.KeepsHistory()
  {
    var (view, result) := HitboxClicked(doc.sheet, doc.view, name, shift, ctrl);
    doc.view := view;
    r := result;
  }

  /** `Document::select_all`: on failure the selection is left as it was. */
  method SelectAll(doc: Document) returns (r: Result<(), DocumentError>)
    modifies doc
    ensures AllSelected(old(doc.sheet), old(doc.view)).Err? ==>
      r == Err(AllSelected(old(doc.sheet), old(doc.view)).error) && doc.view == old(doc.view)
    ensures AllSelected(old(doc.sheet), old(doc.view)).Ok? ==>
      r.Ok? && doc.view == AllSelected(old(doc.sheet), old(doc.view)).value
    ensures doc.sheet == old(doc.sheet) && doc.transient == old(doc.transient)
    ensures doc.persistent == old(doc.persistent) && doc.KeepsHistory()
  {
    var selected := AllSelected(doc.sheet, doc.view);
    if selected.Err? {
      return Err(selected.error);
    }
    doc.view := selected.value;
    return Ok(());
  }

  /** The clear-selection command. */
  method ClearSelection(doc: Document)
    modifies doc
    ensures doc.view == SelectionCleared(old(doc.view))
    ensures doc.sheet == old(doc.sheet) && doc.transient == old(doc.transient)
    ensures doc.persistent == old(doc.persistent) && doc.KeepsHistory()
  {
    doc.view := SelectionCleared(doc.view);
  }

  /** `Document::browse_selection`. */
  method BrowseSelection(doc: Document, browse: BrowseDirection, shift: bool) returns (r: Result<(), DocumentError>)
    modifies doc
    ensures (doc.view, r) == SelectionBrowsed(old(doc.sheet), old(doc.view), browse, shift)
    ensures doc.sheet == old(doc.sheet) && doc.transient == old(doc.transient)
    ensures doc.persistent == old(doc.persistent) && doc.KeepsHistory()
  {
    var (view, result) := SelectionBrowsed(doc.sheet, doc.view, browse, shift);
    doc.view := view;
    r := result;
  }

  /** `Document::browse_to_end` (`toEnd`) and `Document::browse_to_start`. */
  method BrowseToEdge(doc: Document, shift: bool, toEnd: bool) returns (r: Result<(), DocumentError>)
    modifies doc
    ensures (doc.view, r) == BrowsedToEdge(old(doc.sheet), old(doc.view), old(doc.persistent.timelineIsPlaying), shift, toEnd)
    ensures doc.sheet == old(doc.sheet) && doc.transient == old(doc.transient)
    ensures doc.persistent == old(doc.persistent) && doc.KeepsHistory()
  {
    var (view, result) := BrowsedToEdge(doc.sheet, doc.view, doc.persistent.timelineIsPlaying, shift, toEnd);
    doc.view := view;
    r := result;
  }

  /** `Document::nudge_selection`. */
  method NudgeSelection(doc: Document, nudge: Commands.NudgeDirection, large: bool) returns (r: Result<(), DocumentError>)
    modifies doc
    ensures Outcome(doc.sheet, doc.view, r) == SelectionNudged(old(doc.sheet), old(doc.view), nudge, large)
    ensures doc.transient == old(doc.transient) && doc.persistent == old(doc.persistent) && doc.KeepsHistory()
  {
    var outcome := SelectionNudged(doc.sheet, doc.view, nudge, large);
    doc.sheet := outcome.sheet;
    r := outcome.result;
  }

  /**
   * What `Document::delete_selection` does: delete the selected frames, then
   * the selected animations, then the selected keyframes (which can fail, and
   * pulls the clock back), then, unless that failed, the selected hitboxes.
   */
  ghost function SelectionDeleted(sheet: Sheet, view: View): Outcome {
    var withoutFrames := Content.FramesDeleted(sheet, view.selection.frames.selected);
    var withoutAnimations := withoutFrames.(animations := withoutFrames.animations - view.selection.animations.selected);
    var keyframes := Timeline.KeyframeDeletion(withoutAnimations, view);
    if keyframes.result.Err? then keyframes
    else Outcome(KeyframeEdits.HitboxesDeleted(keyframes.sheet, keyframes.view), keyframes.view, Ok(()))
  }

  /**
   * Whatever happens, the frames left are, in their order, exactly those
   * with an unselected source, and no selected animation is left; the
   * deletion fails only when the keyframe step does, and then leaves the
   * view as it was.
   */
  lemma SelectionDeletedSpec(sheet: Sheet, view: View)
    ensures var o := SelectionDeleted(sheet, view);
      && o.sheet.frames == Content.FramesOutside(sheet.frames, view.selection.frames.selected)
      && (forall f :: f in o.sheet.frames <==> f in sheet.frames && f.source !in view.selection.frames.selected)
      && o.sheet.animations.Keys <= sheet.animations.Keys - view.selection.animations.selected
      && (o.result.Err? ==> o.view == view)
  {
    var withoutFrames := Content.FramesDeleted(sheet, view.selection.frames.selected);
    var withoutAnimations := withoutFrames.(animations := withoutFrames.animations - view.selection.animations.selected);
    var keyframes := Timeline.KeyframeDeletion(withoutAnimations, view);
    assert keyframes.sheet.frames == withoutAnimations.frames;
    assert keyframes.sheet.animations.Keys <= withoutAnimations.animations.Keys;
    Content.FramesOutsideMembers(sheet.frames, view.selection.frames.selected);
  }

  /**
   * `Document::delete_selection`: the sheet, view and result are those of
   * `SelectionDeleted`.
   */
  method DeleteSelection(doc: Document) returns (r: Result<(), DocumentError>)
    modifies doc
    ensures Outcome(doc.sheet, doc.view, r) == SelectionDeleted(old(doc.sheet), old(doc.view))
    ensures doc.transient == old(doc.transient) && doc.persistent == old(doc.persistent) && doc.KeepsHistory()
  {
    ghost var sheet, view := doc.sheet, doc.view;
    Content.DeleteSelectedFrames(doc);
    Content.FramesRemovedIsFramesDeleted(sheet, doc.sheet, view.selection.frames.selected);
    Content.DeleteSelectedAnimations(doc);
    r := Timeline.DeleteSelectedKeyframes(doc);
    if r.Err? {
      return;
    }
    r := KeyframeEdits.DeleteSelectedHitboxes(doc);
  }

  /**
   * `Document::begin_rename_selection`: rename the animation clicked last,
   * else the hitbox clicked last, else do nothing.
   */
  method BeginRenameSelection(doc: Document)
    modifies doc
    ensures var s := old(doc.view.selection);
      doc.transient == old(doc.transient).(rename :=
        if s.animations.lastInteracted.Some? then Some(RenamingAnimation(s.animations.lastInteracted.value))
        else if s.hitboxes.lastInteracted.Some? then Some(RenamingHitbox(s.hitboxes.lastInteracted.value.name))
        else old(doc.transient.rename))
    ensures doc.sheet == old(doc.sheet) && doc.view == old(doc.view)
    ensures doc.persistent == old(doc.persistent) && doc.KeepsHistory()
  {
    var s := doc.view.selection;
    if s.animations.lastInteracted.Some? {
      Gestures.BeginRenameAnimation(doc, s.animations.lastInteracted.value);
    } else if s.hitboxes.lastInteracted.Some? {
      Gestures.BeginRenameHitbox(doc, s.hitboxes.lastInteracted.value.name);
    }
  }
}
