/**
 * The document of the intermediate engine (the files under state/document): the same
 * sheet and history as the older engine, a view that also holds the list
 * filters and the multi-kind selection of the newer one, and a single
 * transient gesture, the keyframe duration drag.
 *
 * The view is cloned into history entries and compared there with `==`, so
 * it is a value; the document is a class whose fields the operations
 * reassign.
 */
module StateDocuments {
  import opened Wrappers
  import opened Sheets
  import Selections
  import LegacySelections
  import LegacyViews
  import LegacyHistory
  import LegacyDocuments
  import Documents
  import Commands
  import Ordering
  import Timeline
  import Content
  import KeyframeEdits
  import ExportEditing

  type DocumentError = Documents.DocumentError
  type KeyframeSlot = Documents.KeyframeSlot
  type KeyframeRef = Selections.KeyframeRef
  type HitboxRef = Selections.HitboxRef
  type KeyframeDurationDrag = LegacyDocuments.KeyframeDurationDrag

  /** `SelectionItem`: a click on a frame, an animation, a hitbox of the current keyframe, or a keyframe of the current animation. */
  type SelectionItem = LegacyDocuments.SingleSelection

  // ----- The view -----

  /**
   * `View`. The workbench offset is an integer vector here (the source keeps
   * `f32` coordinates); the workbench zoom is an unsigned factor and the
   * timeline zoom the signed level of the older engine.
   */
  datatype View = View(
    contentTab: LegacyViews.ContentTab,
    selection: Selections.SelectionState,
    framesFilter: string,
    animationsFilter: string,
    currentAnimation: Option<string>,
    currentSequence: Option<Direction>,
    workbenchOffset: (int, int),
    timelineClock: nat,
    workbenchZoomLevel: nat,
    timelineZoomLevel: int,
    hideHitboxes: bool,
    darkenSprites: bool)
  {
    /** The zoom levels the view commands can reach from the default view. */
    predicate Valid() {
      1 <= workbenchZoomLevel <= 32 && LegacyViews.TimelineLevel(timelineZoomLevel)
    }

    function ZoomInWorkbench(): View {
      this.(workbenchZoomLevel := LegacyViews.ZoomInUnsigned(workbenchZoomLevel))
    }

    function ZoomOutWorkbench(): View {
      this.(workbenchZoomLevel := LegacyViews.ZoomOutUnsigned(workbenchZoomLevel))
    }

    function ResetWorkbenchZoom(): View {
      this.(workbenchZoomLevel := 1)
    }

    function CenterWorkbench(): View {
      this.(workbenchOffset := (0, 0))
    }

    function ZoomInTimeline(): View {
      this.(timelineZoomLevel := LegacyViews.ZoomInLevel(timelineZoomLevel, 4))
    }

    function ZoomOutTimeline(): View {
      this.(timelineZoomLevel := LegacyViews.ZoomOutLevel(timelineZoomLevel, -4))
    }

    function ResetTimelineZoom(): View {
      this.(timelineZoomLevel := 1)
    }

    function Pan(delta: (int, int)): View {
      this.(workbenchOffset := (workbenchOffset.0 + delta.0, workbenchOffset.1 + delta.1))
    }

    function SkipToTimelineStart(): View {
      this.(timelineClock := 0)
    }

    /** `is_frame_filtered_out`: some whitespace-separated term of the frames filter is missing from the path. */
    predicate IsFrameFilteredOut(frame: Path) {
      LegacyViews.IsFilteredOutCaseSensitive(framesFilter, frame)
    }

    /** `is_animation_filtered_out`, with the animations filter. */
    predicate IsAnimationFilteredOut(animation: string) {
      LegacyViews.IsFilteredOutCaseSensitive(animationsFilter, animation)
    }
  }

  /** `View::default()`: frames tab, nothing selected or edited, workbench zoom 8, timeline zoom 1, sprites darkened. */
  const DefaultView: View :=
    View(LegacyViews.Frames, Selections.EmptySelectionState, "", "", None, None, (0, 0), 0, 8, 1, false, true)

  /**
   * Every zoom step keeps both levels among the reachable ones and leaves
   * the other level alone; zooming the workbench out undoes zooming it in
   * below the cap, and panning back undoes a pan.
   */
  lemma ViewStepsKeepValid(v: View, delta: (int, int))
    requires v.Valid()
    ensures DefaultView.Valid()
    ensures v.ZoomInWorkbench().Valid() && v.ZoomOutWorkbench().Valid() && v.ResetWorkbenchZoom().Valid()
    ensures v.ZoomInTimeline().Valid() && v.ZoomOutTimeline().Valid() && v.ResetTimelineZoom().Valid()
    ensures v.ZoomInWorkbench().timelineZoomLevel == v.timelineZoomLevel
    ensures v.ZoomInTimeline().workbenchZoomLevel == v.workbenchZoomLevel
    ensures v.workbenchZoomLevel <= 16 ==> v.ZoomInWorkbench().ZoomOutWorkbench() == v
    ensures v.Pan(delta).Pan((-delta.0, -delta.1)) == v
  {
    LegacyViews.TimelineZoomKeepsLevels(v.timelineZoomLevel);
    LegacyViews.UnsignedZoomStaysInRange(v.workbenchZoomLevel);
  }

  /** The selected keyframes of the animation `name`, as slots of its sequences. */
  function SlotsOf(keyframes: Selections.Selection<KeyframeRef>, name: Option<string>): set<KeyframeSlot> {
    set k | k in keyframes.selected && Some(k.animation) == name :: (k.direction, k.index)
  }

  /**
   * The view as the older engine's lookups, playback and duration drag read
   * it: the same edited animation, direction and clock, and the selected
   * keyframes of the edited animation.
   */
  function AsLegacy(v: View): LegacyDocuments.View {
    LegacyViews.View(
      v.contentTab,
      LegacySelections.EmptySelection().(keyframes :=
        LegacySelections.IndexedSelection(None, SlotsOf(v.selection.keyframes, v.currentAnimation))),
      v.currentAnimation, v.currentSequence, v.workbenchOffset, v.timelineClock,
      v.workbenchZoomLevel, v.timelineZoomLevel)
  }

  /** `get_workbench_animation`. */
  function WorkbenchAnimation(sheet: Sheet, v: View): Result<(string, Animation), DocumentError> {
    LegacyDocuments.WorkbenchAnimation(sheet, AsLegacy(v))
  }

  /** `get_workbench_sequence`. */
  function WorkbenchSequence(sheet: Sheet, v: View): Result<(Direction, Sequence), DocumentError> {
    LegacyDocuments.WorkbenchSequence(sheet, AsLegacy(v))
  }

  /**
   * `get_workbench_keyframe`: the keyframe of the current sequence under the
   * playhead.
   */
  function WorkbenchKeyframe(sheet: Sheet, v: View): (r: Result<(KeyframeSlot, Keyframe), DocumentError>)
    ensures WorkbenchSequence(sheet, v).Err? ==> r == Err(WorkbenchSequence(sheet, v).error)
    ensures WorkbenchSequence(sheet, v).Ok? ==>
      (r.Err? <==> WorkbenchSequence(sheet, v).value.1.keyframes == [])
    ensures r.Err? && WorkbenchSequence(sheet, v).Ok? ==> r == Err(Documents.NoKeyframeAtTime(v.timelineClock))
    ensures r.Ok? ==>
      && v.currentAnimation.Some? && v.currentSequence == Some(r.value.0.0)
      && Documents.KeyframeExists(sheet, v.currentAnimation.value, r.value.0.0, r.value.0.1)
      && r.value.1 == sheet.animations[v.currentAnimation.value].sequences[r.value.0.0].keyframes[r.value.0.1]
      && Some(r.value.0.1) == KeyframeIndexAt(sheet.animations[v.currentAnimation.value].sequences[r.value.0.0], v.timelineClock)
  {
    var (d, sequence) :- WorkbenchSequence(sheet, v);
    match KeyframeAt(sequence, v.timelineClock)
    case None => Err(Documents.NoKeyframeAtTime(v.timelineClock))
    case Some((i, k)) => Ok(((d, i), k))
  }

  // ----- The selection -----

  /** `MultiSelectionData::only` on one kind, after `MultiSelection::clear`. */
  function KeyframeOnly(k: KeyframeRef): Selections.SelectionState {
    Selections.EmptySelectionState.(keyframes := Selections.Only([k]))
  }

  function AnimationOnly(name: string): Selections.SelectionState {
    Selections.EmptySelectionState.(animations := Selections.Only([name]))
  }

  function HitboxOnly(h: HitboxRef): Selections.SelectionState {
    Selections.EmptySelectionState.(hitboxes := Selections.Only([h]))
  }

  /**
   * Whether a keyframe occupying `range` overlaps the shift-selected span by
   * at least half its length, rounded down.
   */
  predicate OverlapsHalf(affected: TimeRange, range: TimeRange) {
    var lo := Selections.Max(affected.start, range.start);
    var hi := Selections.Min(affected.end, range.end);
    Selections.SaturatingSub(hi, lo) >= Selections.SaturatingSub(range.end, range.start) / 2
  }

  /** The pivot of a keyframe range: a pivot in another animation, or none, becomes the first keyframe of the first direction of the clicked keyframe's animation. */
  function Pivot(from: Option<KeyframeRef>, to: KeyframeRef): (r: KeyframeRef)
    ensures r.animation == to.animation
  {
    if from.Some? && from.value.animation == to.animation then from.value
    else Selections.KeyframeRef(to.animation, East, 0)
  }

  /** The keyframes among `refs` that overlap `affected` by half their length. */
  function OverlappingHalf(animation: Animation, refs: seq<KeyframeRef>, affected: TimeRange): (r: seq<KeyframeRef>)
    ensures forall x :: x in r <==>
      x in refs && OverlapsHalf(affected, Selections.RangeOrEmpty(animation, x.direction, x.index))
  {
    if refs == [] then []
    else
      var rest := OverlappingHalf(animation, refs[1..], affected);
      assert forall x :: x in refs <==> x == refs[0] || x in refs[1..];
      if OverlapsHalf(affected, Selections.RangeOrEmpty(animation, refs[0].direction, refs[0].index))
      then [refs[0]] + rest else rest
  }

  /**
   * `ItemPool::get_range` for the keyframes of an animation: the keyframes of
   * the directions between the pivot's and the clicked one's, in the
   * clicked keyframe's animation, that overlap the time span of both
   * endpoints by at least half their length.
   */
  function KeyframeRange(animation: Animation, from: Option<KeyframeRef>, to: KeyframeRef): seq<KeyframeRef> {
    OverlappingHalf(animation, Selections.KeyframeRange(animation, from, to),
                    Selections.AffectedTimes(animation, Pivot(from, to), to))
  }

  /**
   * A keyframe is in the range exactly when it is a keyframe of the
   * animation, in the clicked keyframe's animation, between the two
   * endpoints' directions, and overlapping their span by half; the range of
   * this engine is therefore the newer engine's minus the keyframes whose
   * overlap is the whole span but less than half their own length; the
   * clicked keyframe is always in it.
   */
  lemma KeyframeRangeSpec(animation: Animation, from: Option<KeyframeRef>, to: KeyframeRef)
    ensures var f := Pivot(from, to);
      var affected := Selections.AffectedTimes(animation, f, to);
      forall x :: x in KeyframeRange(animation, from, to) <==>
        && x.animation == to.animation
        && DirectionLe(if DirectionLe(f.direction, to.direction) then f.direction else to.direction, x.direction)
        && DirectionLe(x.direction, if DirectionLe(f.direction, to.direction) then to.direction else f.direction)
        && x.direction in animation.sequences
        && x.index < |animation.sequences[x.direction].keyframes|
        && OverlapsHalf(affected, TimeRanges(animation.sequences[x.direction])[x.index])
    ensures forall x :: x in KeyframeRange(animation, from, to) ==> x in Selections.KeyframeRange(animation, from, to)
    ensures to.direction in animation.sequences && to.index < |animation.sequences[to.direction].keyframes| ==>
      to in KeyframeRange(animation, from, to)
  {
    var f := Pivot(from, to);
    var affected := Selections.AffectedTimes(animation, f, to);
    forall x: KeyframeRef | x.direction in animation.sequences && x.index < |animation.sequences[x.direction].keyframes|
      ensures Selections.RangeOrEmpty(animation, x.direction, x.index) == TimeRanges(animation.sequences[x.direction])[x.index]
    {
      TimeRangesContiguous(animation.sequences[x.direction]);
    }
    if to.direction in animation.sequences && to.index < |animation.sequences[to.direction].keyframes| {
      Selections.KeyframeRangeContainsTarget(animation, from, to);
      TimeRangesContiguous(animation.sequences[to.direction]);
      var range := TimeRanges(animation.sequences[to.direction])[to.index];
      assert Selections.RangeOrEmpty(animation, to.direction, to.index) == range;
      assert OverlapsHalf(affected, range);
    }
  }

  /**
   * `ItemPoolTimeline::offset_from`: left and right step within the
   * pivot's sequence; up and down move to the nearest earlier or later
   * direction whose sequence has a keyframe at the playhead, without
   * wrapping around. Stepping left does not check the sequence exists.
   */
  function TimelineOffsetFrom(animation: Animation, from: Option<KeyframeRef>, browse: Selections.BrowseDirection, clock: nat)
    : (r: Option<KeyframeRef>)
    ensures r.Some? ==> from.Some? && r.value.animation == from.value.animation
    ensures browse == Selections.BrowseLeft && r.Some? ==>
      r.value.direction == from.value.direction && r.value.index + 1 == from.value.index
    ensures browse == Selections.BrowseRight && r.Some? ==>
      && r.value.direction == from.value.direction && r.value.index == from.value.index + 1
      && r.value.direction in animation.sequences && r.value.index < |animation.sequences[r.value.direction].keyframes|
    ensures browse == Selections.BrowseUp && r.Some? ==>
      && DirectionRank(r.value.direction) < DirectionRank(from.value.direction)
      && r.value.direction in animation.sequences
      && Some(r.value.index) == KeyframeIndexAt(animation.sequences[r.value.direction], clock)
    ensures browse == Selections.BrowseDown && r.Some? ==>
      && DirectionRank(r.value.direction) > DirectionRank(from.value.direction)
      && r.value.direction in animation.sequences
      && Some(r.value.index) == KeyframeIndexAt(animation.sequences[r.value.direction], clock)
  {
    if from.None? then None
    else
      var f := from.value;
      match browse
      case BrowseLeft => if f.index > 0 then Some(Selections.KeyframeRef(f.animation, f.direction, f.index - 1)) else None
      case BrowseRight =>
        if f.direction in animation.sequences && f.index + 1 < |animation.sequences[f.direction].keyframes|
        then Some(Selections.KeyframeRef(f.animation, f.direction, f.index + 1)) else None
      case BrowseUp => Selections.PreviousDirectionWithKeyframe(animation, f.animation, clock, DirectionRank(f.direction))
      case BrowseDown => Selections.NextDirectionWithKeyframe(animation, f.animation, clock, DirectionRank(f.direction) + 1)
  }

  /**
   * From an existing keyframe, browsing here agrees with the newer engine's
   * browsing whenever the playhead stands at the middle of that keyframe,
   * which is where the newer engine looks.
   */
  lemma TimelineOffsetAtMiddle(animation: Animation, from: KeyframeRef, browse: Selections.BrowseDirection)
    requires from.direction in animation.sequences && from.index < |animation.sequences[from.direction].keyframes|
    ensures var range := TimeRanges(animation.sequences[from.direction])[from.index];
      TimelineOffsetFrom(animation, Some(from), browse, (range.start + range.end) / 2)
        == Selections.TimelineOffsetFrom(animation, Some(from), browse)
  {
    TimeRangesContiguous(animation.sequences[from.direction]);
    var range := TimeRanges(animation.sequences[from.direction])[from.index];
    if browse.BrowseUp? {
      UpOffsetAtMiddle(animation, from, (range.start + range.end) / 2);
    } else if browse.BrowseDown? {
      DownOffsetAtMiddle(animation, from, (range.start + range.end) / 2);
    }
  }

  /** Browsing up, both engines look from the middle of the keyframe browsed from. */
  lemma UpOffsetAtMiddle(animation: Animation, from: KeyframeRef, reference: nat)
    requires from.direction in animation.sequences
    requires from.index < |TimeRanges(animation.sequences[from.direction])|
    requires var range := TimeRanges(animation.sequences[from.direction])[from.index];
      reference == (range.start + range.end) / 2
    ensures TimelineOffsetFrom(animation, Some(from), Selections.BrowseUp, reference)
        == Selections.TimelineOffsetFrom(animation, Some(from), Selections.BrowseUp)
  {
  }

  /** Browsing down, both engines look from the middle of the keyframe browsed from. */
  lemma DownOffsetAtMiddle(animation: Animation, from: KeyframeRef, reference: nat)
    requires from.direction in animation.sequences
    requires from.index < |TimeRanges(animation.sequences[from.direction])|
    requires var range := TimeRanges(animation.sequences[from.direction])[from.index];
      reference == (range.start + range.end) / 2
    ensures TimelineOffsetFrom(animation, Some(from), Selections.BrowseDown, reference)
        == Selections.TimelineOffsetFrom(animation, Some(from), Selections.BrowseDown)
  {
  }

  /** `MultiSelectionEdit`: the clicked item with the pool it is picked from. */
  datatype Edit =
    | FramesEdit(frame: Path, framePool: seq<Path>)
    | AnimationsEdit(animation: string, animationPool: seq<string>)
    | HitboxesEdit(hitbox: HitboxRef, hitboxPool: seq<HitboxRef>)
    | KeyframesEdit(keyframe: KeyframeRef, animationData: Animation)

  /** A shift-click on a list needs a non-empty pool: the source slices the pool and panics on an empty one. */
  predicate CanAlter(edit: Edit, shift: bool) {
    && (shift && edit.FramesEdit? ==> |edit.framePool| > 0)
    && (shift && edit.AnimationsEdit? ==> |edit.animationPool| > 0)
    && (shift && edit.HitboxesEdit? ==> |edit.hitboxPool| > 0)
  }

  /**
   * `MultiSelection::alter`: the kinds other than the edited one are
   * cleared, and the edited kind is altered by the click. A plain click
   * selects the item alone, and a shift-click on a keyframe selects only
   * keyframes of the clicked keyframe's animation, the clicked one included
   * when it exists.
   */
  function Altered(s: Selections.SelectionState, edit: Edit, shift: bool, ctrl: bool): (r: Selections.SelectionState)
    requires CanAlter(edit, shift)
    ensures !edit.FramesEdit? ==> r.frames == Selections.EmptySelection()
    ensures !edit.AnimationsEdit? ==> r.animations == Selections.EmptySelection()
    ensures !edit.HitboxesEdit? ==> r.hitboxes == Selections.EmptySelection()
    ensures !edit.KeyframesEdit? ==> r.keyframes == Selections.EmptySelection()
    ensures edit.FramesEdit? ==> r.frames.lastInteracted == Some(edit.frame)
    ensures edit.AnimationsEdit? ==> r.animations.lastInteracted == Some(edit.animation)
    ensures edit.HitboxesEdit? ==> r.hitboxes.lastInteracted == Some(edit.hitbox)
    ensures edit.KeyframesEdit? ==> r.keyframes.lastInteracted == Some(edit.keyframe)
    ensures !shift && !ctrl ==>
      && (edit.FramesEdit? ==> r.frames.selected == {edit.frame})
      && (edit.AnimationsEdit? ==> r.animations.selected == {edit.animation})
      && (edit.HitboxesEdit? ==> r.hitboxes.selected == {edit.hitbox})
      && (edit.KeyframesEdit? ==> r.keyframes.selected == {edit.keyframe})
    ensures edit.KeyframesEdit? && shift && !ctrl ==>
      && (forall x :: x in r.keyframes.selected ==> x.animation == edit.keyframe.animation)
      && (edit.keyframe.direction in edit.animationData.sequences
          && edit.keyframe.index < |edit.animationData.sequences[edit.keyframe.direction].keyframes|
          ==> edit.keyframe in r.keyframes.selected)
  {
    var e := Selections.EmptySelectionState;
    match edit
    case FramesEdit(item, pool) =>
      e.(frames := Selections.Alter(s.frames, item, if shift then Selections.ListRange(pool, s.frames.pivot, item) else [], shift, ctrl))
    case AnimationsEdit(item, pool) =>
      e.(animations := Selections.Alter(s.animations, item, if shift then Selections.ListRange(pool, s.animations.pivot, item) else [], shift, ctrl))
    case HitboxesEdit(item, pool) =>
      e.(hitboxes := Selections.Alter(s.hitboxes, item, if shift then Selections.ListRange(pool, s.hitboxes.pivot, item) else [], shift, ctrl))
    case KeyframesEdit(item, animation) =>
      KeyframeRangeSpec(animation, s.keyframes.pivot, item);
      e.(keyframes := Selections.Alter(s.keyframes, item, KeyframeRange(animation, s.keyframes.pivot, item), shift, ctrl))
  }

  /** `selectable_frames`: the sources of the sheet's frames, in order. */
  function FramePool(sheet: Sheet): seq<Path> {
    LegacyDocuments.FramePool(sheet)
  }

  /** `selectable_animations`: the animation names, in name order. */
  function AnimationPool(sheet: Sheet): seq<string> {
    Ordering.Ascending(sheet.animations.Keys)
  }

  /** `selectable_hitboxes`: the hitboxes of the current keyframe, in name order. */
  function HitboxPool(animation: string, slot: KeyframeSlot, keyframe: Keyframe): (r: seq<HitboxRef>)
    ensures |r| == |keyframe.hitboxes.Keys|
    ensures forall h :: h in r <==>
      h.animation == animation && h.direction == slot.0 && h.index == slot.1 && h.name in keyframe.hitboxes
  {
    var names := Ordering.Ascending(keyframe.hitboxes.Keys);
    var r := seq(|names|, k requires 0 <= k < |names| => Selections.HitboxRef(animation, slot.0, slot.1, names[k]));
    assert forall name :: name in keyframe.hitboxes ==> Selections.HitboxRef(animation, slot.0, slot.1, name) in r by {
      forall name | name in keyframe.hitboxes
        ensures Selections.HitboxRef(animation, slot.0, slot.1, name) in r
      {
        var k :| 0 <= k < |names| && names[k] == name;
        assert r[k] == Selections.HitboxRef(animation, slot.0, slot.1, name);
      }
    }
    r
  }

  /** The start of a keyframe of a sequence, or 0 past its end: `keyframe_times().get(i)` with a default. */
  function KeyframeStart(sequence: Sequence, index: nat): nat {
    var times := KeyframeTimes(sequence);
    if index < |times| then times[index] else 0
  }

  /**
   * When a click can be carried out without the source panicking: a
   * shift-click on a frame, an animation or a hitbox needs items of that
   * kind to pick a range from.
   */
  predicate CanSelect(sheet: Sheet, v: View, item: SelectionItem, shift: bool) {
    && (shift && item.FrameItem? ==> |sheet.frames| > 0)
    && (shift && item.AnimationItem? ==> sheet.animations.Keys != {})
    && (shift && item.HitboxItem? && WorkbenchKeyframe(sheet, v).Ok? ==>
          WorkbenchKeyframe(sheet, v).value.1.hitboxes.Keys != {})
  }

  /**
   * `select_item`, as the view it leaves and its outcome. A click on a
   * keyframe first makes its direction the current one and, unless the
   * timeline plays, moves the playhead to the keyframe's start; these stay
   * even when the lookup that follows fails.
   *
   * What a click does: frames and animations are always selectable; a
   * hitbox click fails, changing nothing, when there is no keyframe under
   * the playhead, with the lookup's error; a keyframe click fails when its
   * direction is not a sequence of the edited animation, having already
   * made it current. A plain click selects the item alone, clearing every
   * other kind, and a click on a keyframe names the edited animation.
   */
  function SelectedItem(sheet: Sheet, v: View, playing: bool, item: SelectionItem, shift: bool, ctrl: bool)
    : (r: (View, Result<(), DocumentError>))
    requires CanSelect(sheet, v, item, shift)
    ensures var (after, res) := r;
      && (item.FrameItem? || item.AnimationItem? ==> res.Ok?)
      && (item.HitboxItem? ==> (res.Err? <==> WorkbenchKeyframe(sheet, v).Err?))
      && (item.HitboxItem? && res.Err? ==> after == v && res == Err(WorkbenchKeyframe(sheet, v).error))
      && (item.KeyframeItem? ==> after.currentSequence == Some(item.direction))
      && (item.KeyframeItem? ==> (res.Err? <==> WorkbenchSequence(sheet, v.(currentSequence := Some(item.direction))).Err?))
      && (item.KeyframeItem? && res.Ok? && !playing ==>
            after.timelineClock == KeyframeStart(sheet.animations[v.currentAnimation.value].sequences[item.direction], item.index))
      && (res.Ok? && !shift && !ctrl ==>
            && (item.FrameItem? ==> after.selection == Selections.EmptySelectionState.(frames := after.selection.frames)
                                    && after.selection.frames.selected == {item.frame})
            && (item.AnimationItem? ==> after.selection == Selections.EmptySelectionState.(animations := after.selection.animations)
                                        && after.selection.animations.selected == {item.animation})
            && (item.KeyframeItem? ==>
                  && after.selection == Selections.EmptySelectionState.(keyframes := after.selection.keyframes)
                  && after.selection.keyframes.selected
                     == {Selections.KeyframeRef(v.currentAnimation.value, item.direction, item.index)}))
  {
    match item
    case FrameItem(frame) =>
      (v.(selection := Altered(v.selection, FramesEdit(frame, FramePool(sheet)), shift, ctrl)), Ok(()))
    case AnimationItem(name) =>
      (v.(selection := Altered(v.selection, AnimationsEdit(name, AnimationPool(sheet)), shift, ctrl)), Ok(()))
    case HitboxItem(hitbox) =>
      (match WorkbenchKeyframe(sheet, v)
       case Err(e) => (v, Err(e))
       case Ok((slot, keyframe)) =>
         var h := Selections.HitboxRef(v.currentAnimation.value, slot.0, slot.1, hitbox);
         (v.(selection := Altered(v.selection, HitboxesEdit(h, HitboxPool(h.animation, slot, keyframe)), shift, ctrl)), Ok(())))
    case KeyframeItem(direction, index) =>
      var focused := v.(currentSequence := Some(direction));
      match WorkbenchSequence(sheet, focused)
      case Err(e) => (focused, Err(e))
      case Ok((_, sequence)) =>
        var timed := if playing then focused else focused.(timelineClock := KeyframeStart(sequence, index));
        var name := timed.currentAnimation.value;
        var k := Selections.KeyframeRef(name, direction, index);
        (timed.(selection := Altered(timed.selection, KeyframesEdit(k, sheet.animations[name]), shift, ctrl)), Ok(()))
  }

  // ----- Editing animations -----

  /**
   * The view `edit_animation` leaves: the named animation is current, the
   * workbench centred and the clock at 0; the direction and the selection
   * stay. Nothing checks that the sheet has the animation: a missing one
   * shows up at the next lookup.
   */
  function EditedView(sheet: Sheet, v: View, name: string): (r: View)
    ensures r.currentAnimation == Some(name) && r.timelineClock == 0 && r.workbenchOffset == (0, 0)
    ensures r.currentSequence == v.currentSequence && r.selection == v.selection
    ensures name in sheet.animations ==> WorkbenchAnimation(sheet, r) == Ok((name, sheet.animations[name]))
    ensures name !in sheet.animations ==> WorkbenchAnimation(sheet, r) == Err(Documents.AnimationNotInDocument(name))
  {
    v.(currentAnimation := Some(name)).CenterWorkbench().SkipToTimelineStart()
  }

  /** `rename_animation` on the view: the new name is the only selection, and the edited animation follows the rename. */
  function RenamedView(v: View, oldName: string, newName: string): (r: View)
    ensures r.selection == AnimationOnly(newName)
    ensures v.currentAnimation == Some(oldName) ==> r.currentAnimation == Some(newName)
    ensures v.currentAnimation != Some(oldName) ==> r.currentAnimation == v.currentAnimation
  {
    v.(selection := AnimationOnly(newName),
       currentAnimation := if v.currentAnimation == Some(oldName) then Some(newName) else v.currentAnimation)
  }

  /** Renaming keeps the workbench on the same animation, whichever was edited. */
  lemma RenameKeepsWorkbench(sheet: Sheet, v: View, oldName: string, newName: string)
    requires Sheets.RenameAnimation(sheet, oldName, newName).Ok?
    requires WorkbenchAnimation(sheet, v).Ok?
    ensures var renamed := Sheets.RenameAnimation(sheet, oldName, newName).value;
      var after := WorkbenchAnimation(renamed, RenamedView(v, oldName, newName));
      after.Ok? && after.value.1 == WorkbenchAnimation(sheet, v).value.1
  {
  }

  /**
   * `delete_animation` changes the sheet alone: when the deleted animation
   * was the edited one, the workbench no longer resolves, failing with the
   * deleted name.
   */
  lemma DeleteLeavesWorkbenchDangling(sheet: Sheet, v: View, name: string)
    requires v.currentAnimation == Some(name)
    ensures WorkbenchAnimation(Sheets.DeleteAnimation(sheet, name), v) == Err(Documents.AnimationNotInDocument(name))
  {
  }

  /** The animation `create_animation` inserts: empty, with the four-directions preset applied. */
  const CreatedAnimation: Animation := Sheets.ApplyDirectionPreset(EmptyAnimation, FourDirections)

  /** The created animation has an empty sequence for each of the four directions, and does not loop. */
  lemma CreatedAnimationShape()
    ensures CreatedAnimation.sequences.Keys == PresetDirections(FourDirections)
    ensures forall d :: d in CreatedAnimation.sequences ==> CreatedAnimation.sequences[d] == Sequence([])
    ensures !CreatedAnimation.isLooping
  {
  }

  /** `set_animation_looping` on the edited animation. */
  function LoopingSet(sheet: Sheet, v: View, looping: bool): (r: Result<Sheet, DocumentError>)
    ensures WorkbenchAnimation(sheet, v).Err? <==> r.Err?
    ensures r.Err? ==> r == Err(WorkbenchAnimation(sheet, v).error)
    ensures r.Ok? ==> var name := v.currentAnimation.value;
      && r.value.frames == sheet.frames && r.value.exportSettings == sheet.exportSettings
      && r.value.animations.Keys == sheet.animations.Keys
      && r.value.animations[name].isLooping == looping
      && r.value.animations[name].sequences == sheet.animations[name].sequences
      && forall n :: n in sheet.animations && n != name ==> r.value.animations[n] == sheet.animations[n]
  {
    var (name, animation) :- WorkbenchAnimation(sheet, v);
    Ok(sheet.(animations := sheet.animations[name := animation.(isLooping := looping)]))
  }

  /** `apply_direction_preset` on the edited animation; the current direction is left as it was. */
  function PresetApplied(sheet: Sheet, v: View, preset: DirectionPreset): (r: Result<Sheet, DocumentError>)
    ensures WorkbenchAnimation(sheet, v).Err? <==> r.Err?
    ensures r.Err? ==> r == Err(WorkbenchAnimation(sheet, v).error)
    ensures r.Ok? ==> var name := v.currentAnimation.value;
      && r.value.frames == sheet.frames && r.value.animations.Keys == sheet.animations.Keys
      && r.value.animations[name].sequences.Keys == PresetDirections(preset)
      && r.value.animations[name].isLooping == sheet.animations[name].isLooping
      && forall n :: n in sheet.animations && n != name ==> r.value.animations[n] == sheet.animations[n]
  {
    var (name, animation) :- WorkbenchAnimation(sheet, v);
    Ok(sheet.(animations := sheet.animations[name := Sheets.ApplyDirectionPreset(animation, preset)]))
  }

  // ----- The timeline -----

  /**
   * `play`, once the timeline is known to be paused: it needs a current
   * sequence, and the clock goes back to the start when it sits at or past
   * the end of a sequence of positive duration. Unlike the older engine,
   * the selection stays.
   */
  function Played(sheet: Sheet, v: View): (r: Result<View, DocumentError>)
    ensures WorkbenchSequence(sheet, v).Err? <==> r.Err?
    ensures r.Err? ==> r == Err(WorkbenchSequence(sheet, v).error)
    ensures r.Ok? ==> r.value == v.(timelineClock := r.value.timelineClock)
    ensures r.Ok? ==> var d := DurationMillis(WorkbenchSequence(sheet, v).value.1);
      && (d.Some? && d.value > 0 ==> r.value.timelineClock < d.value)
      && (d.None? || d.value == 0 || v.timelineClock < d.value ==> r.value == v)
  {
    var (_, sequence) :- WorkbenchSequence(sheet, v);
    var d := DurationMillis(sequence);
    if d.Some? && d.value > 0 && v.timelineClock >= d.value then Ok(v.SkipToTimelineStart()) else Ok(v)
  }

  /** `scrub_timeline`: the clock moves to the time, clamped to the current sequence. */
  function Scrubbed(sheet: Sheet, v: View, time: nat): (r: Result<View, DocumentError>)
    ensures WorkbenchSequence(sheet, v).Err? <==> r.Err?
    ensures r.Err? ==> r == Err(WorkbenchSequence(sheet, v).error)
    ensures r.Ok? ==> r.value == v.(timelineClock := r.value.timelineClock)
    ensures r.Ok? ==> var sequence := WorkbenchSequence(sheet, v).value.1;
      && (sequence.keyframes == [] ==> r.value.timelineClock == 0)
      && (sequence.keyframes != [] ==> r.value.timelineClock == Selections.Min(time, TotalMillis(sequence.keyframes)))
  {
    var (_, sequence) :- WorkbenchSequence(sheet, v);
    Ok(v.(timelineClock := Timeline.ScrubbedClock(sequence, time)))
  }

  /**
   * The view `begin_drag_keyframe_duration` drags from: the dragged
   * keyframe of the edited animation is selected alone unless it already
   * is selected.
   */
  function DragView(v: View, name: string, slot: KeyframeSlot): (r: View)
    ensures Selections.KeyframeRef(name, slot.0, slot.1) in r.selection.keyframes.selected
    ensures Selections.KeyframeRef(name, slot.0, slot.1) in v.selection.keyframes.selected ==> r == v
    ensures r == v.(selection := r.selection)
  {
    var k := Selections.KeyframeRef(name, slot.0, slot.1);
    if k in v.selection.keyframes.selected then v else v.(selection := KeyframeOnly(k))
  }

  /**
   * A drag begun on a keyframe of the edited animation notes the duration
   * of that keyframe among the others selected, and an update that follows
   * at once finds every original duration it needs.
   */
  lemma DragBeginsOnFocus(sheet: Sheet, v: View, slot: KeyframeSlot, deltaMillis: int)
    requires WorkbenchAnimation(sheet, v).Ok?
    ensures var (name, animation) := WorkbenchAnimation(sheet, v).value;
      var dragged := AsLegacy(DragView(v, name, slot));
      var begun := LegacyDocuments.BegunDrag(sheet, dragged, slot);
      && begun.Ok?
      && (Timeline.SlotExists(animation, slot) ==> slot in begun.value.originalDurations)
      && LegacyDocuments.DragUpdated(sheet, dragged, Some(begun.value), deltaMillis).1 == Ok(())
  {
    var (name, animation) := WorkbenchAnimation(sheet, v).value;
    var dv := DragView(v, name, slot);
    var dragged := AsLegacy(dv);
    assert LegacyDocuments.WorkbenchAnimation(sheet, dragged) == WorkbenchAnimation(sheet, v);
    assert slot in dragged.selection.keyframes.selected by {
      assert Selections.KeyframeRef(name, slot.0, slot.1) in dv.selection.keyframes.selected;
    }
    LegacyDocuments.BegunDragCoversSelection(sheet, dragged, slot, deltaMillis);
  }

  /**
   * `begin_drag_keyframe_duration`, as the view and the drag it leaves: it
   * needs an edited animation, then the dragged keyframe is selected
   * unless it already is, and the duration of every selected keyframe of
   * the animation is noted.
   */
  function DragBegun(sheet: Sheet, v: View, slot: KeyframeSlot): (r: Result<(View, KeyframeDurationDrag), DocumentError>)
    ensures WorkbenchAnimation(sheet, v).Err? <==> r.Err?
    ensures r.Err? ==> r == Err(WorkbenchAnimation(sheet, v).error)
  {
    var (name, _) :- WorkbenchAnimation(sheet, v);
    var dragged := DragView(v, name, slot);
    DragBeginsOnFocus(sheet, v, slot, 0);
    Ok((dragged, LegacyDocuments.BegunDrag(sheet, AsLegacy(dragged), slot).value))
  }

  /**
   * What `begin_drag_keyframe_duration` leaves: on failure nothing changes
   * and the error is returned; on success the view and the drag begun.
   */
  function DragOutcome(sheet: Sheet, v: View, drag: Option<KeyframeDurationDrag>, slot: KeyframeSlot)
    : (r: (Result<(), DocumentError>, View, Option<KeyframeDurationDrag>))
    ensures DragBegun(sheet, v, slot).Err? ==> r == (Err(DragBegun(sheet, v, slot).error), v, drag)
    ensures DragBegun(sheet, v, slot).Ok? ==>
      r == (Ok(()), DragBegun(sheet, v, slot).value.0, Some(DragBegun(sheet, v, slot).value.1))
  {
    match DragBegun(sheet, v, slot)
    case Err(e) => (Err(e), v, drag)
    case Ok((after, begun)) => (Ok(()), after, Some(begun))
  }

  /**
   * The drag begun holds the dragged keyframe, and the duration of the
   * dragged keyframe when it exists; an update right after it finds every
   * duration it needs.
   */
  lemma DragBegunSpec(sheet: Sheet, v: View, slot: KeyframeSlot, deltaMillis: int)
    requires DragBegun(sheet, v, slot).Ok?
    ensures var (name, animation) := WorkbenchAnimation(sheet, v).value;
      var (after, drag) := DragBegun(sheet, v, slot).value;
      && after == DragView(v, name, slot)
      && drag.frameBeingDragged == slot
      && (Timeline.SlotExists(animation, slot) ==> slot in drag.originalDurations)
      && LegacyDocuments.DragUpdated(sheet, AsLegacy(after), Some(drag), deltaMillis).1 == Ok(())
  {
    DragBeginsOnFocus(sheet, v, slot, deltaMillis);
  }

  // ----- Hitboxes of the current keyframe -----

  /** The sheet holds `keyframe` at `slot` of animation `name`. */
  predicate HoldsKeyframe(sheet: Sheet, name: string, slot: KeyframeSlot, keyframe: Keyframe) {
    && Documents.KeyframeExists(sheet, name, slot.0, slot.1)
    && sheet.animations[name].sequences[slot.0].keyframes[slot.1] == keyframe
  }

  /**
   * `rename_hitbox` on the keyframe under the playhead: the keyframe's
   * rename, then the renamed hitbox becomes the only selection.
   */
  function HitboxRenamed(sheet: Sheet, v: View, oldName: string, newName: string)
    : (r: Result<(Sheet, View), DocumentError>)
    ensures WorkbenchKeyframe(sheet, v).Err? ==> r == Err(WorkbenchKeyframe(sheet, v).error)
    ensures WorkbenchKeyframe(sheet, v).Ok? ==>
      var ((d, i), keyframe) := WorkbenchKeyframe(sheet, v).value;
      var name := v.currentAnimation.value;
      var renamed := Sheets.RenameHitbox(keyframe, oldName, newName);
      && (r.Err? <==> renamed.Err?)
      && (r.Err? ==> r == Err(Documents.SheetFailure(renamed.error)))
      && (r.Ok? ==>
            && r.value.0.animations.Keys == sheet.animations.Keys
            && HoldsKeyframe(r.value.0, name, (d, i), renamed.value)
            && (forall n :: n in sheet.animations && n != name ==> r.value.0.animations[n] == sheet.animations[n])
            && r.value.1 == v.(selection := HitboxOnly(Selections.HitboxRef(name, d, i, newName))))
  {
    var ((d, i), keyframe) :- WorkbenchKeyframe(sheet, v);
    var name := v.currentAnimation.value;
    match Sheets.RenameHitbox(keyframe, oldName, newName)
    case Err(e) => Err(Documents.SheetFailure(e))
    case Ok(renamed) =>
      Ok((KeyframeEdits.WithKeyframe(sheet, name, (d, i), renamed),
          v.(selection := HitboxOnly(Selections.HitboxRef(name, d, i, newName)))))
  }

  /**
   * `delete_hitbox` on the keyframe under the playhead: the hitbox is gone
   * from that keyframe and every other hitbox stays. The selection is left
   * as it was.
   */
  function HitboxDeleted(sheet: Sheet, v: View, hitbox: string): (r: Result<Sheet, DocumentError>)
    ensures WorkbenchKeyframe(sheet, v).Err? <==> r.Err?
    ensures r.Err? ==> r == Err(WorkbenchKeyframe(sheet, v).error)
    ensures r.Ok? ==>
      var ((d, i), keyframe) := WorkbenchKeyframe(sheet, v).value;
      var name := v.currentAnimation.value;
      && r.value.animations.Keys == sheet.animations.Keys
      && HoldsKeyframe(r.value, name, (d, i), Sheets.DeleteHitbox(keyframe, hitbox))
      && (forall n :: n in sheet.animations && n != name ==> r.value.animations[n] == sheet.animations[n])
  {
    var ((d, i), keyframe) :- WorkbenchKeyframe(sheet, v);
    Ok(KeyframeEdits.WithKeyframe(sheet, v.currentAnimation.value, (d, i), Sheets.DeleteHitbox(keyframe, hitbox)))
  }

  // ----- State outside history, and the export dialog -----

  /** `Persistent`: the saved version, the close request, playback, and the export settings being edited. */
  datatype Persistent = Persistent(
    diskVersion: int,
    closeRequested: bool,
    timelineIsPlaying: bool,
    exportSettingsEdit: Option<ExportSettings>)

  const DefaultPersistent: Persistent := Persistent(0, false, false, None)

  /** `begin_export_as`: edit a copy of the sheet's settings, or of the defaults when it has none. */
  function BeganExportAs(sheet: Sheet, p: Persistent): (r: Persistent)
    ensures r.exportSettingsEdit.Some?
    ensures sheet.exportSettings.Some? ==> r.exportSettingsEdit == sheet.exportSettings
    ensures sheet.exportSettings.None? ==> r.exportSettingsEdit == Some(DefaultExportSettings)
    ensures r.(exportSettingsEdit := p.exportSettingsEdit) == p
  {
    p.(exportSettingsEdit := Some(sheet.exportSettings.UnwrapOr(DefaultExportSettings)))
  }

  /** The four setters of the dialog: change one path of the copy; outside the dialog they fail and change nothing. */
  function ExportPathSet(p: Persistent, which: ExportEditing.ExportPath, path: Path): (r: Result<Persistent, DocumentError>)
    ensures p.exportSettingsEdit.None? <==> r.Err?
    ensures r.Err? ==> r == Err(Documents.NotEditingExportSettings)
    ensures r.Ok? ==> r.value == p.(exportSettingsEdit :=
      Some(Liquid(ExportEditing.WithPath(p.exportSettingsEdit.value.settings, which, path))))
  {
    match p.exportSettingsEdit
    case None => Err(Documents.NotEditingExportSettings)
    case Some(Liquid(settings)) => Ok(p.(exportSettingsEdit := Some(Liquid(ExportEditing.WithPath(settings, which, path)))))
  }

  /** `validate_export_settings`: one verdict per path of the copy; fails outside the dialog. */
  function ExportSettingsValidated(fs: ExportEditing.FileSystem, p: Persistent)
    : (r: Result<ExportEditing.TemplateExportSettingsValidation, DocumentError>)
    ensures p.exportSettingsEdit.None? <==> r.Err?
    ensures r.Err? ==> r == Err(Documents.NotEditingExportSettings)
    ensures r.Ok? ==> r.value == ExportEditing.ValidateTemplateExportSettings(fs, p.exportSettingsEdit.value.settings)
  {
    match p.exportSettingsEdit
    case None => Err(Documents.NotEditingExportSettings)
    case Some(Liquid(settings)) => Ok(ExportEditing.ValidateTemplateExportSettings(fs, settings))
  }

  /**
   * `end_export_as`: the copy goes into the sheet and the dialog closes.
   * It fails, changing nothing, only outside the dialog: this engine does
   * not check that the paths are absolute.
   */
  function EndedExportAs(sheet: Sheet, p: Persistent): (r: Result<(Sheet, Persistent), DocumentError>)
    ensures p.exportSettingsEdit.None? <==> r.Err?
    ensures r.Err? ==> r == Err(Documents.NotEditingExportSettings)
    ensures r.Ok? ==> r.value == (sheet.(exportSettings := p.exportSettingsEdit), p.(exportSettingsEdit := None))
  {
    match p.exportSettingsEdit
    case None => Err(Documents.NotEditingExportSettings)
    case Some(settings) => Ok((sheet.(exportSettings := Some(settings)), p.(exportSettingsEdit := None)))
  }

  /**
   * Opening the dialog and confirming it at once always succeeds, and
   * leaves the sheet with settings: its own, or the defaults (whose empty
   * paths the newer engine refuses). Changing one path in between stores
   * that path.
   */
  lemma ExportDialogRoundTrip(sheet: Sheet, p: Persistent, which: ExportEditing.ExportPath, path: Path)
    ensures var ended := EndedExportAs(sheet, BeganExportAs(sheet, p));
      && ended.Ok?
      && ended.value.0 == sheet.(exportSettings := Some(sheet.exportSettings.UnwrapOr(DefaultExportSettings)))
      && ended.value.1 == p.(exportSettingsEdit := None)
    ensures var began := BeganExportAs(sheet, p);
      var edited := ExportPathSet(began, which, path);
      && edited.Ok?
      && var ended := EndedExportAs(sheet, edited.value);
         ended.Ok? && ended.value.0.exportSettings.Some?
         && ended.value.0.exportSettings.value.settings
            == ExportEditing.WithPath(began.exportSettingsEdit.value.settings, which, path)
  {
  }

  // ----- Commands -----

  /**
   * `Command`: every command of this engine. Durations are milliseconds;
   * vectors of `f32` are integer pairs and a timeline zoom amount an
   * integer.
   */
  datatype Command =
    | Undo
    | Redo
    | FocusContentTab(tab: LegacyViews.ContentTab)
    | FilterFrames(filter: string)
    | FilterAnimations(filter: string)
    | ImportFrames(paths: seq<Path>)
    | DeleteSelectedFrames
    | ClearSelection
    | AlterSelection(item: SelectionItem, shift: bool, ctrl: bool)
    | Pan(delta: (int, int))
    | CenterWorkbench
    | ZoomInWorkbench
    | ZoomOutWorkbench
    | SetWorkbenchZoomFactor(factor: nat)
    | ResetWorkbenchZoom
    | EnableSpriteDarkening
    | DisableSpriteDarkening
    | HideSprite
    | ShowSprite
    | HideHitboxes
    | ShowHitboxes
    | HideOrigin
    | ShowOrigin
    | CreateAnimation
    | EditAnimation(name: string)
    | RenameAnimation(oldName: string, newName: string)
    | DeleteAnimation(name: string)
    | DeleteSelectedAnimations
    | Tick(deltaMillis: nat)
    | Play
    | Pause
    | ScrubTimeline(timeMillis: nat)
    | JumpToAnimationStart
    | JumpToAnimationEnd
    | JumpToPreviousFrame
    | JumpToNextFrame
    | ZoomInTimeline
    | ZoomOutTimeline
    | SetTimelineZoomAmount(amount: int)
    | ResetTimelineZoom
    | SetAnimationLooping(looping: bool)
    | ApplyDirectionPreset(preset: DirectionPreset)
    | SelectDirection(direction: Direction)
    | BeginDragAndDropFrame(frame: Path)
    | DropFrameOnTimeline(direction: Direction, index: nat)
    | EndDragAndDropFrame
    | DeleteSelectedKeyframes
    | BeginDragAndDropKeyframe(direction: Direction, index: nat)
    | DropKeyframeOnTimeline(direction: Direction, index: nat)
    | EndDragAndDropKeyframe
    | BeginDragKeyframeDuration(direction: Direction, index: nat)
    | UpdateDragKeyframeDuration(dragMillis: int)
    | EndDragKeyframeDuration
    | BeginNudgeKeyframe(direction: Direction, index: nat)
    | UpdateNudgeKeyframe(displacement: Vec2, bothAxis: bool)
    | EndNudgeKeyframe
    | CreateHitbox(position: Option<Vec2>)
    | RenameHitbox(oldName: string, newName: string)
    | DeleteHitbox(name: string)
    | DeleteSelectedHitboxes
    | LockHitboxes
    | UnlockHitboxes
    | SetHitboxPositionX(x: int)
    | SetHitboxPositionY(y: int)
    | SetHitboxWidth(width: nat)
    | SetHitboxHeight(height: nat)
    | BeginNudgeHitbox(name: string)
    | UpdateNudgeHitbox(displacement: Vec2, bothAxis: bool)
    | EndNudgeHitbox
    | BeginResizeHitbox(name: string, axis: Commands.ResizeAxis)
    | UpdateResizeHitbox(displacement: Vec2, preserveAspectRatio: bool)
    | EndResizeHitbox
    | BeginExportAs
    | SetExportTemplateFile(path: Path)
    | SetExportTextureFile(path: Path)
    | SetExportMetadataFile(path: Path)
    | SetExportMetadataPathsRoot(path: Path)
    | CancelExportAs
    | EndExportAs

  /** The commands that begin or continue a gesture: they neither end the gesture nor enter history. */
  predicate SkipsRecording(c: Command) {
    || c.Tick? || c.BeginDragAndDropFrame? || c.BeginDragAndDropKeyframe?
    || c.BeginDragKeyframeDuration? || c.UpdateDragKeyframeDuration?
    || c.BeginNudgeKeyframe? || c.UpdateNudgeKeyframe?
    || c.BeginNudgeHitbox? || c.UpdateNudgeHitbox?
    || c.BeginResizeHitbox? || c.UpdateResizeHitbox?
  }

  /** The commands that only set fields of the view. */
  predicate IsViewCommand(c: Command) {
    || c.FocusContentTab? || c.FilterFrames? || c.FilterAnimations? || c.ClearSelection?
    || c.Pan? || c.CenterWorkbench? || c.ZoomInWorkbench? || c.ZoomOutWorkbench? || c.ResetWorkbenchZoom?
    || c.EnableSpriteDarkening? || c.DisableSpriteDarkening? || c.HideHitboxes? || c.ShowHitboxes?
    || c.ZoomInTimeline? || c.ZoomOutTimeline? || c.ResetTimelineZoom?
  }

  /**
   * The effect of a view command on the view: the zoom levels stay among
   * the reachable ones, and what the workbench edits and the playhead
   * stay.
   */
  function ViewCommandEffect(v: View, c: Command): (r: View)
    requires IsViewCommand(c)
    ensures v.Valid() ==> r.Valid()
    ensures r.currentAnimation == v.currentAnimation && r.currentSequence == v.currentSequence
    ensures r.timelineClock == v.timelineClock
  {
    assert v.Valid() ==>
      && v.ZoomInWorkbench().Valid() && v.ZoomOutWorkbench().Valid() && v.ResetWorkbenchZoom().Valid()
      && v.ZoomInTimeline().Valid() && v.ZoomOutTimeline().Valid() && v.ResetTimelineZoom().Valid()
    by {
      if v.Valid() {
        ViewStepsKeepValid(v, (0, 0));
      }
    }
    if c.FocusContentTab? then v.(contentTab := c.tab)
    else if c.FilterFrames? then v.(framesFilter := c.filter)
    else if c.FilterAnimations? then v.(animationsFilter := c.filter)
    else if c.ClearSelection? then v.(selection := Selections.EmptySelectionState)
    else if c.Pan? then v.Pan(c.delta)
    else if c.CenterWorkbench? then v.CenterWorkbench()
    else if c.ZoomInWorkbench? then v.ZoomInWorkbench()
    else if c.ZoomOutWorkbench? then v.ZoomOutWorkbench()
    else if c.ResetWorkbenchZoom? then v.ResetWorkbenchZoom()
    else if c.EnableSpriteDarkening? then v.(darkenSprites := true)
    else if c.DisableSpriteDarkening? then v.(darkenSprites := false)
    else if c.HideHitboxes? then v.(hideHitboxes := true)
    else if c.ShowHitboxes? then v.(hideHitboxes := false)
    else if c.ZoomInTimeline? then v.ZoomInTimeline()
    else if c.ZoomOutTimeline? then v.ZoomOutTimeline()
    else v.ResetTimelineZoom()
  }

  /** The commands that end a gesture and do nothing else. */
  predicate IsGestureEnd(c: Command) {
    c.EndDragAndDropFrame? || c.EndDragAndDropKeyframe? || c.EndDragKeyframeDuration?
    || c.EndNudgeKeyframe? || c.EndNudgeHitbox? || c.EndResizeHitbox?
  }

  /** The commands that edit the sheet's content, the selection, or what the workbench edits. */
  predicate IsContentCommand(c: Command) {
    || c.ImportFrames? || c.DeleteSelectedFrames? || c.AlterSelection?
    || c.CreateAnimation? || c.EditAnimation? || c.RenameAnimation? || c.DeleteAnimation?
    || c.SetAnimationLooping? || c.ApplyDirectionPreset? || c.RenameHitbox? || c.DeleteHitbox?
  }

  /** The commands of the timeline and of the duration drag. */
  predicate IsTimelineCommand(c: Command) {
    c.Tick? || c.Play? || c.Pause? || c.ScrubTimeline? || c.BeginDragKeyframeDuration? || c.UpdateDragKeyframeDuration?
  }

  /** The commands of the export dialog. */
  predicate IsExportCommand(c: Command) {
    || c.BeginExportAs? || c.SetExportTemplateFile? || c.SetExportTextureFile?
    || c.SetExportMetadataFile? || c.SetExportMetadataPathsRoot? || c.CancelExportAs? || c.EndExportAs?
  }

  /** The commands this model carries out. */
  predicate IsModelled(c: Command) {
    c.Undo? || c.Redo? || IsViewCommand(c) || IsGestureEnd(c) || IsContentCommand(c)
    || IsTimelineCommand(c) || IsExportCommand(c)
  }

  /** The commands whose operation can fail. */
  predicate Fallible(c: Command) {
    || c.AlterSelection? || c.RenameAnimation? || c.SetAnimationLooping? || c.ApplyDirectionPreset?
    || c.RenameHitbox? || c.DeleteHitbox? || c.Play? || c.ScrubTimeline?
    || c.BeginDragKeyframeDuration? || c.UpdateDragKeyframeDuration?
    || c.SetExportTemplateFile? || c.SetExportTextureFile? || c.SetExportMetadataFile?
    || c.SetExportMetadataPathsRoot? || c.EndExportAs?
  }

  /** Which path an export setter changes. */
  function ExportPathOf(c: Command): ExportEditing.ExportPath
    requires c.SetExportTemplateFile? || c.SetExportTextureFile? || c.SetExportMetadataFile? || c.SetExportMetadataPathsRoot?
  {
    if c.SetExportTemplateFile? then ExportEditing.TemplateFile
    else if c.SetExportTextureFile? then ExportEditing.TextureFile
    else if c.SetExportMetadataFile? then ExportEditing.MetadataFile
    else ExportEditing.MetadataPathsRoot
  }

  // ----- What each command does -----

  /** The parts of the document a command may change, history aside. */
  datatype State = State(sheet: Sheet, view: View, drag: Option<KeyframeDurationDrag>, persistent: Persistent)

  /** An operation that yields a new sheet or an error: on error nothing changes, otherwise only the sheet. */
  predicate SheetEdited(s: State, t: State, r: Result<(), DocumentError>, e: Result<Sheet, DocumentError>) {
    match e
    case Err(error) => r == Err(error) && t == s
    case Ok(sheet) => r == Ok(()) && t == s.(sheet := sheet)
  }

  /** An operation that yields a new view or an error: on error nothing changes, otherwise only the view. */
  predicate ViewEdited(s: State, t: State, r: Result<(), DocumentError>, e: Result<View, DocumentError>) {
    match e
    case Err(error) => r == Err(error) && t == s
    case Ok(view) => r == Ok(()) && t == s.(view := view)
  }

  /** `create_animation` added `CreatedAnimation` under the fresh name `name`, selected it alone and edits it, paused. */
  predicate AnimationCreated(s: State, t: State, name: string) {
    && name !in s.sheet.animations
    && t.sheet == s.sheet.(animations := s.sheet.animations[name := CreatedAnimation])
    && t == s.(sheet := t.sheet,
               view := EditedView(t.sheet, s.view.(selection := AnimationOnly(name)), name),
               persistent := s.persistent.(timelineIsPlaying := false))
  }

  /** What a content command does to the state `s`, leaving `t` and the result `r`. */
  ghost predicate ContentEffect(c: Command, s: State, t: State, r: Result<(), DocumentError>)
    requires IsContentCommand(c)
  {
    if c.ImportFrames? then r == Ok(()) && t == s.(sheet := Sheets.FramesAdded(s.sheet, c.paths))
    else if c.DeleteSelectedFrames? then
      r == Ok(()) && t == s.(sheet := t.sheet) && Content.FramesRemoved(s.sheet, t.sheet, s.view.selection.frames.selected)
    else if c.AlterSelection? then
      && CanSelect(s.sheet, s.view, c.item, c.shift)
      && (t.view, r) == SelectedItem(s.sheet, s.view, s.persistent.timelineIsPlaying, c.item, c.shift, c.ctrl)
      && t == s.(view := t.view)
    else if c.CreateAnimation? then r == Ok(()) && exists name :: AnimationCreated(s, t, name)
    else if c.EditAnimation? then
      r == Ok(()) && t == s.(view := EditedView(s.sheet, s.view, c.name), persistent := s.persistent.(timelineIsPlaying := false))
    else if c.RenameAnimation? then
      match Sheets.RenameAnimation(s.sheet, c.oldName, c.newName)
      case Err(e) => r == Err(Documents.SheetFailure(e)) && t == s
      case Ok(sheet) => r == Ok(()) && t == s.(sheet := sheet, view := RenamedView(s.view, c.oldName, c.newName))
    else if c.DeleteAnimation? then r == Ok(()) && t == s.(sheet := Sheets.DeleteAnimation(s.sheet, c.name))
    else if c.SetAnimationLooping? then SheetEdited(s, t, r, LoopingSet(s.sheet, s.view, c.looping))
    else if c.ApplyDirectionPreset? then SheetEdited(s, t, r, PresetApplied(s.sheet, s.view, c.preset))
    else if c.RenameHitbox? then
      match HitboxRenamed(s.sheet, s.view, c.oldName, c.newName)
      case Err(e) => r == Err(e) && t == s
      case Ok(edited) => r == Ok(()) && t == s.(sheet := edited.0, view := edited.1)
    else SheetEdited(s, t, r, HitboxDeleted(s.sheet, s.view, c.name))
  }

  /** What a timeline command does to the state `s`, leaving `t` and the result `r`. */
  predicate TimelineEffect(c: Command, s: State, t: State, r: Result<(), DocumentError>)
    requires IsTimelineCommand(c)
  {
    if c.Tick? then
      var (after, playing) := LegacyDocuments.Advanced(s.sheet, AsLegacy(s.view), s.persistent.timelineIsPlaying, c.deltaMillis);
      r == Ok(()) && t == s.(view := s.view.(timelineClock := after.timelineClock),
                             persistent := s.persistent.(timelineIsPlaying := playing))
    else if c.Play? then
      if s.persistent.timelineIsPlaying then r == Ok(()) && t == s
      else match Played(s.sheet, s.view)
        case Err(e) => r == Err(e) && t == s
        case Ok(view) => r == Ok(()) && t == s.(view := view, persistent := s.persistent.(timelineIsPlaying := true))
    else if c.Pause? then r == Ok(()) && t == s.(persistent := s.persistent.(timelineIsPlaying := false))
    else if c.ScrubTimeline? then ViewEdited(s, t, r, Scrubbed(s.sheet, s.view, c.timeMillis))
    else if c.BeginDragKeyframeDuration? then
      && (r, t.view, t.drag) == DragOutcome(s.sheet, s.view, s.drag, (c.direction, c.index))
      && t == s.(view := t.view, drag := t.drag)
    else
      && (t.sheet, r) == LegacyDocuments.DragUpdated(s.sheet, AsLegacy(s.view), s.drag, c.dragMillis)
      && t == s.(sheet := t.sheet)
  }

  /** What a command of the export dialog does to the state `s`, leaving `t` and the result `r`. */
  predicate ExportEffect(c: Command, s: State, t: State, r: Result<(), DocumentError>)
    requires IsExportCommand(c)
  {
    if c.BeginExportAs? then r == Ok(()) && t == s.(persistent := BeganExportAs(s.sheet, s.persistent))
    else if c.CancelExportAs? then r == Ok(()) && t == s.(persistent := s.persistent.(exportSettingsEdit := None))
    else if c.EndExportAs? then
      match EndedExportAs(s.sheet, s.persistent)
      case Err(_) => r == Err(Documents.NotEditingExportSettings) && t == s
      case Ok(ended) => r == Ok(()) && t == s.(sheet := ended.0, persistent := ended.1)
    else
      match ExportPathSet(s.persistent, ExportPathOf(c), c.path)
      case Err(_) => r == Err(Documents.NotEditingExportSettings) && t == s
      case Ok(persistent) => r == Ok(()) && t == s.(persistent := persistent)
  }

  /**
   * What a modelled command other than undo and redo does to the state `s`,
   * leaving `t` and the result `r`: the effect of its group, and nothing for
   * the commands that only end a gesture.
   */
  ghost predicate CommandEffect(c: Command, s: State, t: State, r: Result<(), DocumentError>) {
    && IsModelled(c) && !c.Undo? && !c.Redo?
    && if IsViewCommand(c) then r == Ok(()) && t == s.(view := ViewCommandEffect(s.view, c))
       else if IsContentCommand(c) then ContentEffect(c, s, t, r)
       else if IsTimelineCommand(c) then TimelineEffect(c, s, t, r)
       else if IsExportCommand(c) then ExportEffect(c, s, t, r)
       else r == Ok(()) && t == s
  }

  // ----- The document -----

  type History = LegacyHistory.Log<Command, Sheet, View>

  class Document {
    const path: Path
    var sheet: Sheet
    var view: View
    /** `Transient`: a keyframe duration drag in progress, if any. */
    var drag: Option<KeyframeDurationDrag>
    var persistent: Persistent
    var history: History

    /** The history is well formed, and a version it holds always stands for one sheet. */
    ghost predicate Valid()
      reads this
    {
      history.Valid() && LegacyHistory.VersionsNameSheets(history)
    }

    /** A new document: an empty sheet, the default view, and a history of that one state at version 0. */
    constructor (path: Path)
      ensures Valid()
      ensures this.path == path && sheet == EmptySheet && view == DefaultView
      ensures drag == None && persistent == DefaultPersistent
      ensures history == LegacyHistory.Started(EmptySheet, DefaultView)
    {
      this.path := path;
      sheet := EmptySheet;
      view := DefaultView;
      drag := None;
      persistent := DefaultPersistent;
      history := LegacyHistory.Started(EmptySheet, DefaultView);
    }

    /** The state a command may change. */
    function Snapshot(): State
      reads this
    {
      State(sheet, view, drag, persistent)
    }

    function Version(): int
      requires Valid()
      reads this
    {
      history.Version()
    }

    /** `is_saved`: the disk holds the version under the history cursor. */
    predicate IsSaved()
      requires Valid()
      reads this
    {
      persistent.diskVersion == Version()
    }

    method MarkAsSaved(savedVersion: int)
      modifies this
      ensures persistent == old(persistent).(diskVersion := savedVersion)
      ensures sheet == old(sheet) && view == old(view) && drag == old(drag) && history == old(history)
    {
      persistent := persistent.(diskVersion := savedVersion);
    }

    // ----- History -----

    /** `undo`: step back in history, restoring its sheet and view and pausing, unless at the first entry. */
    method Undo()
      requires Valid()
      modifies this
      ensures Valid() && history == LegacyHistory.Undone(old(history))
      ensures old(history.index) > 0 ==>
        && sheet == history.Current().sheet && view == history.Current().view
        && persistent == old(persistent).(timelineIsPlaying := false)
      ensures old(history.index) == 0 ==> sheet == old(sheet) && view == old(view) && persistent == old(persistent)
      ensures drag == old(drag)
    {
      if history.index > 0 {
        history := LegacyHistory.Undone(history);
        sheet := history.Current().sheet;
        view := history.Current().view;
        persistent := persistent.(timelineIsPlaying := false);
      }
    }

    /** `redo`: step forward in history, restoring its sheet and view and pausing, unless at the last entry. */
    method Redo()
      requires Valid()
      modifies this
      ensures Valid() && history == LegacyHistory.Redone(old(history))
      ensures old(history.index) < |old(history.entries)| - 1 ==>
        && sheet == history.Current().sheet && view == history.Current().view
        && persistent == old(persistent).(timelineIsPlaying := false)
      ensures old(history.index) == |old(history.entries)| - 1 ==>
        sheet == old(sheet) && view == old(view) && persistent == old(persistent)
      ensures drag == old(drag)
    {
      if history.index < |history.entries| - 1 {
        history := LegacyHistory.Redone(history);
        sheet := history.Current().sheet;
        view := history.Current().view;
        persistent := persistent.(timelineIsPlaying := false);
      }
    }

    /** `record_command`, with a pushed view-only entry keeping the version of its sheet. */
    method RecordCommand(command: Command)
      requires Valid()
      modifies this
      ensures Valid() && history == LegacyHistory.RecordedIntended(old(history), command, sheet, view)
      ensures history.Current().sheet == sheet && history.Current().view == view
      ensures sheet == old(sheet) && view == old(view) && drag == old(drag) && persistent == old(persistent)
    {
      LegacyHistory.RecordedIntendedKeepsVersions(history, command, sheet, view);
      LegacyHistory.RecordedReflectsDocument(history, command, sheet, view);
      history := LegacyHistory.RecordedIntended(history, command, sheet, view);
    }

    // ----- Content -----

    /** `delete_selected_frames`: every selected frame leaves the sheet, with the keyframes showing it. */
    method DeleteSelectedFrames()
      modifies this
      ensures Content.FramesRemoved(old(sheet), sheet, old(view.selection.frames.selected))
      ensures view == old(view) && drag == old(drag) && persistent == old(persistent) && history == old(history)
    {
      var selected := view.selection.frames.selected;
      var remaining := selected;
      ghost var deleted: set<Path> := {};
      Content.FramesRemovedNothing(sheet);
      while remaining != {}
        invariant Content.FramesRemoved(old(sheet), sheet, deleted)
        invariant deleted + remaining == selected && deleted !! remaining
        invariant view == old(view) && drag == old(drag) && persistent == old(persistent) && history == old(history)
        decreases remaining
      {
        var frame :| frame in remaining;
        Content.FramesRemovedStep(old(sheet), sheet, deleted, frame);
        sheet := DeleteFrame(sheet, frame);
        deleted := deleted + {frame};
        remaining := remaining - {frame};
      }
    }

    /** `edit_animation`: the named animation is edited from its start, centred and paused. */
    method EditAnimation(name: string) returns (r: Result<(), DocumentError>)
      modifies this
      ensures r == Ok(()) && view == EditedView(old(sheet), old(view), name)
      ensures persistent == old(persistent).(timelineIsPlaying := false)
      ensures sheet == old(sheet) && drag == old(drag) && history == old(history)
    {
      view := EditedView(sheet, view, name);
      persistent := persistent.(timelineIsPlaying := false);
      return Ok(());
    }

    /** `create_animation`: a new animation with the four directions, under a fresh name, selected alone and edited. */
    method CreateAnimation() returns (name: string, r: Result<(), DocumentError>)
      modifies this
      ensures r == Ok(())
      ensures name !in old(sheet.animations)
      ensures sheet == old(sheet).(animations := old(sheet.animations)[name := CreatedAnimation])
      ensures view == EditedView(sheet, old(view).(selection := AnimationOnly(name)), name)
      ensures persistent == old(persistent).(timelineIsPlaying := false)
      ensures drag == old(drag) && history == old(history)
    {
      var created;
      name, created := Sheets.CreateAnimation(sheet);
      sheet := created.(animations := created.animations[name := CreatedAnimation]);
      view := view.(selection := AnimationOnly(name));
      r := EditAnimation(name);
    }

    /** `rename_animation`: the sheet's rename, then the selection and the edited animation follow. */
    method RenameAnimation(oldName: string, newName: string) returns (r: Result<(), DocumentError>)
      modifies this
      ensures Sheets.RenameAnimation(old(sheet), oldName, newName).Err? ==>
        && r == Err(Documents.SheetFailure(Sheets.RenameAnimation(old(sheet), oldName, newName).error))
        && sheet == old(sheet) && view == old(view)
      ensures Sheets.RenameAnimation(old(sheet), oldName, newName).Ok? ==>
        && r == Ok(())
        && sheet == Sheets.RenameAnimation(old(sheet), oldName, newName).value
        && view == RenamedView(old(view), oldName, newName)
      ensures drag == old(drag) && persistent == old(persistent) && history == old(history)
    {
      var renamed := Sheets.RenameAnimation(sheet, oldName, newName);
      if renamed.Err? {
        return Err(Documents.SheetFailure(renamed.error));
      }
      sheet := renamed.value;
      view := RenamedView(view, oldName, newName);
      return Ok(());
    }

    /** `delete_animation`: the animation leaves the sheet; the view is left as it was. */
    method DeleteAnimation(name: string)
      modifies this
      ensures sheet == Sheets.DeleteAnimation(old(sheet), name)
      ensures view == old(view) && drag == old(drag) && persistent == old(persistent) && history == old(history)
    {
      sheet := Sheets.DeleteAnimation(sheet, name);
    }

    /** `set_animation_looping`. */
    method SetAnimationLooping(looping: bool) returns (r: Result<(), DocumentError>)
      modifies this
      ensures LoopingSet(old(sheet), old(view), looping).Err? ==>
        r == Err(LoopingSet(old(sheet), old(view), looping).error) && sheet == old(sheet)
      ensures LoopingSet(old(sheet), old(view), looping).Ok? ==>
        r == Ok(()) && sheet == LoopingSet(old(sheet), old(view), looping).value
      ensures view == old(view) && drag == old(drag) && persistent == old(persistent) && history == old(history)
    {
      var changed := LoopingSet(sheet, view, looping);
      if changed.Err? {
        return Err(changed.error);
      }
      sheet := changed.value;
      return Ok(());
    }

    /** `apply_direction_preset`. */
    method ApplyDirectionPreset(preset: DirectionPreset) returns (r: Result<(), DocumentError>)
      modifies this
      ensures PresetApplied(old(sheet), old(view), preset).Err? ==>
        r == Err(PresetApplied(old(sheet), old(view), preset).error) && sheet == old(sheet)
      ensures PresetApplied(old(sheet), old(view), preset).Ok? ==>
        r == Ok(()) && sheet == PresetApplied(old(sheet), old(view), preset).value
      ensures view == old(view) && drag == old(drag) && persistent == old(persistent) && history == old(history)
    {
      var applied := PresetApplied(sheet, view, preset);
      if applied.Err? {
        return Err(applied.error);
      }
      sheet := applied.value;
      return Ok(());
    }

    /** `rename_hitbox`. */
    method RenameHitbox(oldName: string, newName: string) returns (r: Result<(), DocumentError>)
      modifies this
      ensures HitboxRenamed(old(sheet), old(view), oldName, newName).Err? ==>
        && r == Err(HitboxRenamed(old(sheet), old(view), oldName, newName).error)
        && sheet == old(sheet) && view == old(view)
      ensures HitboxRenamed(old(sheet), old(view), oldName, newName).Ok? ==>
        r == Ok(()) && (sheet, view) == HitboxRenamed(old(sheet), old(view), oldName, newName).value
      ensures drag == old(drag) && persistent == old(persistent) && history == old(history)
    {
      var renamed := HitboxRenamed(sheet, view, oldName, newName);
      if renamed.Err? {
        return Err(renamed.error);
      }
      sheet := renamed.value.0;
      view := renamed.value.1;
      return Ok(());
    }

    /** `delete_hitbox`. */
    method DeleteHitbox(name: string) returns (r: Result<(), DocumentError>)
      modifies this
      ensures HitboxDeleted(old(sheet), old(view), name).Err? ==>
        r == Err(HitboxDeleted(old(sheet), old(view), name).error) && sheet == old(sheet)
      ensures HitboxDeleted(old(sheet), old(view), name).Ok? ==>
        r == Ok(()) && sheet == HitboxDeleted(old(sheet), old(view), name).value
      ensures view == old(view) && drag == old(drag) && persistent == old(persistent) && history == old(history)
    {
      var deleted := HitboxDeleted(sheet, view, name);
      if deleted.Err? {
        return Err(deleted.error);
      }
      sheet := deleted.value;
      return Ok(());
    }

    /** `select_item`: the view the click leaves, kept even when the click fails after focusing a direction. */
    method SelectItem(item: SelectionItem, shift: bool, ctrl: bool) returns (r: Result<(), DocumentError>)
      requires CanSelect(sheet, view, item, shift)
      modifies this
      ensures (view, r) == SelectedItem(old(sheet), old(view), old(persistent.timelineIsPlaying), item, shift, ctrl)
      ensures sheet == old(sheet) && drag == old(drag) && persistent == old(persistent) && history == old(history)
    {
      var selected := SelectedItem(sheet, view, persistent.timelineIsPlaying, item, shift, ctrl);
      view := selected.0;
      r := selected.1;
    }

    // ----- The timeline -----

    /** `tick`, which advances the timeline as the older engine does. */
    method Tick(deltaMillis: nat)
      modifies this
      ensures var (after, playing) :=
        LegacyDocuments.Advanced(old(sheet), AsLegacy(old(view)), old(persistent.timelineIsPlaying), deltaMillis);
        view == old(view).(timelineClock := after.timelineClock)
        && persistent == old(persistent).(timelineIsPlaying := playing)
      ensures sheet == old(sheet) && drag == old(drag) && history == old(history)
    {
      if !persistent.timelineIsPlaying {
        return;
      }
      view := view.(timelineClock := view.timelineClock + deltaMillis);
      assert AsLegacy(view) == AsLegacy(old(view)).(timelineClock := view.timelineClock);
      var animation := WorkbenchAnimation(sheet, view);
      var sequence := WorkbenchSequence(sheet, view);
      if animation.Ok? && sequence.Ok? {
        var duration := DurationMillis(sequence.value.1);
        if duration.Some? && duration.value > 0 {
          var d := duration.value;
          if animation.value.1.isLooping {
            view := view.(timelineClock := view.timelineClock % d);
          } else if view.timelineClock >= d {
            persistent := persistent.(timelineIsPlaying := false);
            view := view.(timelineClock := d);
          }
        } else {
          persistent := persistent.(timelineIsPlaying := false);
          view := view.SkipToTimelineStart();
        }
      }
    }

    /** `play`: nothing when already playing; otherwise it needs a current sequence. */
    method Play() returns (r: Result<(), DocumentError>)
      modifies this
      ensures old(persistent.timelineIsPlaying) ==> r == Ok(()) && view == old(view) && persistent == old(persistent)
      ensures !old(persistent.timelineIsPlaying) && Played(old(sheet), old(view)).Err? ==>
        r == Err(Played(old(sheet), old(view)).error) && view == old(view) && persistent == old(persistent)
      ensures !old(persistent.timelineIsPlaying) && Played(old(sheet), old(view)).Ok? ==>
        && r == Ok(()) && view == Played(old(sheet), old(view)).value
        && persistent == old(persistent).(timelineIsPlaying := true)
      ensures sheet == old(sheet) && drag == old(drag) && history == old(history)
    {
      if persistent.timelineIsPlaying {
        return Ok(());
      }
      var played := Played(sheet, view);
      if played.Err? {
        return Err(played.error);
      }
      view := played.value;
      persistent := persistent.(timelineIsPlaying := true);
      return Ok(());
    }

    method Pause()
      modifies this
      ensures persistent == old(persistent).(timelineIsPlaying := false)
      ensures sheet == old(sheet) && view == old(view) && drag == old(drag) && history == old(history)
    {
      persistent := persistent.(timelineIsPlaying := false);
    }

    method ScrubTimeline(time: nat) returns (r: Result<(), DocumentError>)
      modifies this
      ensures Scrubbed(old(sheet), old(view), time).Err? ==>
        r == Err(Scrubbed(old(sheet), old(view), time).error) && view == old(view)
      ensures Scrubbed(old(sheet), old(view), time).Ok? ==>
        r == Ok(()) && view == Scrubbed(old(sheet), old(view), time).value
      ensures sheet == old(sheet) && drag == old(drag) && persistent == old(persistent) && history == old(history)
    {
      var scrubbed := Scrubbed(sheet, view, time);
      if scrubbed.Err? {
        return Err(scrubbed.error);
      }
      view := scrubbed.value;
      return Ok(());
    }

    /** `begin_drag_keyframe_duration`. */
    method BeginDragKeyframeDuration(slot: KeyframeSlot) returns (r: Result<(), DocumentError>)
      modifies this
      ensures (r, view, drag) == DragOutcome(old(sheet), old(view), old(drag), slot)
      ensures sheet == old(sheet) && persistent == old(persistent) && history == old(history)
    {
      var outcome := DragOutcome(sheet, view, drag, slot);
      r, view, drag := outcome.0, outcome.1, outcome.2;
    }

    /** `update_drag_keyframe_duration`: every selected duration of the edited animation becomes its dragged one. */
    method UpdateDragKeyframeDuration(deltaMillis: int) returns (r: Result<(), DocumentError>)
      modifies this
      ensures (sheet, r) == LegacyDocuments.DragUpdated(old(sheet), AsLegacy(old(view)), old(drag), deltaMillis)
      ensures view == old(view) && drag == old(drag) && persistent == old(persistent) && history == old(history)
    {
      var updated := LegacyDocuments.DragUpdated(sheet, AsLegacy(view), drag, deltaMillis);
      sheet := updated.0;
      r := updated.1;
    }

    // ----- The export dialog -----

    method BeginExportAs()
      modifies this
      ensures persistent == BeganExportAs(old(sheet), old(persistent))
      ensures sheet == old(sheet) && view == old(view) && drag == old(drag) && history == old(history)
    {
      persistent := BeganExportAs(sheet, persistent);
    }

    method CancelExportAs()
      modifies this
      ensures persistent == old(persistent).(exportSettingsEdit := None)
      ensures sheet == old(sheet) && view == old(view) && drag == old(drag) && history == old(history)
    {
      persistent := persistent.(exportSettingsEdit := None);
    }

    method SetExportPath(which: ExportEditing.ExportPath, path: Path) returns (r: Result<(), DocumentError>)
      modifies this
      ensures ExportPathSet(old(persistent), which, path).Err? ==>
        r == Err(Documents.NotEditingExportSettings) && persistent == old(persistent)
      ensures ExportPathSet(old(persistent), which, path).Ok? ==>
        r == Ok(()) && persistent == ExportPathSet(old(persistent), which, path).value
      ensures sheet == old(sheet) && view == old(view) && drag == old(drag) && history == old(history)
    {
      var changed := ExportPathSet(persistent, which, path);
      if changed.Err? {
        return Err(changed.error);
      }
      persistent := changed.value;
      return Ok(());
    }

    method EndExportAs() returns (r: Result<(), DocumentError>)
      modifies this
      ensures EndedExportAs(old(sheet), old(persistent)).Err? ==>
        r == Err(Documents.NotEditingExportSettings) && sheet == old(sheet) && persistent == old(persistent)
      ensures EndedExportAs(old(sheet), old(persistent)).Ok? ==>
        r == Ok(()) && (sheet, persistent) == EndedExportAs(old(sheet), old(persistent)).value
      ensures view == old(view) && drag == old(drag) && history == old(history)
    {
      var ended := EndedExportAs(sheet, persistent);
      if ended.Err? {
        return Err(ended.error);
      }
      sheet := ended.value.0;
      persistent := ended.value.1;
      return Ok(());
    }

    // ----- Processing a command -----

    method DispatchContentCommand(c: Command) returns (r: Result<(), DocumentError>)
      requires IsContentCommand(c)
      requires c.AlterSelection? ==> CanSelect(sheet, view, c.item, c.shift)
      modifies this
      ensures r.Err? ==> Fallible(c)
      ensures history == old(history) && drag == old(drag)
      ensures ContentEffect(c, old(Snapshot()), Snapshot(), r)
    {
      r := Ok(());
      if c.ImportFrames? {
        sheet := Sheets.AddFrames(sheet, c.paths);
      } else if c.DeleteSelectedFrames? {
        DeleteSelectedFrames();
      } else if c.AlterSelection? {
        r := SelectItem(c.item, c.shift, c.ctrl);
      } else if c.CreateAnimation? {
        var name, created := CreateAnimation();
        assert AnimationCreated(old(Snapshot()), Snapshot(), name);
      } else if c.EditAnimation? {
        r := EditAnimation(c.name);
      } else if c.RenameAnimation? {
        r := RenameAnimation(c.oldName, c.newName);
      } else if c.DeleteAnimation? {
        DeleteAnimation(c.name);
      } else if c.SetAnimationLooping? {
        r := SetAnimationLooping(c.looping);
      } else if c.ApplyDirectionPreset? {
        r := ApplyDirectionPreset(c.preset);
      } else if c.RenameHitbox? {
        r := RenameHitbox(c.oldName, c.newName);
      } else {
        r := DeleteHitbox(c.name);
      }
    }

    method DispatchTimelineCommand(c: Command) returns (r: Result<(), DocumentError>)
      requires IsTimelineCommand(c)
      modifies this
      ensures r.Err? ==> Fallible(c)
      ensures history == old(history)
      ensures !c.BeginDragKeyframeDuration? || r.Err? ==> drag == old(drag)
      ensures TimelineEffect(c, old(Snapshot()), Snapshot(), r)
    {
      r := Ok(());
      if c.Tick? {
        Tick(c.deltaMillis);
      } else if c.Play? {
        r := Play();
      } else if c.Pause? {
        Pause();
      } else if c.ScrubTimeline? {
        r := ScrubTimeline(c.timeMillis);
      } else if c.BeginDragKeyframeDuration? {
        r := BeginDragKeyframeDuration((c.direction, c.index));
      } else {
        r := UpdateDragKeyframeDuration(c.dragMillis);
      }
    }

    method DispatchExportCommand(c: Command) returns (r: Result<(), DocumentError>)
      requires IsExportCommand(c)
      modifies this
      ensures r.Err? ==> Fallible(c)
      ensures history == old(history) && drag == old(drag) && view == old(view)
      ensures ExportEffect(c, old(Snapshot()), Snapshot(), r)
    {
      r := Ok(());
      if c.BeginExportAs? {
        BeginExportAs();
      } else if c.CancelExportAs? {
        CancelExportAs();
      } else if c.EndExportAs? {
        r := EndExportAs();
      } else {
        r := SetExportPath(ExportPathOf(c), c.path);
      }
    }

    /** `Undo` and `Redo`, which never fail. */
    method DispatchHistoryCommand(c: Command)
      requires Valid() && (c.Undo? || c.Redo?)
      modifies this
      ensures Valid() && drag == old(drag)
      ensures history == if c.Undo? then LegacyHistory.Undone(old(history)) else LegacyHistory.Redone(old(history))
      ensures history.index != old(history.index) ==>
        && sheet == history.Current().sheet && view == history.Current().view
        && persistent == old(persistent).(timelineIsPlaying := false)
      ensures history.index == old(history.index) ==> sheet == old(sheet) && view == old(view) && persistent == old(persistent)
    {
      if c.Undo? {
        Undo();
      } else {
        Redo();
      }
    }

    /** The commands that only set fields of the view. */
    method DispatchViewCommand(c: Command)
      requires IsViewCommand(c)
      modifies this
      ensures view == ViewCommandEffect(old(view), c)
      ensures sheet == old(sheet) && persistent == old(persistent) && drag == old(drag) && history == old(history)
    {
      view := ViewCommandEffect(view, c);
    }

    /** The match of `process_command`: each command to the operation that carries it out. */
    method Dispatch(c: Command) returns (r: Result<(), DocumentError>)
      requires Valid() && IsModelled(c)
      requires c.AlterSelection? ==> CanSelect(sheet, view, c.item, c.shift)
      modifies this
      ensures Valid()
      ensures r.Err? ==> Fallible(c)
      ensures !c.Undo? && !c.Redo? ==> history == old(history)
      ensures !c.BeginDragKeyframeDuration? || r.Err? ==> drag == old(drag)
      ensures IsViewCommand(c) ==> view == ViewCommandEffect(old(view), c) && sheet == old(sheet)
      ensures c.Undo? ==> history == LegacyHistory.Undone(old(history))
      ensures c.Redo? ==> history == LegacyHistory.Redone(old(history))
      ensures (c.Undo? || c.Redo?) && history.index != old(history.index) ==>
        && sheet == history.Current().sheet && view == history.Current().view
        && persistent == old(persistent).(timelineIsPlaying := false)
      ensures (c.Undo? || c.Redo?) && history.index == old(history.index) ==>
        sheet == old(sheet) && view == old(view) && persistent == old(persistent)
      ensures c.Undo? || c.Redo? ==> r == Ok(())
      ensures !c.Undo? && !c.Redo? ==> CommandEffect(c, old(Snapshot()), Snapshot(), r)
    {
      r := Ok(());
      if IsViewCommand(c) {
        DispatchViewCommand(c);
      } else if IsContentCommand(c) {
        r := DispatchContentCommand(c);
      } else if IsTimelineCommand(c) {
        r := DispatchTimelineCommand(c);
      } else if IsExportCommand(c) {
        r := DispatchExportCommand(c);
      } else if c.Undo? || c.Redo? {
        DispatchHistoryCommand(c);
      }
    }

    /**
     * `process_command`: run the command; on failure return at once, with
     * whatever the operation already changed. Otherwise, unless the command
     * begins or continues a gesture, end any gesture and record the
     * command, which leaves the history's current entry equal to the
     * document; a gesture command leaves the history alone.
     */
    method ProcessCommand(c: Command) returns (r: Result<(), DocumentError>, ghost before: History, ghost dispatched: State)
      requires Valid() && IsModelled(c)
      requires c.AlterSelection? ==> CanSelect(sheet, view, c.item, c.shift)
      modifies this
      ensures before == old(history) && before.Valid()
      ensures Valid()
      ensures r.Err? ==> Fallible(c) && drag == old(drag) && history == old(history)
      ensures r.Ok? && !SkipsRecording(c) ==>
        drag == None && history.Current().sheet == sheet && history.Current().view == view
      ensures r.Ok? && SkipsRecording(c) ==> history == old(history)
      ensures r.Ok? && c.UpdateDragKeyframeDuration? ==> drag == old(drag)
      ensures Snapshot() == if r.Ok? && !SkipsRecording(c) then dispatched.(drag := None) else dispatched
      ensures !c.Undo? && !c.Redo? ==> CommandEffect(c, old(Snapshot()), dispatched, r)
      ensures r.Ok? && !SkipsRecording(c) && !c.Undo? && !c.Redo? ==>
        history == LegacyHistory.RecordedIntended(before, c, sheet, view)
      ensures c.Undo? ==> history == LegacyHistory.RecordedIntended(LegacyHistory.Undone(before), c, sheet, view)
      ensures c.Redo? ==> history == LegacyHistory.RecordedIntended(LegacyHistory.Redone(before), c, sheet, view)
    {
      before := history;
      r := Dispatch(c);
      dispatched := Snapshot();
      if r.Err? {
        return;
      }
      EndGestureAndRecord(c);
    }

    /** The last step of a successful `process_command`: unless the command begins or continues a gesture, end any gesture and record the command. */
    method EndGestureAndRecord(c: Command)
      requires Valid()
      modifies this
      ensures Valid()
      ensures Snapshot() == if SkipsRecording(c) then old(Snapshot()) else old(Snapshot()).(drag := None)
      ensures SkipsRecording(c) ==> history == old(history)
      ensures !SkipsRecording(c) ==>
        && history == LegacyHistory.RecordedIntended(old(history), c, sheet, view)
        && history.Current().sheet == sheet && history.Current().view == view
    {
      if !SkipsRecording(c) {
        drag := None;
        RecordCommand(c);
      }
    }
  }
}
