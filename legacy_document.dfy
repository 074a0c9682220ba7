/**
 * The document of the oldest Rust engine: a sheet with its view, a keyframe
 * duration drag kept outside history, the saved, closing and playing flags,
 * and the undo history. `process_command` runs a command, ends any drag
 * unless the command continues one, and records the command in history.
 *
 * The document is an object whose fields its operations reassign, so it is
 * a class; the sheet and the view are values, because the history holds
 * clones of them and compares them with `==`. This engine selects keyframes
 * by direction and index within the edited animation.
 */
module LegacyDocuments {
  import opened Wrappers
  import opened Sheets
  import LegacySelections
  import LegacyViews
  import LegacyHistory
  import Documents
  import Selections
  import Ordering
  import Timeline
  import Gestures
  import Drags

  type DocumentError = Documents.DocumentError
  type KeyframeSlot = Documents.KeyframeSlot
  type Selection = LegacySelections.MultiSelection<KeyframeSlot>
  type View = LegacyViews.View<Selection>

  function DefaultView(): View {
    LegacyViews.DefaultView(LegacySelections.EmptySelection())
  }

  /** An item of any kind, as a click names it. */
  datatype SingleSelection =
    | FrameItem(frame: Path)
    | AnimationItem(animation: string)
    | HitboxItem(hitbox: string)
    | KeyframeItem(direction: Direction, index: nat)

  datatype Command =
    | Undo
    | Redo
    | FocusContentTab(tab: LegacyViews.ContentTab)
    | ImportFrames(paths: seq<Path>)
    | ClearSelection
    | AlterSelection(item: SingleSelection, shift: bool, ctrl: bool)
    | Pan(delta: (int, int))
    | CenterWorkbench
    | ZoomInWorkbench
    | ZoomOutWorkbench
    | ResetWorkbenchZoom
    | CreateAnimation
    | EditAnimation(name: string)
    | RenameAnimation(oldName: string, newName: string)
    | DeleteAnimation(name: string)
    | Tick(deltaMillis: nat)
    | Play
    | Pause
    | ScrubTimeline(timeMillis: nat)
    | ZoomInTimeline
    | ZoomOutTimeline
    | ResetTimelineZoom
    | ApplyDirectionPreset(preset: DirectionPreset)
    | BeginDragKeyframeDuration(direction: Direction, index: nat)
    | UpdateDragKeyframeDuration(dragMillis: int)
    | EndDragKeyframeDuration

  /** The durations of the selected keyframes when the drag began, and the keyframe under the mouse. */
  datatype KeyframeDurationDrag = KeyframeDurationDrag(
    frameBeingDragged: KeyframeSlot,
    originalDurations: map<KeyframeSlot, nat>)

  datatype Persistent = Persistent(diskVersion: int, closeRequested: bool, timelineIsPlaying: bool)

  const DefaultPersistent: Persistent := Persistent(0, false, false)

  type History = LegacyHistory.Log<Command, Sheet, View>

  // ----- What the view is editing -----

  /** `get_workbench_animation`: the animation named by the view, with the error for each missing part. */
  function WorkbenchAnimation(sheet: Sheet, view: View): (r: Result<(string, Animation), DocumentError>)
    ensures view.currentAnimation.None? ==> r == Err(Documents.NotEditingAnyAnimation)
    ensures view.currentAnimation.Some? && view.currentAnimation.value !in sheet.animations ==>
      r == Err(Documents.AnimationNotInDocument(view.currentAnimation.value))
    ensures r.Ok? <==> view.currentAnimation.Some? && view.currentAnimation.value in sheet.animations
    ensures r.Ok? ==> r.value == (view.currentAnimation.value, sheet.animations[view.currentAnimation.value])
  {
    match view.currentAnimation
    case None => Err(Documents.NotEditingAnyAnimation)
    case Some(name) =>
      if name in sheet.animations then Ok((name, sheet.animations[name]))
      else Err(Documents.AnimationNotInDocument(name))
  }

  /** `get_workbench_sequence`: the sequence of the current direction within that animation. */
  function WorkbenchSequence(sheet: Sheet, view: View): (r: Result<(Direction, Sequence), DocumentError>)
    ensures WorkbenchAnimation(sheet, view).Err? ==> r == Err(WorkbenchAnimation(sheet, view).error)
    ensures WorkbenchAnimation(sheet, view).Ok? && view.currentSequence.None? ==> r == Err(Documents.NotEditingAnySequence)
    ensures WorkbenchAnimation(sheet, view).Ok? && view.currentSequence.Some?
            && view.currentSequence.value !in WorkbenchAnimation(sheet, view).value.1.sequences ==>
      r == Err(Documents.SequenceNotInAnimation(view.currentSequence.value))
    ensures r.Ok? <==> && WorkbenchAnimation(sheet, view).Ok? && view.currentSequence.Some?
                       && view.currentSequence.value in WorkbenchAnimation(sheet, view).value.1.sequences
    ensures r.Ok? ==> && WorkbenchAnimation(sheet, view).Ok? && view.currentSequence == Some(r.value.0)
                      && var animation := WorkbenchAnimation(sheet, view).value.1;
                         r.value.0 in animation.sequences && r.value.1 == animation.sequences[r.value.0]
  {
    var (_, animation) :- WorkbenchAnimation(sheet, view);
    match view.currentSequence
    case None => Err(Documents.NotEditingAnySequence)
    case Some(direction) =>
      if direction in animation.sequences then Ok((direction, animation.sequences[direction]))
      else Err(Documents.SequenceNotInAnimation(direction))
  }

  // ----- Selection -----

  /** Every keyframe of the animation. */
  function AllSlots(animation: Animation): set<KeyframeSlot> {
    set d: Direction, i: nat | d in animation.sequences && i < |animation.sequences[d].keyframes| :: (d, i)
  }

  /**
   * The keyframes of `animation` among `slots`, each once, in the order
   * `sequences_iter` and `keyframes_iter` visit them: by direction, then by
   * index.
   */
  function SlotsIn(animation: Animation, slots: set<KeyframeSlot>): (r: seq<KeyframeSlot>)
    ensures forall s :: s in r <==> Timeline.SlotExists(animation, s) && s in slots
    ensures Drags.InSlotOrder(r)
  {
    var refs := set s | s in slots :: Selections.KeyframeRef("", s.0, s.1);
    assert forall s: KeyframeSlot :: Selections.KeyframeRef("", s.0, s.1) in refs <==> s in slots;
    Drags.OrderedSlots(animation, "", refs)
  }

  /** The frame sources in the order `frames_iter` lists them. */
  function FramePool(sheet: Sheet): (r: seq<Path>)
    ensures |r| == |sheet.frames| && forall k :: 0 <= k < |r| ==> r[k] == sheet.frames[k].source
  {
    seq(|sheet.frames|, k requires 0 <= k < |sheet.frames| => sheet.frames[k].source)
  }

  /**
   * The edit `alter_selection` applies for a click: the clicked item with
   * every item of its kind in list order. Keyframes need an edited
   * animation. A click on a hitbox stops the program, so callers never
   * make one.
   */
  function SelectionEdit(sheet: Sheet, view: View, item: SingleSelection)
    : (r: Result<LegacySelections.MultiSelectionEdit<KeyframeSlot>, DocumentError>)
    requires !item.HitboxItem?
    ensures item.FrameItem? ==> r == Ok(LegacySelections.FramesEdit(item.frame, FramePool(sheet)))
    ensures item.AnimationItem? ==>
      r == Ok(LegacySelections.AnimationsEdit(item.animation, Ordering.Ascending(sheet.animations.Keys)))
    ensures item.KeyframeItem? && WorkbenchAnimation(sheet, view).Err? ==> r == Err(WorkbenchAnimation(sheet, view).error)
    ensures item.KeyframeItem? && WorkbenchAnimation(sheet, view).Ok? ==>
      var animation := WorkbenchAnimation(sheet, view).value.1;
      r == Ok(LegacySelections.KeyframesEdit((item.direction, item.index), SlotsIn(animation, AllSlots(animation))))
  {
    match item
    case FrameItem(path) => Ok(LegacySelections.FramesEdit(path, FramePool(sheet)))
    case AnimationItem(name) => Ok(LegacySelections.AnimationsEdit(name, Ordering.Ascending(sheet.animations.Keys)))
    case KeyframeItem(direction, index) =>
      var (_, animation) :- WorkbenchAnimation(sheet, view);
      Ok(LegacySelections.KeyframesEdit((direction, index), SlotsIn(animation, AllSlots(animation))))
  }

  /**
   * A plain click on a keyframe of the edited animation selects that
   * keyframe alone and nothing of any other kind; a click on a keyframe the
   * animation does not have keeps the keyframe selection and still clears
   * the other kinds.
   */
  lemma KeyframeClickSelects(sheet: Sheet, view: View, direction: Direction, index: nat)
    requires WorkbenchAnimation(sheet, view).Ok?
    ensures var animation := WorkbenchAnimation(sheet, view).value.1;
      var edit := SelectionEdit(sheet, view, KeyframeItem(direction, index)).value;
      var r := LegacySelections.Altered(view.selection, edit, false, false);
      && r.frames == LegacySelections.Cleared() && r.animations == LegacySelections.Cleared()
      && r.hitboxes == LegacySelections.Cleared()
      && (Timeline.SlotExists(animation, (direction, index)) ==> r.keyframes.selected == {(direction, index)})
      && (!Timeline.SlotExists(animation, (direction, index)) ==> r.keyframes == view.selection.keyframes)
  {
    var animation := WorkbenchAnimation(sheet, view).value.1;
    if Timeline.SlotExists(animation, (direction, index)) {
      assert (direction, index) in AllSlots(animation);
    }
  }

  // ----- Editing animations -----

  /** The view `edit_animation` leaves: the animation edited from its start, centred, on its first direction. */
  function EditedView(view: View, name: string, animation: Animation): (r: View)
    ensures r.currentAnimation == Some(name) && r.timelineClock == 0 && r.workbenchOffset == (0, 0)
    ensures r.currentSequence == Documents.FirstDirection(animation)
    ensures r.selection == view.selection && r.contentTab == view.contentTab
    ensures r.workbenchZoomLevel == view.workbenchZoomLevel && r.timelineZoomLevel == view.timelineZoomLevel
  {
    LegacyViews.SkipToTimelineStart(LegacyViews.CenterWorkbench(view.(currentAnimation := Some(name))))
      .(currentSequence := Documents.FirstDirection(animation))
  }

  /**
   * After editing an animation of the sheet, the view resolves to that
   * animation, and to a sequence of it exactly when it has one.
   */
  lemma EditedViewResolves(sheet: Sheet, view: View, name: string)
    requires name in sheet.animations
    ensures var edited := EditedView(view, name, sheet.animations[name]);
      && WorkbenchAnimation(sheet, edited) == Ok((name, sheet.animations[name]))
      && (WorkbenchSequence(sheet, edited).Ok? <==> sheet.animations[name].sequences != map[])
  {
  }

  /** `rename_animation` on the view: the new name is the only selection, and the edited animation follows the rename. */
  function RenamedView(view: View, oldName: string, newName: string): (r: View)
    ensures r.selection == LegacySelections.AnimationSelected(newName)
    ensures view.currentAnimation == Some(oldName) ==> r.currentAnimation == Some(newName)
    ensures view.currentAnimation != Some(oldName) ==> r.currentAnimation == view.currentAnimation
  {
    view.(selection := LegacySelections.AnimationSelected(newName),
          currentAnimation := if view.currentAnimation == Some(oldName) then Some(newName) else view.currentAnimation)
  }

  /** Renaming keeps the workbench on the same animation, whichever was edited. */
  lemma RenameKeepsWorkbench(sheet: Sheet, view: View, oldName: string, newName: string)
    requires Sheets.RenameAnimation(sheet, oldName, newName).Ok?
    requires WorkbenchAnimation(sheet, view).Ok?
    ensures var renamed := Sheets.RenameAnimation(sheet, oldName, newName).value;
      var after := WorkbenchAnimation(renamed, RenamedView(view, oldName, newName));
      after.Ok? && after.value.1 == WorkbenchAnimation(sheet, view).value.1
  {
  }

  /** `delete_animation` on the view: the name leaves the animation selection, and is no longer edited. */
  function DeletedView(view: View, name: string): (r: View)
    ensures r.selection == view.selection.(animations := LegacySelections.Removed(view.selection.animations, name))
    ensures r.currentAnimation == if view.currentAnimation == Some(name) then None else view.currentAnimation
  {
    view.(selection := view.selection.(animations := LegacySelections.Removed(view.selection.animations, name)),
          currentAnimation := if view.currentAnimation == Some(name) then None else view.currentAnimation)
  }

  /**
   * After a deletion the deleted animation is neither selected nor edited,
   * and the workbench resolves exactly when it resolved before to another
   * animation.
   */
  lemma DeleteForgetsAnimation(sheet: Sheet, view: View, name: string)
    ensures var after := DeletedView(view, name);
      && name !in after.selection.animations.selected
      && after.currentAnimation != Some(name)
      && (WorkbenchAnimation(Sheets.DeleteAnimation(sheet, name), after).Ok? <==>
            WorkbenchAnimation(sheet, view).Ok? && view.currentAnimation != Some(name))
  {
  }

  // ----- The timeline -----

  /**
   * `advance_timeline`: while playing the clock moves forward; a looping
   * animation wraps around its duration, a non-looping one stops at its
   * end, and an empty sequence stops playback at 0. The flag returned is
   * whether the timeline still plays.
   */
  function Advanced(sheet: Sheet, view: View, playing: bool, deltaMillis: nat): (r: (View, bool))
  {
    if !playing then (view, false)
    else
      var moved := view.(timelineClock := view.timelineClock + deltaMillis);
      var animation := WorkbenchAnimation(sheet, moved);
      var sequence := WorkbenchSequence(sheet, moved);
      if animation.Ok? && sequence.Ok? then
        match DurationMillis(sequence.value.1)
        case Some(d) =>
          if d == 0 then (LegacyViews.SkipToTimelineStart(moved), false)
          else if animation.value.1.isLooping then (moved.(timelineClock := moved.timelineClock % d), true)
          else if moved.timelineClock >= d then (moved.(timelineClock := d), false)
          else (moved, true)
        case None => (LegacyViews.SkipToTimelineStart(moved), false)
      else (moved, true)
  }

  /**
   * What playback guarantees: a paused timeline does not move; a playing
   * one on a sequence of positive duration `d` ends inside it, below `d`
   * and still playing when looping, at most `d` otherwise, and stopped
   * exactly when it reached `d`. Nothing but the clock changes.
   */
  lemma AdvancedSpec(sheet: Sheet, view: View, playing: bool, deltaMillis: nat)
    ensures !playing ==> Advanced(sheet, view, playing, deltaMillis) == (view, false)
    ensures Advanced(sheet, view, playing, deltaMillis).0 == view.(timelineClock := Advanced(sheet, view, playing, deltaMillis).0.timelineClock)
    ensures playing && WorkbenchSequence(sheet, view).Ok? && DurationMillis(WorkbenchSequence(sheet, view).value.1).Some? ==>
      var d := DurationMillis(WorkbenchSequence(sheet, view).value.1).value;
      var (after, still) := Advanced(sheet, view, playing, deltaMillis);
      && after.timelineClock <= d
      && (d > 0 && WorkbenchAnimation(sheet, view).value.1.isLooping ==> still && after.timelineClock < d)
      && (d > 0 && !WorkbenchAnimation(sheet, view).value.1.isLooping ==> (!still <==> after.timelineClock == d))
  {
  }

  /** Playing a looping animation for `a` then `b` milliseconds is playing it for `a + b`. */
  lemma AdvancedLoopingComposes(sheet: Sheet, view: View, a: nat, b: nat)
    requires WorkbenchSequence(sheet, view).Ok? && WorkbenchAnimation(sheet, view).value.1.isLooping
    requires DurationMillis(WorkbenchSequence(sheet, view).value.1).Some?
    requires DurationMillis(WorkbenchSequence(sheet, view).value.1).value > 0
    ensures var (once, still) := Advanced(sheet, view, true, a);
      still && Advanced(sheet, once, true, b) == Advanced(sheet, view, true, a + b)
  {
    var d := DurationMillis(WorkbenchSequence(sheet, view).value.1).value;
    Timeline.ModAddLeft(view.timelineClock, a, b, d);
  }

  /**
   * `play`, once the timeline is known to be paused: the clock goes back to
   * the start when it sits at or past the end, and a selection holding
   * hitboxes or keyframes is cleared entirely.
   */
  function Played(sheet: Sheet, view: View): (r: Result<View, DocumentError>)
    ensures WorkbenchSequence(sheet, view).Err? ==> r == Err(WorkbenchSequence(sheet, view).error)
  {
    var (_, sequence) :- WorkbenchSequence(sheet, view);
    var duration := DurationMillis(sequence);
    var restarted :=
      if duration.Some? && duration.value > 0 && view.timelineClock >= duration.value
      then LegacyViews.SkipToTimelineStart(view) else view;
    var selection := restarted.selection;
    if selection.hitboxes.selected != {} || selection.keyframes.selected != {}
    then Ok(restarted.(selection := LegacySelections.EmptySelection()))
    else Ok(restarted)
  }

  /**
   * After `play` nothing of the selection is a hitbox or a keyframe, and a
   * non-empty sequence of positive duration plays from a point before its
   * end, so the first tick does not stop it at once.
   */
  lemma PlayedSpec(sheet: Sheet, view: View)
    requires WorkbenchSequence(sheet, view).Ok?
    ensures var r := Played(sheet, view);
      && r.Ok?
      && r.value.selection.hitboxes.selected == {} && r.value.selection.keyframes.selected == {}
      && r.value.currentAnimation == view.currentAnimation && r.value.currentSequence == view.currentSequence
      && var duration := DurationMillis(WorkbenchSequence(sheet, view).value.1);
         (duration.Some? && duration.value > 0 ==> r.value.timelineClock < duration.value)
  {
  }

  /** `scrub_timeline`: the clock moves to the time, clamped to the current sequence. */
  function Scrubbed(sheet: Sheet, view: View, time: nat): (r: Result<View, DocumentError>)
    ensures WorkbenchSequence(sheet, view).Err? ==> r == Err(WorkbenchSequence(sheet, view).error)
    ensures r.Ok? <==> WorkbenchSequence(sheet, view).Ok?
    ensures r.Ok? ==> r.value == view.(timelineClock := r.value.timelineClock)
    ensures r.Ok? ==> var sequence := WorkbenchSequence(sheet, view).value.1;
      && (sequence.keyframes == [] ==> r.value.timelineClock == 0)
      && (sequence.keyframes != [] ==> r.value.timelineClock == Selections.Min(time, TotalMillis(sequence.keyframes)))
  {
    var (_, sequence) :- WorkbenchSequence(sheet, view);
    Ok(view.(timelineClock := Timeline.ScrubbedClock(sequence, time)))
  }

  // ----- Dragging keyframe durations -----

  /** `get_selected_keyframes`: the selected keyframes of the edited animation, in iteration order. */
  function SelectedSlots(sheet: Sheet, view: View): (r: Result<seq<KeyframeSlot>, DocumentError>)
    ensures WorkbenchAnimation(sheet, view).Err? ==> r == Err(WorkbenchAnimation(sheet, view).error)
    ensures WorkbenchAnimation(sheet, view).Ok? ==>
      r == Ok(SlotsIn(WorkbenchAnimation(sheet, view).value.1, view.selection.keyframes.selected))
  {
    var (_, animation) :- WorkbenchAnimation(sheet, view);
    Ok(SlotsIn(animation, view.selection.keyframes.selected))
  }

  /** The view `begin_drag_keyframe_duration` drags from: the dragged keyframe is selected alone unless already selected. */
  function DragView(view: View, slot: KeyframeSlot): (r: View)
    ensures slot in r.selection.keyframes.selected
    ensures slot in view.selection.keyframes.selected ==> r == view
  {
    if slot in view.selection.keyframes.selected then view
    else view.(selection := LegacySelections.KeyframeSelected(slot))
  }

  /**
   * The drag `begin_drag_keyframe_duration` starts: the dragged keyframe
   * and the duration of every selected keyframe. Without an edited
   * animation it fails, though the selection has already changed.
   */
  function BegunDrag(sheet: Sheet, view: View, slot: KeyframeSlot): (r: Result<KeyframeDurationDrag, DocumentError>)
    ensures WorkbenchAnimation(sheet, view).Err? ==> r == Err(WorkbenchAnimation(sheet, view).error)
    ensures r.Ok? <==> WorkbenchAnimation(sheet, view).Ok?
    ensures r.Ok? ==> r.value.frameBeingDragged == slot
    ensures r.Ok? ==> var animation := WorkbenchAnimation(sheet, view).value.1;
      && (forall s :: s in r.value.originalDurations <==>
            Timeline.SlotExists(animation, s) && s in view.selection.keyframes.selected)
      && (forall s :: s in r.value.originalDurations ==>
            Timeline.SlotExists(animation, s) && r.value.originalDurations[s] == Drags.At(animation, s).durationMillis)
  {
    var slots :- SelectedSlots(sheet, view);
    var animation := WorkbenchAnimation(sheet, view).value.1;
    Ok(KeyframeDurationDrag(slot, map s | s in slots :: Drags.At(animation, s).durationMillis))
  }

  /** The original durations as ranges starting at 0, whose lengths are the durations. */
  function AsRanges(durations: map<KeyframeSlot, nat>): (r: map<KeyframeSlot, TimeRange>)
    ensures r.Keys == durations.Keys
    ensures forall s :: s in r ==> Drags.RangeLength(r[s]) == durations[s]
  {
    map s | s in durations :: TimeRange(0, durations[s])
  }

  /**
   * `update_drag_keyframe_duration`: the delta is shared, rounding toward
   * zero, among the selected keyframes of the dragged direction up to the
   * dragged index; each selected keyframe in turn takes its original
   * duration moved by that share, saturating, and at least 20 ms. A keyframe
   * without an original duration stops the loop with an error, keeping the
   * durations already set.
   */
  function DragUpdated(sheet: Sheet, view: View, drag: Option<KeyframeDurationDrag>, deltaMillis: int)
    : (r: (Sheet, Result<(), DocumentError>))
    ensures drag.None? ==> r == (sheet, Err(Documents.NotDraggingKeyframeDuration))
    ensures drag.Some? && WorkbenchAnimation(sheet, view).Err? ==> r == (sheet, Err(WorkbenchAnimation(sheet, view).error))
    ensures r.0.frames == sheet.frames && r.0.exportSettings == sheet.exportSettings
    ensures r.0.animations.Keys == sheet.animations.Keys
  {
    if drag.None? then (sheet, Err(Documents.NotDraggingKeyframeDuration))
    else match WorkbenchAnimation(sheet, view)
      case Err(e) => (sheet, Err(e))
      case Ok((name, animation)) =>
        var slots := SlotsIn(animation, view.selection.keyframes.selected);
        var perFrame := Drags.TruncatingDiv(deltaMillis, Drags.AffectedCount(slots, drag.value.frameBeingDragged));
        var (after, failure) := Drags.DragDurations(animation, slots, AsRanges(drag.value.originalDurations), perFrame);
        (sheet.(animations := sheet.animations[name := after]), if failure.Some? then Err(failure.value) else Ok(()))
  }

  /**
   * The update fails exactly when a selected keyframe has no original
   * duration; when it succeeds, every selected keyframe of the edited
   * animation holds its original duration moved by the shared delta, at
   * least 20 ms, and nothing else of the animation changed.
   */
  lemma DragUpdatedSpec(sheet: Sheet, view: View, drag: KeyframeDurationDrag, deltaMillis: int)
    requires WorkbenchAnimation(sheet, view).Ok?
    ensures var (name, animation) := WorkbenchAnimation(sheet, view).value;
      var slots := SlotsIn(animation, view.selection.keyframes.selected);
      var perFrame := Drags.TruncatingDiv(deltaMillis, Drags.AffectedCount(slots, drag.frameBeingDragged));
      var (after, result) := DragUpdated(sheet, view, Some(drag), deltaMillis);
      && (result.Ok? <==> forall s :: s in slots ==> s in drag.originalDurations)
      && (result.Err? ==> result == Err(Documents.MissingKeyframeDragData))
      && (result.Ok? ==> && Drags.SameShape(after.animations[name], animation)
                         && forall s :: Timeline.SlotExists(animation, s) ==>
                              Drags.At(after.animations[name], s) ==
                                if s in slots
                                then Drags.At(animation, s).(durationMillis :=
                                       Selections.Max(Drags.ApplyDelta(drag.originalDurations[s], perFrame), Drags.MinimumDurationMillis))
                                else Drags.At(animation, s))
  {
    var (name, animation) := WorkbenchAnimation(sheet, view).value;
    var slots := SlotsIn(animation, view.selection.keyframes.selected);
    var perFrame := Drags.TruncatingDiv(deltaMillis, Drags.AffectedCount(slots, drag.frameBeingDragged));
    var ranges := AsRanges(drag.originalDurations);
    Drags.DragDurationsSpec(animation, slots, ranges, perFrame);
  }

  /**
   * A drag begun on the current selection never misses an original
   * duration while the sheet and view stay as they were: the update
   * succeeds.
   */
  lemma BegunDragCoversSelection(sheet: Sheet, view: View, slot: KeyframeSlot, deltaMillis: int)
    requires BegunDrag(sheet, view, slot).Ok?
    ensures DragUpdated(sheet, view, Some(BegunDrag(sheet, view, slot).value), deltaMillis).1 == Ok(())
  {
    DragUpdatedSpec(sheet, view, BegunDrag(sheet, view, slot).value, deltaMillis);
  }

  // ----- What each command does -----

  /** The parts of the document a command may change, history aside. */
  datatype State = State(sheet: Sheet, view: View, drag: Option<KeyframeDurationDrag>, persistent: Persistent)

  /** `create_animation` added an empty animation under the fresh name `name`, selected it alone and edits it, paused. */
  predicate AnimationCreated(s: State, t: State, name: string) {
    && name !in s.sheet.animations
    && t == s.(sheet := s.sheet.(animations := s.sheet.animations[name := EmptyAnimation]),
               view := EditedView(s.view.(selection := LegacySelections.AnimationSelected(name)), name, EmptyAnimation),
               persistent := s.persistent.(timelineIsPlaying := false))
  }

  /** What a content command does to the state `s`, leaving `t` and the result `r`. */
  ghost predicate ContentEffect(c: Command, s: State, t: State, r: Result<(), DocumentError>)
    requires Document.IsContentCommand(c) && (c.AlterSelection? ==> !c.item.HitboxItem?)
  {
    match c
    case ImportFrames(paths) => r == Ok(()) && t == s.(sheet := Sheets.FramesAdded(s.sheet, paths))
    case AlterSelection(item, shift, ctrl) =>
      (match SelectionEdit(s.sheet, s.view, item)
       case Err(e) => r == Err(e) && t == s
       case Ok(edit) => r == Ok(()) && t == s.(view := s.view.(selection := LegacySelections.Altered(s.view.selection, edit, shift, ctrl))))
    case CreateAnimation => r == Ok(()) && exists name :: AnimationCreated(s, t, name)
    case EditAnimation(name) =>
      if name in s.sheet.animations then
        && r == Ok(())
        && t == s.(view := EditedView(s.view, name, s.sheet.animations[name]), persistent := s.persistent.(timelineIsPlaying := false))
      else r == Err(Documents.AnimationNotInDocument(name)) && t == s
    case RenameAnimation(oldName, newName) =>
      (match Sheets.RenameAnimation(s.sheet, oldName, newName)
       case Err(e) => r == Err(Documents.SheetFailure(e)) && t == s
       case Ok(sheet) => r == Ok(()) && t == s.(sheet := sheet, view := RenamedView(s.view, oldName, newName)))
    case DeleteAnimation(name) =>
      r == Ok(()) && t == s.(sheet := Sheets.DeleteAnimation(s.sheet, name), view := DeletedView(s.view, name))
    case ApplyDirectionPreset(preset) =>
      match WorkbenchAnimation(s.sheet, s.view)
      case Err(e) => r == Err(e) && t == s
      case Ok((name, animation)) =>
        r == Ok(()) && t == s.(sheet := s.sheet.(animations := s.sheet.animations[name := Sheets.ApplyDirectionPreset(animation, preset)]))
  }

  /** What a timeline or duration-drag command does to the state `s`, leaving `t` and the result `r`. */
  predicate TimelineEffect(c: Command, s: State, t: State, r: Result<(), DocumentError>)
    requires Document.IsTimelineCommand(c)
  {
    match c
    case Tick(deltaMillis) =>
      var (view, playing) := Advanced(s.sheet, s.view, s.persistent.timelineIsPlaying, deltaMillis);
      r == Ok(()) && t == s.(view := view, persistent := s.persistent.(timelineIsPlaying := playing))
    case Play =>
      if s.persistent.timelineIsPlaying then r == Ok(()) && t == s
      else (match Played(s.sheet, s.view)
            case Err(e) => r == Err(e) && t == s
            case Ok(view) => r == Ok(()) && t == s.(view := view, persistent := s.persistent.(timelineIsPlaying := true)))
    case Pause => r == Ok(()) && t == s.(persistent := s.persistent.(timelineIsPlaying := false))
    case ScrubTimeline(time) =>
      (match Scrubbed(s.sheet, s.view, time)
       case Err(e) => r == Err(e) && t == s
       case Ok(view) => r == Ok(()) && t == s.(view := view))
    case BeginDragKeyframeDuration(direction, index) =>
      var view := DragView(s.view, (direction, index));
      (match BegunDrag(s.sheet, view, (direction, index))
       case Err(e) => r == Err(e) && t == s.(view := view)
       case Ok(drag) => r == Ok(()) && t == s.(view := view, drag := Some(drag)))
    case UpdateDragKeyframeDuration(deltaMillis) =>
      (t.sheet, r) == DragUpdated(s.sheet, s.view, s.drag, deltaMillis) && t == s.(sheet := t.sheet)
    case EndDragKeyframeDuration => r == Ok(()) && t == s
  }

  // ----- The document -----

  class Document {
    const path: Path
    var sheet: Sheet
    var view: View
    /** The transient state: a keyframe duration drag in progress, if any. */
    var drag: Option<KeyframeDurationDrag>
    var persistent: Persistent
    var history: History

    /** The history is well formed, and a version it holds always stands for one sheet. */
    ghost predicate Valid()
      reads this
    {
      history.Valid() && LegacyHistory.VersionsNameSheets(history)
    }

    /** `Document::new`: an empty sheet, the default view, and a history of that one state at version 0. */
    constructor (path: Path)
      ensures Valid()
      ensures this.path == path && sheet == EmptySheet && view == DefaultView()
      ensures drag == None && persistent == DefaultPersistent
      ensures history == LegacyHistory.Started(EmptySheet, DefaultView())
    {
      this.path := path;
      sheet := EmptySheet;
      view := DefaultView();
      drag := None;
      persistent := DefaultPersistent;
      history := LegacyHistory.Started(EmptySheet, DefaultView());
    }

    /** The state a command may change. */
    function Snapshot(): State
      reads this
    {
      State(sheet, view, drag, persistent)
    }

    function Version(): int
      requires Valid()
      reads this
    {
      history.Version()
    }

    /** `is_saved`: the disk holds the version under the history cursor. */
    predicate IsSaved()
      requires Valid()
      reads this
    {
      persistent.diskVersion == Version()
    }

    /** `should_close`: closing was requested and nothing is unsaved. */
    predicate ShouldClose()
      requires Valid()
      reads this
    {
      persistent.closeRequested && IsSaved()
    }

    method MarkAsSaved(savedVersion: int)
      modifies this
      ensures persistent == old(persistent).(diskVersion := savedVersion)
      ensures sheet == old(sheet) && view == old(view) && drag == old(drag) && history == old(history)
    {
      persistent := persistent.(diskVersion := savedVersion);
    }

    method ClearTransient()
      modifies this
      ensures drag == None
      ensures sheet == old(sheet) && view == old(view) && persistent == old(persistent) && history == old(history)
    {
      drag := None;
    }

    method RequestClose()
      modifies this
      ensures persistent == old(persistent).(closeRequested := true)
      ensures sheet == old(sheet) && view == old(view) && drag == old(drag) && history == old(history)
    {
      persistent := persistent.(closeRequested := true);
    }

    method CancelClose()
      modifies this
      ensures persistent == old(persistent).(closeRequested := false)
      ensures sheet == old(sheet) && view == old(view) && drag == old(drag) && history == old(history)
    {
      persistent := persistent.(closeRequested := false);
    }

    /** `alter_selection`: the clicked kind is altered against its list, and every other kind cleared. */
    method AlterSelection(item: SingleSelection, shift: bool, ctrl: bool) returns (r: Result<(), DocumentError>)
      requires !item.HitboxItem?
      modifies this
      ensures r.Err? <==> SelectionEdit(old(sheet), old(view), item).Err?
      ensures r.Err? ==> r == Err(SelectionEdit(old(sheet), old(view), item).error) && view == old(view)
      ensures SelectionEdit(old(sheet), old(view), item).Ok? ==> r == Ok(()) && view == old(view).(selection :=
        LegacySelections.Altered(old(view.selection), SelectionEdit(old(sheet), old(view), item).value, shift, ctrl))
      ensures sheet == old(sheet) && drag == old(drag) && persistent == old(persistent) && history == old(history)
    {
      var edit := SelectionEdit(sheet, view, item);
      if edit.Err? {
        return Err(edit.error);
      }
      view := view.(selection := LegacySelections.Altered(view.selection, edit.value, shift, ctrl));
      return Ok(());
    }

    /** `edit_animation`: an animation of the sheet becomes the edited one, from its start, paused. */
    method EditAnimation(name: string) returns (r: Result<(), DocumentError>)
      modifies this
      ensures name !in old(sheet.animations) ==>
        r == Err(Documents.AnimationNotInDocument(name)) && view == old(view) && persistent == old(persistent)
      ensures name in old(sheet.animations) ==>
        && r == Ok(())
        && view == EditedView(old(view), name, old(sheet.animations)[name])
        && persistent == old(persistent).(timelineIsPlaying := false)
      ensures sheet == old(sheet) && drag == old(drag) && history == old(history)
    {
      if name !in sheet.animations {
        return Err(Documents.AnimationNotInDocument(name));
      }
      view := EditedView(view, name, sheet.animations[name]);
      persistent := persistent.(timelineIsPlaying := false);
      return Ok(());
    }

    /** `create_animation`: a new empty animation under a fresh name, selected alone and edited. */
    method CreateAnimation() returns (name: string, r: Result<(), DocumentError>)
      modifies this
      ensures r == Ok(())
      ensures name !in old(sheet.animations)
      ensures sheet == old(sheet).(animations := old(sheet.animations)[name := EmptyAnimation])
      ensures view == EditedView(old(view).(selection := LegacySelections.AnimationSelected(name)), name, EmptyAnimation)
      ensures persistent == old(persistent).(timelineIsPlaying := false)
      ensures drag == old(drag) && history == old(history)
    {
      var created;
      name, created := Sheets.CreateAnimation(sheet);
      sheet := created;
      view := view.(selection := LegacySelections.AnimationSelected(name));
      r := EditAnimation(name);
    }

    /** `rename_animation`: the sheet's rename, then the selection and the edited animation follow. */
    method RenameAnimation(oldName: string, newName: string) returns (r: Result<(), DocumentError>)
      modifies this
      ensures Sheets.RenameAnimation(old(sheet), oldName, newName).Err? ==>
        && r == Err(Documents.SheetFailure(Sheets.RenameAnimation(old(sheet), oldName, newName).error))
        && sheet == old(sheet) && view == old(view)
      ensures Sheets.RenameAnimation(old(sheet), oldName, newName).Ok? ==>
        && r == Ok(())
        && sheet == Sheets.RenameAnimation(old(sheet), oldName, newName).value
        && view == RenamedView(old(view), oldName, newName)
      ensures drag == old(drag) && persistent == old(persistent) && history == old(history)
    {
      var renamed := Sheets.RenameAnimation(sheet, oldName, newName);
      if renamed.Err? {
        return Err(Documents.SheetFailure(renamed.error));
      }
      sheet := renamed.value;
      view := RenamedView(view, oldName, newName);
      return Ok(());
    }

    /** `delete_animation`: the animation leaves the sheet, the selection and the workbench. */
    method DeleteAnimation(name: string)
      modifies this
      ensures sheet == Sheets.DeleteAnimation(old(sheet), name) && view == DeletedView(old(view), name)
      ensures drag == old(drag) && persistent == old(persistent) && history == old(history)
    {
      sheet := Sheets.DeleteAnimation(sheet, name);
      view := DeletedView(view, name);
    }

    /** `tick`, which only advances the timeline. */
    method Tick(deltaMillis: nat)
      modifies this
      ensures (view, persistent.timelineIsPlaying) == Advanced(old(sheet), old(view), old(persistent.timelineIsPlaying), deltaMillis)
      ensures persistent == old(persistent).(timelineIsPlaying := persistent.timelineIsPlaying)
      ensures sheet == old(sheet) && drag == old(drag) && history == old(history)
    {
      if !persistent.timelineIsPlaying {
        return;
      }
      view := view.(timelineClock := view.timelineClock + deltaMillis);
      var animation := WorkbenchAnimation(sheet, view);
      var sequence := WorkbenchSequence(sheet, view);
      if animation.Ok? && sequence.Ok? {
        var duration := DurationMillis(sequence.value.1);
        if duration.Some? && duration.value > 0 {
          var d := duration.value;
          if animation.value.1.isLooping {
            view := view.(timelineClock := view.timelineClock % d);
          } else if view.timelineClock >= d {
            persistent := persistent.(timelineIsPlaying := false);
            view := view.(timelineClock := d);
          }
        } else {
          persistent := persistent.(timelineIsPlaying := false);
          view := LegacyViews.SkipToTimelineStart(view);
        }
      }
    }

    /** `play`: nothing when already playing; otherwise needs a current sequence. */
    method Play() returns (r: Result<(), DocumentError>)
      modifies this
      ensures old(persistent.timelineIsPlaying) ==> r == Ok(()) && view == old(view) && persistent == old(persistent)
      ensures !old(persistent.timelineIsPlaying) ==>
        && (Played(old(sheet), old(view)).Err? ==>
              r == Err(Played(old(sheet), old(view)).error) && view == old(view) && persistent == old(persistent))
        && (Played(old(sheet), old(view)).Ok? ==>
              && r == Ok(()) && view == Played(old(sheet), old(view)).value
              && persistent == old(persistent).(timelineIsPlaying := true))
      ensures sheet == old(sheet) && drag == old(drag) && history == old(history)
    {
      if persistent.timelineIsPlaying {
        return Ok(());
      }
      var sequence := WorkbenchSequence(sheet, view);
      if sequence.Err? {
        return Err(sequence.error);
      }
      var duration := DurationMillis(sequence.value.1);
      if duration.Some? && duration.value > 0 && view.timelineClock >= duration.value {
        view := LegacyViews.SkipToTimelineStart(view);
      }
      persistent := persistent.(timelineIsPlaying := true);
      if view.selection.hitboxes.selected != {} || view.selection.keyframes.selected != {} {
        view := view.(selection := LegacySelections.EmptySelection());
      }
      return Ok(());
    }

    method Pause()
      modifies this
      ensures persistent == old(persistent).(timelineIsPlaying := false)
      ensures sheet == old(sheet) && view == old(view) && drag == old(drag) && history == old(history)
    {
      persistent := persistent.(timelineIsPlaying := false);
    }

    method ScrubTimeline(time: nat) returns (r: Result<(), DocumentError>)
      modifies this
      ensures Scrubbed(old(sheet), old(view), time).Err? ==>
        r == Err(Scrubbed(old(sheet), old(view), time).error) && view == old(view)
      ensures Scrubbed(old(sheet), old(view), time).Ok? ==>
        r == Ok(()) && view == Scrubbed(old(sheet), old(view), time).value
      ensures sheet == old(sheet) && drag == old(drag) && persistent == old(persistent) && history == old(history)
    {
      var sequence := WorkbenchSequence(sheet, view);
      if sequence.Err? {
        return Err(sequence.error);
      }
      view := view.(timelineClock := Timeline.ScrubbedClock(sequence.value.1, time));
      return Ok(());
    }

    /** `apply_direction_preset` on the edited animation; the current direction is left as it was. */
    method ApplyDirectionPreset(preset: DirectionPreset) returns (r: Result<(), DocumentError>)
      modifies this
      ensures WorkbenchAnimation(old(sheet), old(view)).Err? ==>
        r == Err(WorkbenchAnimation(old(sheet), old(view)).error) && sheet == old(sheet)
      ensures WorkbenchAnimation(old(sheet), old(view)).Ok? ==>
        var (name, animation) := WorkbenchAnimation(old(sheet), old(view)).value;
        r == Ok(()) && sheet == old(sheet).(animations := old(sheet.animations)[name := Sheets.ApplyDirectionPreset(animation, preset)])
      ensures view == old(view) && drag == old(drag) && persistent == old(persistent) && history == old(history)
    {
      var animation := WorkbenchAnimation(sheet, view);
      if animation.Err? {
        return Err(animation.error);
      }
      var (name, a) := animation.value;
      sheet := sheet.(animations := sheet.animations[name := Sheets.ApplyDirectionPreset(a, preset)]);
      return Ok(());
    }

    /** `begin_drag_keyframe_duration`: select the keyframe unless selected, then note every selected duration. */
    method BeginDragKeyframeDuration(direction: Direction, index: nat) returns (r: Result<(), DocumentError>)
      modifies this
      ensures view == DragView(old(view), (direction, index))
      ensures BegunDrag(old(sheet), view, (direction, index)).Err? ==>
        r == Err(BegunDrag(old(sheet), view, (direction, index)).error) && drag == old(drag)
      ensures BegunDrag(old(sheet), view, (direction, index)).Ok? ==>
        r == Ok(()) && drag == Some(BegunDrag(old(sheet), view, (direction, index)).value)
      ensures sheet == old(sheet) && persistent == old(persistent) && history == old(history)
    {
      view := DragView(view, (direction, index));
      var begun := BegunDrag(sheet, view, (direction, index));
      if begun.Err? {
        return Err(begun.error);
      }
      drag := Some(begun.value);
      return Ok(());
    }

    /** `update_drag_keyframe_duration`: every selected duration becomes its dragged one. */
    method UpdateDragKeyframeDuration(deltaMillis: int) returns (r: Result<(), DocumentError>)
      modifies this
      ensures (sheet, r) == DragUpdated(old(sheet), old(view), old(drag), deltaMillis)
      ensures view == old(view) && drag == old(drag) && persistent == old(persistent) && history == old(history)
    {
      var updated := DragUpdated(sheet, view, drag, deltaMillis);
      sheet := updated.0;
      r := updated.1;
    }

    /** `undo`: step back in history, restoring its sheet and view and pausing, unless at the first entry. */
    method Undo()
      requires Valid()
      modifies this
      ensures Valid() && history == LegacyHistory.Undone(old(history))
      ensures old(history.index) > 0 ==>
        && sheet == history.Current().sheet && view == history.Current().view
        && persistent == old(persistent).(timelineIsPlaying := false)
      ensures old(history.index) == 0 ==> sheet == old(sheet) && view == old(view) && persistent == old(persistent)
      ensures drag == old(drag)
    {
      if history.index > 0 {
        history := LegacyHistory.Undone(history);
        sheet := history.Current().sheet;
        view := history.Current().view;
        persistent := persistent.(timelineIsPlaying := false);
      }
    }

    /** `redo`: step forward in history, restoring its sheet and view and pausing, unless at the last entry. */
    method Redo()
      requires Valid()
      modifies this
      ensures Valid() && history == LegacyHistory.Redone(old(history))
      ensures old(history.index) < |old(history.entries)| - 1 ==>
        && sheet == history.Current().sheet && view == history.Current().view
        && persistent == old(persistent).(timelineIsPlaying := false)
      ensures old(history.index) == |old(history.entries)| - 1 ==>
        sheet == old(sheet) && view == old(view) && persistent == old(persistent)
      ensures drag == old(drag)
    {
      if history.index < |history.entries| - 1 {
        history := LegacyHistory.Redone(history);
        sheet := history.Current().sheet;
        view := history.Current().view;
        persistent := persistent.(timelineIsPlaying := false);
      }
    }

    /** `record_command`, with a pushed view-only entry keeping the version of its sheet. */
    method RecordCommand(command: Command)
      requires Valid()
      modifies this
      ensures Valid() && history == LegacyHistory.RecordedIntended(old(history), command, sheet, view)
      ensures history.Current().sheet == sheet && history.Current().view == view
      ensures sheet == old(sheet) && view == old(view) && drag == old(drag) && persistent == old(persistent)
    {
      LegacyHistory.RecordedIntendedKeepsVersions(history, command, sheet, view);
      LegacyHistory.RecordedReflectsDocument(history, command, sheet, view);
      history := LegacyHistory.RecordedIntended(history, command, sheet, view);
    }

    /** The commands whose operation can fail. */
    static predicate Fallible(command: Command) {
      command.AlterSelection? || command.EditAnimation? || command.RenameAnimation? || command.Play?
      || command.ScrubTimeline? || command.ApplyDirectionPreset? || command.BeginDragKeyframeDuration?
      || command.UpdateDragKeyframeDuration?
    }

    /** The commands that only set fields of the view. */
    static predicate IsViewCommand(command: Command) {
      || command.FocusContentTab? || command.ClearSelection? || command.Pan? || command.CenterWorkbench?
      || command.ZoomInWorkbench? || command.ZoomOutWorkbench? || command.ResetWorkbenchZoom?
      || command.ZoomInTimeline? || command.ZoomOutTimeline? || command.ResetTimelineZoom?
    }

    /** The effect of a view command, on the view alone. */
    static function ViewCommandEffect(view: View, command: Command): (r: View)
      requires IsViewCommand(command)
      ensures r.currentAnimation == view.currentAnimation && r.currentSequence == view.currentSequence
      ensures r.timelineClock == view.timelineClock
    {
      match command
      case FocusContentTab(tab) => view.(contentTab := tab)
      case ClearSelection => view.(selection := LegacySelections.EmptySelection())
      case Pan(delta) => LegacyViews.Pan(view, delta)
      case CenterWorkbench => LegacyViews.CenterWorkbench(view)
      case ZoomInWorkbench => LegacyViews.ZoomInWorkbench(view)
      case ZoomOutWorkbench => LegacyViews.ZoomOutWorkbench(view)
      case ResetWorkbenchZoom => LegacyViews.ResetWorkbenchZoom(view)
      case ZoomInTimeline => LegacyViews.ZoomInTimeline(view)
      case ZoomOutTimeline => LegacyViews.ZoomOutTimeline(view)
      case ResetTimelineZoom => LegacyViews.ResetTimelineZoom(view)
    }

    /** The commands that edit the sheet's content or the selection. */
    static predicate IsContentCommand(command: Command) {
      || command.ImportFrames? || command.AlterSelection? || command.CreateAnimation? || command.EditAnimation?
      || command.RenameAnimation? || command.DeleteAnimation? || command.ApplyDirectionPreset?
    }

    method DispatchContentCommand(command: Command) returns (r: Result<(), DocumentError>)
      requires IsContentCommand(command)
      requires command.AlterSelection? ==> !command.item.HitboxItem?
      modifies this
      ensures r.Err? ==> Fallible(command)
      ensures history == old(history) && drag == old(drag)
      ensures ContentEffect(command, old(Snapshot()), Snapshot(), r)
    {
      match command {
        case ImportFrames(paths) => sheet := Sheets.AddFrames(sheet, paths); r := Ok(());
        case AlterSelection(item, shift, ctrl) =>
          r := AlterSelection(item, shift, ctrl);
        case CreateAnimation =>
          var name, created := CreateAnimation();
          r := created;
          assert AnimationCreated(old(Snapshot()), Snapshot(), name);
        case EditAnimation(name) => r := EditAnimation(name);
        case RenameAnimation(oldName, newName) => r := RenameAnimation(oldName, newName);
        case DeleteAnimation(name) => DeleteAnimation(name); r := Ok(());
        case ApplyDirectionPreset(preset) => r := ApplyDirectionPreset(preset);
      }
    }

    /** The commands of the timeline and of the duration drag. */
    static predicate IsTimelineCommand(command: Command) {
      || command.Tick? || command.Play? || command.Pause? || command.ScrubTimeline?
      || command.BeginDragKeyframeDuration? || command.UpdateDragKeyframeDuration? || command.EndDragKeyframeDuration?
    }

    method DispatchTimelineCommand(command: Command) returns (r: Result<(), DocumentError>)
      requires IsTimelineCommand(command)
      modifies this
      ensures r.Err? ==> Fallible(command)
      ensures history == old(history)
      ensures !command.BeginDragKeyframeDuration? || r.Err? ==> drag == old(drag)
      ensures TimelineEffect(command, old(Snapshot()), Snapshot(), r)
    {
      match command {
        case Tick(deltaMillis) => Tick(deltaMillis); r := Ok(());
        case Play => r := Play();
        case Pause => Pause(); r := Ok(());
        case ScrubTimeline(time) => r := ScrubTimeline(time);
        case BeginDragKeyframeDuration(direction, index) => r := BeginDragKeyframeDuration(direction, index);
        case UpdateDragKeyframeDuration(deltaMillis) => r := UpdateDragKeyframeDuration(deltaMillis);
        case EndDragKeyframeDuration => r := Ok(());
      }
    }

    /** The groups of commands `Dispatch` routes on do not overlap. */
    static lemma GroupsDisjoint(command: Command)
      ensures IsViewCommand(command) ==> !IsContentCommand(command) && !IsTimelineCommand(command)
      ensures IsContentCommand(command) ==> !IsTimelineCommand(command)
      ensures command.Undo? || command.Redo? ==>
        !IsViewCommand(command) && !IsContentCommand(command) && !IsTimelineCommand(command)
    {
    }

    /** The match of `process_command`: each command to the operation that carries it out. */
    method Dispatch(command: Command) returns (r: Result<(), DocumentError>)
      requires Valid()
      requires command.AlterSelection? ==> !command.item.HitboxItem?
      modifies this
      ensures Valid()
      ensures r.Err? ==> Fallible(command)
      ensures !command.Undo? && !command.Redo? ==> history == old(history)
      ensures !command.BeginDragKeyframeDuration? || r.Err? ==> drag == old(drag)
      ensures IsViewCommand(command) ==> view == ViewCommandEffect(old(view), command) && sheet == old(sheet)
      ensures IsViewCommand(command) ==> r == Ok(()) && drag == old(drag) && persistent == old(persistent)
      ensures IsContentCommand(command) ==> ContentEffect(command, old(Snapshot()), Snapshot(), r)
      ensures IsTimelineCommand(command) ==> TimelineEffect(command, old(Snapshot()), Snapshot(), r)
      ensures command.Undo? ==> history == LegacyHistory.Undone(old(history))
      ensures command.Redo? ==> history == LegacyHistory.Redone(old(history))
      ensures (command.Undo? || command.Redo?) && history.index != old(history.index) ==>
        && sheet == history.Current().sheet && view == history.Current().view
        && persistent == old(persistent).(timelineIsPlaying := false)
      ensures (command.Undo? || command.Redo?) && history.index == old(history.index) ==>
        sheet == old(sheet) && view == old(view) && persistent == old(persistent)
      ensures command.Undo? || command.Redo? ==> r == Ok(())
    {
      GroupsDisjoint(command);
      r := Ok(());
      if IsViewCommand(command) {
        view := ViewCommandEffect(view, command);
      } else if IsContentCommand(command) {
        r := DispatchContentCommand(command);
      } else if IsTimelineCommand(command) {
        r := DispatchTimelineCommand(command);
      } else if command.Undo? {
        Undo();
      } else {
        assert command.Redo?;
        Redo();
      }
    }

    /**
     * `process_command`: run the command; on failure return at once, with
     * whatever the operation already changed; otherwise end any drag
     * unless the command begins or continues one, and record the command.
     * A successful command leaves the history's current entry equal to the
     * document. `dispatched` is the state the command's own operation left.
     */
    method ProcessCommand(command: Command) returns (r: Result<(), DocumentError>, ghost before: History, ghost dispatched: State)
      requires Valid()
      requires command.AlterSelection? ==> !command.item.HitboxItem?
      modifies this
      ensures before == old(history) && before.Valid()
      ensures Valid()
      ensures r.Err? ==> Fallible(command) && history == old(history) && drag == old(drag)
      ensures r.Ok? ==> history.Current().sheet == sheet && history.Current().view == view
      ensures r.Ok? && !command.BeginDragKeyframeDuration? && !command.UpdateDragKeyframeDuration? ==> drag == None
      ensures r.Ok? && command.UpdateDragKeyframeDuration? ==> drag == old(drag)
      ensures Snapshot() == if r.Ok? && !command.BeginDragKeyframeDuration? && !command.UpdateDragKeyframeDuration?
                            then dispatched.(drag := None) else dispatched
      ensures IsViewCommand(command) ==> r == Ok(()) && dispatched == old(Snapshot()).(view := ViewCommandEffect(old(view), command))
      ensures IsContentCommand(command) ==> ContentEffect(command, old(Snapshot()), dispatched, r)
      ensures IsTimelineCommand(command) ==> TimelineEffect(command, old(Snapshot()), dispatched, r)
      ensures r.Ok? && !command.Undo? && !command.Redo? ==> history == LegacyHistory.RecordedIntended(before, command, sheet, view)
      ensures command.Undo? ==> r == Ok(()) && history == LegacyHistory.RecordedIntended(LegacyHistory.Undone(before), command, sheet, view)
      ensures command.Redo? ==> r == Ok(()) && history == LegacyHistory.RecordedIntended(LegacyHistory.Redone(before), command, sheet, view)
    {
      before := history;
      GroupsDisjoint(command);
      r := Dispatch(command);
      dispatched := Snapshot();
      if r.Err? {
        return;
      }
      if !command.BeginDragKeyframeDuration? && !command.UpdateDragKeyframeDuration? {
        drag := None;
      }
      RecordCommand(command);
    }
  }
}
