/**
 * The command processor of a document: `Document::process_command` resets
 * the gesture sessions unless the command keeps them, runs the command,
 * sanitises the view, and records the command in the undo history when it is
 * recordable. `process_command_internal` dispatches each command to the
 * operation that carries it out.
 */
module CommandProcessing {
  import opened Wrappers
  import opened Sheets
  import opened Views
  import opened Documents
  import opened Commands
  import opened Selections
  import History
  import Content
  import Clipboards
  import DocumentSelection
  import Timeline
  import Gestures
  import Drags
  import HitboxDrags
  import KeyframeEdits
  import Relocation
  import ExportEditing

  // ----- Commands that only write view fields -----

  /** The part of the view that view-field commands leave alone: what is edited, the clock and the selection. */
  predicate KeepsNavigation(v: View, w: View) {
    && w.selection == v.selection && w.currentAnimation == v.currentAnimation
    && w.currentSequence == v.currentSequence && w.timelineClock == v.timelineClock
  }

  /** The commands that write the frame and animation list settings. */
  predicate IsListCommand(c: Command) {
    || c.SetFramesListMode? || c.SetFramesListOffset? || c.FilterFrames? || c.FilterAnimations?
    || c.SetAnimationsListOffset? || c.SetHitboxesListOffset?
  }

  function ListCommandEffect(v: View, c: Command): (r: View)
    requires IsListCommand(c)
    ensures KeepsNavigation(v, r)
    ensures r.workbenchZoomFactor == v.workbenchZoomFactor && r.workbenchOffset == v.workbenchOffset
    ensures c.SetFramesListOffset? ==> FramesListOffset(r) == c.offset && r.framesListMode == v.framesListMode
  {
    if c.SetFramesListMode? then v.(framesListMode := c.mode)
    else if c.SetFramesListOffset? then Views.SetFramesListOffset(v, c.offset)
    else if c.FilterFrames? then v.(framesFilter := c.query)
    else if c.FilterAnimations? then v.(animationsFilter := c.query)
    else if c.SetAnimationsListOffset? then v.(animationsListOffset := c.offset)
    else v.(hitboxesListOffset := c.offset)
  }

  /** The commands that move or zoom the workbench by whole steps. */
  predicate IsWorkbenchCommand(c: Command) {
    || c.CenterWorkbench? || c.ZoomInWorkbench? || c.ZoomInWorkbenchAround? || c.ZoomOutWorkbench?
    || c.ZoomOutWorkbenchAround? || c.SetWorkbenchZoomFactor? || c.ResetWorkbenchZoom?
  }

  /** Zooming around a point changes the zoom factor as plain zooming does. */
  function WorkbenchCommandEffect(v: View, c: Command): (r: View)
    requires IsWorkbenchCommand(c)
    ensures KeepsNavigation(v, r)
    ensures !c.CenterWorkbench? ==> ZoomInBounds(r)
    ensures ZoomInBounds(v) ==> ZoomInBounds(r)
  {
    if c.CenterWorkbench? then Views.CenterWorkbench(v)
    else if c.ZoomInWorkbench? || c.ZoomInWorkbenchAround? then Views.ZoomInWorkbench(v)
    else if c.ZoomOutWorkbench? || c.ZoomOutWorkbenchAround? then Views.ZoomOutWorkbench(v)
    else if c.SetWorkbenchZoomFactor? then Views.SetWorkbenchZoomFactor(v, c.factor)
    else Views.ResetWorkbenchZoom(v)
  }

  /** The commands that switch display and snapping settings, and the timeline scroll position. */
  predicate IsDisplayCommand(c: Command) {
    || c.EnableSpriteDarkening? || c.DisableSpriteDarkening? || c.HideSprite? || c.ShowSprite?
    || c.HideHitboxes? || c.ShowHitboxes? || c.HideOrigin? || c.ShowOrigin?
    || c.SetSnapKeyframeDurations? || c.SetSnapKeyframeToOtherKeyframes?
    || c.SetSnapKeyframeToMultiplesOfDuration? || c.SetKeyframeSnappingBaseDuration?
    || c.SetTimelineOffset? || c.LockHitboxes? || c.UnlockHitboxes?
  }

  function DisplayCommandEffect(v: View, c: Command): (r: View)
    requires IsDisplayCommand(c)
    ensures KeepsNavigation(v, r)
    ensures r.workbenchZoomFactor == v.workbenchZoomFactor && r.workbenchOffset == v.workbenchOffset
    ensures 1 <= v.keyframeSnappingBaseMillis <= 1000 ==> 1 <= r.keyframeSnappingBaseMillis <= 1000
  {
    if c.EnableSpriteDarkening? || c.DisableSpriteDarkening? then v.(darkenSprites := c.EnableSpriteDarkening?)
    else if c.HideSprite? || c.ShowSprite? then v.(hideSprite := c.HideSprite?)
    else if c.HideHitboxes? || c.ShowHitboxes? then v.(hideHitboxes := c.HideHitboxes?)
    else if c.HideOrigin? || c.ShowOrigin? then v.(hideOrigin := c.HideOrigin?)
    else if c.LockHitboxes? || c.UnlockHitboxes? then v.(lockHitboxes := c.LockHitboxes?)
    else if c.SetSnapKeyframeDurations? then v.(snapKeyframeDurations := c.snap)
    else if c.SetSnapKeyframeToOtherKeyframes? then v.(snapKeyframesToOtherKeyframes := c.snap)
    else if c.SetSnapKeyframeToMultiplesOfDuration? then v.(snapKeyframesToMultiplesOfDuration := c.snap)
    else if c.SetKeyframeSnappingBaseDuration? then v.(keyframeSnappingBaseMillis := ClampSnappingBase(c.baseMillis))
    else v.(timelineOffset := c.offsetMillis)
  }

  /** The commands whose whole effect is to write fields of the view. */
  predicate IsViewFieldCommand(c: Command) {
    IsListCommand(c) || IsWorkbenchCommand(c) || IsDisplayCommand(c)
  }

  /**
   * The commands that move the workbench or the timeline by floating-point
   * amounts (panning and the timeline zoom). Their effect on the view is not
   * modelled: they leave the modelled view as it is.
   */
  predicate IsFloatingPointViewCommand(c: Command) {
    || c.Pan? || c.ZoomInTimeline? || c.ZoomInTimelineAround? || c.ZoomOutTimeline?
    || c.ZoomOutTimelineAround? || c.SetTimelineZoomAmount? || c.ResetTimelineZoom? || c.PanTimeline?
  }

  /** The view a view-field command leaves. */
  function ViewCommandEffect(v: View, c: Command): (r: View)
    requires IsViewFieldCommand(c)
    ensures KeepsNavigation(v, r)
    ensures ZoomInBounds(v) ==> ZoomInBounds(r)
  {
    if IsListCommand(c) then ListCommandEffect(v, c)
    else if IsWorkbenchCommand(c) then WorkbenchCommandEffect(v, c)
    else DisplayCommandEffect(v, c)
  }

  // ----- What a document may be asked to do -----

  /**
   * The calls the editor never makes: a shift-click on a frame, an animation
   * or a hitbox when that list is empty (the range over an empty list is out
   * of bounds in the editor).
   */
  predicate Admissible(sheet: Sheet, view: View, c: Command) {
    && (c.SelectFrame? && c.shift ==> |sheet.frames| > 0)
    && (c.SelectAnimation? && c.shift ==> |sheet.animations| > 0)
    && (c.SelectHitbox? && c.shift && WorkbenchKeyframe(sheet, view).Ok? ==>
          |WorkbenchKeyframe(sheet, view).value.1.hitboxes| > 0)
  }

  // ----- What each command does to the document -----

  /** The parts of a document a command may change besides the history. */
  datatype State = State(sheet: Sheet, view: View, transient: Transient, persistent: Persistent)

  function StateOf(doc: Document): State
    reads doc
  {
    State(doc.sheet, doc.view, doc.transient, doc.persistent)
  }

  /** A fallible edit of the sheet: on error nothing changes; otherwise the sheet becomes the edited one. */
  predicate SheetEdited(s: State, t: State, r: Result<(), DocumentError>, e: Result<Sheet, DocumentError>) {
    match e
    case Err(error) => r == Err(error) && t == s
    case Ok(sheet) => r == Ok(()) && t == s.(sheet := sheet)
  }

  /** What the selection commands do, by the specification function of each. */
  ghost predicate SelectionEffect(c: Command, s: State, t: State, r: Result<(), DocumentError>)
    requires IsSelectionCommand(c) && Admissible(s.sheet, s.view, c)
  {
    if c.SelectFrame? then
      r == Ok(()) && t == s.(view := DocumentSelection.FrameClicked(s.sheet, s.view, c.path, c.shift, c.ctrl))
    else if c.SelectAnimation? then
      r == Ok(()) && t == s.(view := DocumentSelection.AnimationClicked(s.sheet, s.view, c.name, c.shift, c.ctrl))
    else if c.SelectKeyframe? then
      && t == s.(view := t.view)
      && (t.view, r) == DocumentSelection.KeyframeSelected(s.sheet, s.view, s.persistent.timelineIsPlaying,
                                                           c.direction, c.index, c.shift, c.ctrl)
    else if c.SelectHitbox? then
      t == s.(view := t.view) && (t.view, r) == DocumentSelection.HitboxClicked(s.sheet, s.view, c.name, c.shift, c.ctrl)
    else if c.SelectAll? then
      && t == s.(view := t.view)
      && match DocumentSelection.AllSelected(s.sheet, s.view)
         case Err(e) => r == Err(e) && t.view == s.view
         case Ok(v) => r.Ok? && t.view == v
    else if c.ClearSelection? then
      r == Ok(()) && t == s.(view := DocumentSelection.SelectionCleared(s.view))
    else if c.BrowseSelection? then
      t == s.(view := t.view) && (t.view, r) == DocumentSelection.SelectionBrowsed(s.sheet, s.view, c.browse, c.shift)
    else if c.BrowseToEnd? || c.BrowseToStart? then
      && t == s.(view := t.view)
      && (t.view, r) == DocumentSelection.BrowsedToEdge(s.sheet, s.view, s.persistent.timelineIsPlaying, c.shift, c.BrowseToEnd?)
    else if c.NudgeSelection? then
      && t == s.(sheet := t.sheet, view := t.view)
      && Outcome(t.sheet, t.view, r) == DocumentSelection.SelectionNudged(s.sheet, s.view, c.nudge, c.largeNudge)
    else if c.DeleteSelection? then
      && t == s.(sheet := t.sheet, view := t.view)
      && Outcome(t.sheet, t.view, r) == DocumentSelection.SelectionDeleted(s.sheet, s.view)
    else
      var selected := s.view.selection;
      && r == Ok(())
      && t == s.(transient := s.transient.(rename :=
           if selected.animations.lastInteracted.Some? then Some(RenamingAnimation(selected.animations.lastInteracted.value))
           else if selected.hitboxes.lastInteracted.Some? then Some(RenamingHitbox(selected.hitboxes.lastInteracted.value.name))
           else s.transient.rename))
  }

  /** `create_animation` added the new animation under the fresh name `name` and edits it. */
  predicate AnimationCreated(s: State, t: State, name: string) {
    && name !in s.sheet.animations
    && t.sheet == s.sheet.(animations := s.sheet.animations[name := Content.NewAnimation])
    && t == s.(sheet := t.sheet,
               view := Content.EditedView(t.sheet, SelectAnimationsOnly(s.view, [name]), name),
               persistent := s.persistent.(timelineIsPlaying := false))
  }

  /** What the commands that add and remove frames and animations do. */
  ghost predicate ContentEffect(c: Command, s: State, t: State, r: Result<(), DocumentError>)
    requires IsContentCommand(c)
  {
    if c.Paste? then
      t == s.(sheet := t.sheet, view := t.view) && Clipboards.Pasted(s.sheet, s.view, c.clipboard, t.sheet, t.view, r)
    else if c.ImportFrames? then
      r == Ok(()) && t == s.(sheet := FramesAdded(s.sheet, c.paths))
    else if c.DeleteFrame? then
      r == Ok(()) && t == s.(sheet := Sheets.DeleteFrame(s.sheet, c.path))
    else if c.DeleteSelectedFrames? then
      r == Ok(()) && t == s.(sheet := t.sheet) && Content.FramesRemoved(s.sheet, t.sheet, s.view.selection.frames.selected)
    else if c.CreateAnimation? then
      r == Ok(()) && exists name :: AnimationCreated(s, t, name)
    else if c.EditAnimation? then
      && r == (if c.name in s.sheet.animations then Ok(()) else Err(AnimationNotInDocument(c.name)))
      && t == s.(view := Content.EditedView(s.sheet, s.view, c.name), persistent := s.persistent.(timelineIsPlaying := false))
    else if c.DeleteAnimation? then
      r == Ok(()) && t == s.(sheet := Sheets.DeleteAnimation(s.sheet, c.name))
    else
      r == Ok(()) && t == s.(sheet := s.sheet.(animations := s.sheet.animations - s.view.selection.animations.selected))
  }

  /** `play` started the timeline, from 0 if the clock was at or past the end, with no hitbox selected. */
  predicate Started(s: State, t: State, sequence: Sequence) {
    var duration := DurationMillis(sequence);
    var restart := duration.Some? && duration.value <= s.view.timelineClock;
    t == s.(view := s.view.(timelineClock := if restart then 0 else s.view.timelineClock,
                            selection := s.view.selection.(hitboxes := EmptySelection())),
            persistent := s.persistent.(timelineIsPlaying := true))
  }

  /** What the timeline commands do. */
  ghost predicate TimelineEffect(c: Command, s: State, t: State, r: Result<(), DocumentError>)
    requires IsTimelineCommand(c)
  {
    if c.Tick? then
      && r == Ok(())
      && t == s.(view := t.view, persistent := s.persistent.(timelineIsPlaying := t.persistent.timelineIsPlaying))
      && (t.view, t.persistent.timelineIsPlaying) == Timeline.Advance(s.sheet, s.view, s.persistent.timelineIsPlaying, c.deltaMillis)
    else if c.Play? then
      match WorkbenchSequence(s.sheet, s.view)
      case Err(e) => r == Err(e) && t == s
      case Ok((_, sequence)) => r.Ok? && Started(s, t, sequence)
    else if c.Pause? then
      && r.Ok?
      && t == s.(view := if |s.view.selection.keyframes.selected| <= 1 then TrySelectCurrentKeyframe(s.sheet, s.view) else s.view,
                 persistent := s.persistent.(timelineIsPlaying := false))
    else if c.ScrubTimeline? then
      t == s.(view := t.view) && (t.view, r) == Timeline.Scrubbed(s.sheet, s.view, c.timeMillis)
    else if c.JumpToAnimationStart? then
      t == s.(view := t.view) && (t.view, r) == Timeline.JumpedToAnimationStart(s.sheet, s.view)
    else if c.JumpToAnimationEnd? then
      t == s.(view := t.view) && (t.view, r) == Timeline.JumpedToAnimationEnd(s.sheet, s.view)
    else if c.JumpToPreviousFrame? || c.JumpToNextFrame? then
      t == s.(view := t.view) && (t.view, r) == Timeline.FrameJumped(s.sheet, s.view, c.JumpToNextFrame?)
    else if c.SetAnimationLooping? || c.ApplyDirectionPreset? then
      match WorkbenchAnimation(s.sheet, s.view)
      case Err(e) => r == Err(e) && t == s
      case Ok((name, animation)) =>
        && r.Ok?
        && t == s.(sheet := s.sheet.(animations := s.sheet.animations[name :=
             if c.SetAnimationLooping? then animation.(isLooping := c.looping)
             else Sheets.ApplyDirectionPreset(animation, c.preset)]))
    else if c.SelectDirection? then
      r.Ok? && t == s.(view := TrySelectCurrentKeyframe(s.sheet, s.view.(currentSequence := Some(c.direction))))
    else
      t == s.(sheet := t.sheet, view := t.view) && Outcome(t.sheet, t.view, r) == Timeline.KeyframeDeletion(s.sheet, s.view)
  }

  /** `end_rename_animation` with the animation `oldName` being renamed. */
  predicate AnimationRenameEnded(s: State, t: State, oldName: string, newName: string, r: Result<(), DocumentError>) {
    && t.transient == s.transient.(rename := None) && t.persistent == s.persistent
    && match Sheets.RenameAnimation(s.sheet, oldName, newName)
       case Err(e) => r == Err(SheetFailure(e)) && t.sheet == s.sheet && t.view == s.view
       case Ok(sheet) => r == Ok(()) && t.sheet == sheet && t.view == Content.RenamedView(s.view, oldName, newName)
  }

  /** `end_rename_hitbox` with the hitbox `oldName` being renamed. */
  predicate HitboxRenameEnded(s: State, t: State, oldName: string, newName: string, r: Result<(), DocumentError>) {
    var k := WorkbenchKeyframe(s.sheet, s.view);
    && t.transient == s.transient.(rename := None) && t.persistent == s.persistent
    && (k.Err? ==> r == Err(k.error))
    && (k.Ok? && Sheets.RenameHitbox(k.value.1, oldName, newName).Err? ==>
          r == Err(SheetFailure(Sheets.RenameHitbox(k.value.1, oldName, newName).error)))
    && (r.Err? ==> t.sheet == s.sheet && t.view == s.view)
    && (r.Ok? ==>
          var animation := WorkbenchAnimation(s.sheet, s.view).value.0;
          var (slot, keyframe) := k.value;
          && Sheets.RenameHitbox(keyframe, oldName, newName).Ok?
          && t.sheet == KeyframeEdits.WithKeyframe(s.sheet, animation, slot, Sheets.RenameHitbox(keyframe, oldName, newName).value)
          && t.view == SelectHitboxesOnly(s.view, [HitboxRef(animation, slot.0, slot.1, newName)]))
  }

  /** The renames, drag-and-drops, duration drags, nudges and resizes: what each step of each gesture does. */
  ghost predicate GestureEffect(c: Command, s: State, t: State, r: Result<(), DocumentError>)
    requires IsGestureCommand(c)
  {
    if c.BeginRenameAnimation? then
      r == Ok(()) && t == s.(transient := s.transient.(rename := Some(RenamingAnimation(c.name))))
    else if c.BeginRenameHitbox? then
      r == Ok(()) && t == s.(transient := s.transient.(rename := Some(RenamingHitbox(c.name))))
    else if c.CancelRename? then
      r == Ok(()) && t == s.(transient := s.transient.(rename := None))
    else if c.EndRenameAnimation? then
      match Gestures.AnimationBeingRenamed(s.transient)
      case None => r == Err(NotRenamingAnyAnimation) && t == s
      case Some(oldName) => AnimationRenameEnded(s, t, oldName, c.name, r)
    else if c.EndRenameHitbox? then
      match Gestures.HitboxBeingRenamed(s.transient)
      case None => r == Err(NotRenamingAnyHitbox) && t == s
      case Some(oldName) => HitboxRenameEnded(s, t, oldName, c.name, r)
    else if c.BeginDragAndDropFrame? then
      && r == Ok(())
      && t == s.(view := if c.path in s.view.selection.frames.selected then s.view else SelectFramesOnly(s.view, [c.path]),
                 transient := s.transient.(frameDragAndDrop := Some(c.path)))
    else if c.DropFrameOnTimeline? then
      && t.persistent == s.persistent
      && Outcome(t.sheet, t.view, r) == Gestures.FrameDrop(s.sheet, s.view, s.persistent.timelineIsPlaying, c.direction, c.index)
      && t.transient == if r.Ok? then s.transient.(frameDragAndDrop := None) else s.transient
    else if c.EndDragAndDropFrame? then
      r == Ok(()) && t == s.(transient := s.transient.(frameDragAndDrop := None))
    else if c.BeginDragAndDropKeyframe? then
      match WorkbenchAnimation(s.sheet, s.view)
      case Err(e) => r == Err(e) && t == s
      case Ok((name, _)) =>
        var k := KeyframeRef(name, c.direction, c.index);
        && r == Ok(())
        && t == s.(view := if k in s.view.selection.keyframes.selected then s.view else SelectKeyframesOnly(s.view, [k]),
                   transient := s.transient.(keyframeDragAndDrop := Some((c.direction, c.index))))
    else if c.DropKeyframeOnTimeline? then
      && t.persistent == s.persistent
      && Outcome(t.sheet, t.view, r) == Gestures.KeyframeDrop(s.sheet, s.view, s.persistent.timelineIsPlaying, c.direction, c.index)
      && t.transient == if r.Ok? then s.transient.(keyframeDragAndDrop := None) else s.transient
    else if c.EndDragAndDropKeyframe? then
      r == Ok(()) && t == s.(transient := s.transient.(keyframeDragAndDrop := None))
    else if c.BeginDragKeyframeDuration? then
      && t == s.(view := t.view, transient := t.transient)
      && (t.view, t.transient, r) == Drags.DurationDragBegun(s.sheet, s.view, s.transient, (c.direction, c.index))
    else if c.UpdateDragKeyframeDuration? then
      && t == s.(sheet := t.sheet, view := t.view)
      && Outcome(t.sheet, t.view, r) == Drags.DurationDragged(s.sheet, s.view, s.transient.keyframeDurationDrag, c.dragMillis)
    else if c.EndDragKeyframeDuration? then
      r == Ok(()) && t == s.(transient := s.transient.(keyframeDurationDrag := None))
    else if c.BeginNudgeKeyframe? then
      && t == s.(view := t.view, transient := t.transient)
      && (t.view, t.transient, r) == Drags.KeyframeNudgeBegun(s.sheet, s.view, s.transient, (c.direction, c.index))
    else if c.UpdateNudgeKeyframe? then
      && t == s.(sheet := t.sheet, view := t.view)
      && exists order: seq<KeyframeRef> ::
           && |order| == |s.view.selection.keyframes.selected|
           && (forall k :: k in order <==> k in s.view.selection.keyframes.selected)
           && Outcome(t.sheet, t.view, r)
              == Drags.KeyframesNudged(s.sheet, s.view, s.transient.keyframeNudge, c.displacement, c.bothAxis, order)
    else if c.EndNudgeKeyframe? then
      r == Ok(()) && t == s.(transient := s.transient.(keyframeNudge := None))
    else if c.BeginNudgeHitbox? then
      && t == s.(view := t.view, transient := t.transient)
      && (t.view, t.transient, r) == HitboxDrags.HitboxNudgeBegun(s.sheet, s.view, s.transient, c.name)
    else if c.UpdateNudgeHitbox? then
      && t == s.(sheet := t.sheet, view := t.view)
      && Outcome(t.sheet, t.view, r) == HitboxDrags.HitboxesNudged(s.sheet, s.view, s.transient.hitboxNudge, c.displacement, c.bothAxis)
    else if c.EndNudgeHitbox? then
      r == Ok(()) && t == s.(transient := s.transient.(hitboxNudge := None))
    else if c.BeginResizeHitbox? then
      t == s.(transient := t.transient) && (t.transient, r) == HitboxDrags.HitboxResizeBegun(s.sheet, s.view, s.transient, c.name, c.axis)
    else if c.UpdateResizeHitbox? then
      && t == s.(sheet := t.sheet, view := t.view)
      && Outcome(t.sheet, t.view, r)
         == HitboxDrags.HitboxesResized(s.sheet, s.view, s.transient.hitboxResize, c.displacement, c.preserveAspectRatio)
    else if c.EndResizeHitbox? then
      r == Ok(()) && t == s.(transient := s.transient.(hitboxResize := None))
    else
      r == Ok(()) && t == s
  }

  /** `create_hitbox` added a new hitbox under the fresh name `name` to the keyframe under the clock, selected it and started renaming it. */
  predicate HitboxCreated(s: State, t: State, name: string)
    requires WorkbenchKeyframe(s.sheet, s.view).Ok?
  {
    var animation := WorkbenchAnimation(s.sheet, s.view).value.0;
    var ((direction, index), keyframe) := WorkbenchKeyframe(s.sheet, s.view).value;
    && name !in keyframe.hitboxes
    && t == s.(sheet := KeyframeEdits.WithKeyframe(s.sheet, animation, (direction, index),
                                                   keyframe.(hitboxes := keyframe.hitboxes[name := NewHitbox()])),
               view := SelectHitboxesOnly(s.view, [HitboxRef(animation, direction, index, name)]),
               transient := s.transient.(rename := Some(RenamingHitbox(name))))
  }

  /** What the edits of the selected keyframes and of the hitboxes of the keyframe under the clock do. */
  ghost predicate KeyframeEditEffect(c: Command, s: State, t: State, r: Result<(), DocumentError>)
    requires IsKeyframeEditCommand(c)
  {
    if c.SetKeyframeDuration? then
      SheetEdited(s, t, r, KeyframeEdits.EditSelectedKeyframes(s.sheet, s.view, KeyframeEdits.DurationSetTo(c.durationMillis)))
    else if c.SetKeyframeOffsetX? then
      SheetEdited(s, t, r, KeyframeEdits.EditSelectedKeyframes(s.sheet, s.view, KeyframeEdits.OffsetXSetTo(c.x)))
    else if c.SetKeyframeOffsetY? then
      SheetEdited(s, t, r, KeyframeEdits.EditSelectedKeyframes(s.sheet, s.view, KeyframeEdits.OffsetYSetTo(c.y)))
    else if c.CreateHitbox? then
      match WorkbenchKeyframe(s.sheet, s.view)
      case Err(e) => r == Err(e) && t == s
      case Ok(_) => r == Ok(()) && exists name :: HitboxCreated(s, t, name)
    else if c.DeleteHitbox? then
      match WorkbenchKeyframeMut(s.sheet, s.view)
      case Err(e) => r == Err(e) && t == s
      case Ok((slot, keyframe)) =>
        && r == Ok(())
        && t == s.(sheet := KeyframeEdits.WithKeyframe(s.sheet, WorkbenchAnimation(s.sheet, s.view).value.0, slot,
                                                       Sheets.DeleteHitbox(keyframe, c.name)))
    else if c.DeleteSelectedHitboxes? then
      && r == Ok(())
      && match WorkbenchKeyframe(s.sheet, s.view)
         case Err(_) => t == s
         case Ok((slot, keyframe)) =>
           t == s.(sheet := KeyframeEdits.WithKeyframe(s.sheet, WorkbenchAnimation(s.sheet, s.view).value.0, slot,
                      keyframe.(hitboxes := keyframe.hitboxes - KeyframeEdits.SelectedHitboxNames(s.view))))
    else if c.SetHitboxPositionX? then
      SheetEdited(s, t, r, KeyframeEdits.EditSelectedHitboxes(s.sheet, s.view, KeyframeEdits.PositionXSetTo(c.x)))
    else if c.SetHitboxPositionY? then
      SheetEdited(s, t, r, KeyframeEdits.EditSelectedHitboxes(s.sheet, s.view, KeyframeEdits.PositionYSetTo(c.y)))
    else if c.SetHitboxWidth? then
      SheetEdited(s, t, r, KeyframeEdits.EditSelectedHitboxes(s.sheet, s.view,
                                                              KeyframeEdits.WidthSetTo(c.width, s.persistent.preserveAspectRatio)))
    else
      SheetEdited(s, t, r, KeyframeEdits.EditSelectedHitboxes(s.sheet, s.view,
                                                              KeyframeEdits.HeightSetTo(c.height, s.persistent.preserveAspectRatio)))
  }

  /** The export path a `SetExport…` command edits. */
  function ExportPathOf(c: Command): ExportEditing.ExportPath
    requires c.SetExportTemplateFile? || c.SetExportAtlasImageFile? || c.SetExportMetadataFile? || c.SetExportMetadataPathsRoot?
  {
    if c.SetExportTemplateFile? then ExportEditing.TemplateFile
    else if c.SetExportAtlasImageFile? then ExportEditing.TextureFile
    else if c.SetExportMetadataFile? then ExportEditing.MetadataFile
    else ExportEditing.MetadataPathsRoot
  }

  /** What the relocate-frames and export-settings dialogs do; `onDisk` is the set of files present on disk. */
  ghost predicate SessionEffect(c: Command, onDisk: set<Path>, s: State, t: State, r: Result<(), DocumentError>)
    requires IsSessionCommand(c)
  {
    if c.BeginRelocateFrames? then
      r == Ok(()) && t == s.(persistent := s.persistent.(relocateFramesEdit := Some(map[])))
    else if c.RelocateFrame? then
      match s.persistent.relocateFramesEdit
      case None => r == Err(NotRelocatingFrames) && t == s
      case Some(edit) =>
        && r == Ok(())
        && t == s.(persistent := s.persistent.(relocateFramesEdit := Some(Relocation.RelocatedEdit(
             edit, s.sheet.frames, s.persistent.missingTextures, c.from, c.to, onDisk))))
    else if c.CancelRelocateFrames? then
      r == Ok(()) && t == s.(persistent := s.persistent.(relocateFramesEdit := None))
    else if c.EndRelocateFrames? then
      match s.persistent.relocateFramesEdit
      case None => r == Err(NotRelocatingFrames) && t == s
      case Some(edit) =>
        r == Ok(()) && t == s.(sheet := Relocation.RelocatedSheet(s.sheet, edit), persistent := s.persistent.(relocateFramesEdit := None))
    else if c.BeginExportAs? then
      r == Ok(()) && t == s.(persistent := ExportEditing.BeganExportAs(s.sheet, s.persistent))
    else if c.CancelExportAs? then
      r == Ok(()) && t == s.(persistent := s.persistent.(exportSettingsEdit := None))
    else if c.EndExportAs? then
      match ExportEditing.EndedExportAs(s.sheet, s.persistent)
      case Err(e) => r == Err(e) && t == s
      case Ok((sheet, persistent)) => r == Ok(()) && t == s.(sheet := sheet, persistent := persistent)
    else
      match ExportEditing.SetExportPath(s.persistent, ExportPathOf(c), c.path)
      case Err(e) => r == Err(e) && t == s
      case Ok(persistent) => r == Ok(()) && t == s.(persistent := persistent)
  }

  /**
   * Undo and redo: when the history index moved to `index`, the sheet and
   * view are those of that entry and the timeline stops; otherwise nothing
   * changes.
   */
  predicate HistoryRestored(s: State, t: State, history: seq<HistoryEntry>, moved: bool, index: nat) {
    if moved then
      && index < |history|
      && t == s.(sheet := history[index].sheet, view := history[index].view,
                 persistent := s.persistent.(timelineIsPlaying := false))
    else t == s
  }

  /** The state a command starts from once `process_command` has reset the gesture sessions it does not keep. */
  function Reset(c: Command, s: State): (t: State)
    ensures t.sheet == s.sheet && t.view == s.view && t.persistent == s.persistent
  {
    if PreservesTransientState(c) then s else s.(transient := DefaultTransient)
  }

  // ----- Dispatch, by group of commands -----

  predicate IsSelectionCommand(c: Command) {
    || c.SelectFrame? || c.SelectAnimation? || c.SelectKeyframe? || c.SelectHitbox? || c.SelectAll?
    || c.ClearSelection? || c.BrowseSelection? || c.BrowseToEnd? || c.BrowseToStart?
    || c.NudgeSelection? || c.DeleteSelection? || c.BeginRenameSelection?
  }

  method ProcessSelectionCommand(doc: Document, command: Command) returns (r: Result<(), DocumentError>)
    requires IsSelectionCommand(command) && Admissible(doc.sheet, doc.view, command)
    modifies doc
    ensures doc.KeepsHistory() && doc.persistent == old(doc.persistent)
    ensures !command.BeginRenameSelection? ==> doc.transient == old(doc.transient)
    ensures SelectionEffect(command, old(StateOf(doc)), StateOf(doc), r)
  {
    r := Ok(());
    if command.SelectFrame? {
      DocumentSelection.SelectFrame(doc, command.path, command.shift, command.ctrl);
    } else if command.SelectAnimation? {
      DocumentSelection.SelectAnimation(doc, command.name, command.shift, command.ctrl);
    } else if command.SelectKeyframe? {
      r := DocumentSelection.SelectKeyframe(doc, command.direction, command.index, command.shift, command.ctrl);
    } else if command.SelectHitbox? {
      r := DocumentSelection.SelectHitbox(doc, command.name, command.shift, command.ctrl);
    } else if command.SelectAll? {
      r := DocumentSelection.SelectAll(doc);
    } else if command.ClearSelection? {
      DocumentSelection.ClearSelection(doc);
    } else if command.BrowseSelection? {
      r := DocumentSelection.BrowseSelection(doc, command.browse, command.shift);
    } else if command.BrowseToEnd? {
      r := DocumentSelection.BrowseToEdge(doc, command.shift, true);
    } else if command.BrowseToStart? {
      r := DocumentSelection.BrowseToEdge(doc, command.shift, false);
    } else if command.NudgeSelection? {
      r := DocumentSelection.NudgeSelection(doc, command.nudge, command.largeNudge);
    } else if command.DeleteSelection? {
      r := DocumentSelection.DeleteSelection(doc);
    } else if command.BeginRenameSelection? {
      DocumentSelection.BeginRenameSelection(doc);
    }
  }

  predicate IsContentCommand(c: Command) {
    || c.Paste? || c.ImportFrames? || c.DeleteFrame? || c.DeleteSelectedFrames? || c.CreateAnimation?
    || c.EditAnimation? || c.DeleteAnimation? || c.DeleteSelectedAnimations?
  }

  method ProcessContentCommand(doc: Document, command: Command) returns (r: Result<(), DocumentError>)
    requires IsContentCommand(command)
    modifies doc
    ensures doc.KeepsHistory() && doc.transient == old(doc.transient)
    ensures command.DeleteFrame? ==>
      doc.sheet == Sheets.DeleteFrame(old(doc.sheet), command.path) && doc.view == old(doc.view) && r.Ok?
    ensures command.ImportFrames? ==>
      && doc.sheet.animations == old(doc.sheet.animations)
      && (forall p :: p in command.paths ==> HasFrame(doc.sheet, p))
      && doc.view == old(doc.view) && r.Ok?
    ensures ContentEffect(command, old(StateOf(doc)), StateOf(doc), r)
  {
    r := Ok(());
    if command.Paste? {
      r := Clipboards.Paste(doc, command.clipboard);
    } else if command.ImportFrames? {
      doc.sheet := AddFrames(doc.sheet, command.paths);
    } else if command.DeleteFrame? {
      doc.sheet := Sheets.DeleteFrame(doc.sheet, command.path);
    } else if command.DeleteSelectedFrames? {
      Content.DeleteSelectedFrames(doc);
    } else if command.CreateAnimation? {
      var name, result := Content.CreateAnimation(doc); r := result;
      assert AnimationCreated(old(StateOf(doc)), StateOf(doc), name);
    } else if command.EditAnimation? {
      r := Content.EditAnimation(doc, command.name);
    } else if command.DeleteAnimation? {
      Content.DeleteAnimation(doc, command.name);
    } else if command.DeleteSelectedAnimations? {
      Content.DeleteSelectedAnimations(doc);
    }
  }

  predicate IsTimelineCommand(c: Command) {
    || c.Tick? || c.Play? || c.Pause? || c.ScrubTimeline? || c.JumpToAnimationStart?
    || c.JumpToAnimationEnd? || c.JumpToPreviousFrame? || c.JumpToNextFrame?
    || c.SetAnimationLooping? || c.ApplyDirectionPreset? || c.SelectDirection? || c.DeleteSelectedKeyframes?
  }

  method ProcessTimelineCommand(doc: Document, command: Command) returns (r: Result<(), DocumentError>)
    requires IsTimelineCommand(command)
    modifies doc
    ensures doc.KeepsHistory() && doc.transient == old(doc.transient)
    ensures TimelineEffect(command, old(StateOf(doc)), StateOf(doc), r)
  {
    r := Ok(());
    if command.Tick? {
      Timeline.AdvanceTimeline(doc, command.deltaMillis);
    } else if command.Play? {
      r := Timeline.Play(doc);
    } else if command.Pause? {
      r := Timeline.Pause(doc);
    } else if command.ScrubTimeline? {
      r := Timeline.ScrubTimeline(doc, command.timeMillis);
    } else if command.JumpToAnimationStart? {
      r := Timeline.JumpToAnimationStart(doc);
    } else if command.JumpToAnimationEnd? {
      r := Timeline.JumpToAnimationEnd(doc);
    } else if command.JumpToPreviousFrame? {
      r := Timeline.JumpToPreviousFrame(doc);
    } else if command.JumpToNextFrame? {
      r := Timeline.JumpToNextFrame(doc);
    } else if command.SetAnimationLooping? {
      r := Timeline.SetAnimationLooping(doc, command.looping);
    } else if command.ApplyDirectionPreset? {
      r := Timeline.ApplyDirectionPreset(doc, command.preset);
    } else if command.SelectDirection? {
      r := Timeline.SelectDirection(doc, command.direction);
    } else if command.DeleteSelectedKeyframes? {
      r := Timeline.DeleteSelectedKeyframes(doc);
    }
  }

  predicate IsGestureCommand(c: Command) {
    || (IsGestureBegin(c) && !c.BeginRenameSelection?) || IsGestureUpdate(c) || IsGestureEnd(c)
    || c.CancelRename? || c.DropFrameOnTimeline? || c.DropKeyframeOnTimeline?
  }

  method ProcessGestureCommand(doc: Document, command: Command) returns (r: Result<(), DocumentError>)
    requires IsGestureCommand(command)
    modifies doc
    ensures doc.KeepsHistory()
    ensures (command.DropFrameOnTimeline? || command.DropKeyframeOnTimeline?) && old(doc.transient) == DefaultTransient ==>
      doc.transient == DefaultTransient
    ensures GestureEffect(command, old(StateOf(doc)), StateOf(doc), r)
  {
    r := Ok(());
    if command.BeginRenameAnimation? {
      Gestures.BeginRenameAnimation(doc, command.name);
    } else if command.BeginRenameHitbox? {
      Gestures.BeginRenameHitbox(doc, command.name);
    } else if command.CancelRename? {
      Gestures.CancelRename(doc);
    } else if command.EndRenameAnimation? {
      r := Gestures.EndRenameAnimation(doc, command.name);
    } else if command.EndRenameHitbox? {
      r := Gestures.EndRenameHitbox(doc, command.name);
    } else if command.BeginDragAndDropFrame? {
      Gestures.BeginDragAndDropFrame(doc, command.path);
    } else if command.DropFrameOnTimeline? {
      r := Gestures.DropFrameOnTimeline(doc, command.direction, command.index);
    } else if command.EndDragAndDropFrame? {
      Gestures.EndDragAndDropFrame(doc);
    } else if command.BeginDragAndDropKeyframe? {
      r := Gestures.BeginDragAndDropKeyframe(doc, command.direction, command.index);
    } else if command.DropKeyframeOnTimeline? {
      r := Gestures.DropKeyframeOnTimeline(doc, command.direction, command.index);
    } else if command.EndDragAndDropKeyframe? {
      Gestures.EndDragAndDropKeyframe(doc);
    } else if command.BeginDragKeyframeDuration? {
      r := Drags.BeginDragKeyframeDuration(doc, command.direction, command.index);
    } else if command.UpdateDragKeyframeDuration? {
      r := Drags.UpdateDragKeyframeDuration(doc, command.dragMillis);
    } else if command.EndDragKeyframeDuration? {
      Drags.EndDragKeyframeDuration(doc);
    } else if command.BeginNudgeKeyframe? {
      r := Drags.BeginNudgeKeyframe(doc, command.direction, command.index);
    } else if command.UpdateNudgeKeyframe? {
      r := Drags.UpdateNudgeKeyframe(doc, command.displacement, command.bothAxis);
    } else if command.EndNudgeKeyframe? {
      Drags.EndNudgeKeyframe(doc);
    } else if command.BeginNudgeHitbox? {
      r := HitboxDrags.BeginNudgeHitbox(doc, command.name);
    } else if command.UpdateNudgeHitbox? {
      r := HitboxDrags.UpdateNudgeHitbox(doc, command.displacement, command.bothAxis);
    } else if command.EndNudgeHitbox? {
      HitboxDrags.EndNudgeHitbox(doc);
    } else if command.BeginResizeHitbox? {
      r := HitboxDrags.BeginResizeHitbox(doc, command.name, command.axis);
    } else if command.UpdateResizeHitbox? {
      r := HitboxDrags.UpdateResizeHitbox(doc, command.displacement, command.preserveAspectRatio);
    } else if command.EndResizeHitbox? {
      HitboxDrags.EndResizeHitbox(doc);
    }
  }

  predicate IsKeyframeEditCommand(c: Command) {
    || c.SetKeyframeDuration? || c.SetKeyframeOffsetX? || c.SetKeyframeOffsetY? || c.CreateHitbox?
    || c.DeleteHitbox? || c.DeleteSelectedHitboxes? || c.SetHitboxPositionX? || c.SetHitboxPositionY?
    || c.SetHitboxWidth? || c.SetHitboxHeight?
  }

  method ProcessKeyframeEditCommand(doc: Document, command: Command) returns (r: Result<(), DocumentError>)
    requires IsKeyframeEditCommand(command)
    modifies doc
    ensures doc.KeepsHistory() && doc.persistent == old(doc.persistent)
    ensures !command.CreateHitbox? ==> doc.transient == old(doc.transient)
    ensures command.CreateHitbox? && r.Ok? ==> doc.transient.rename.Some? && doc.transient.rename.value.RenamingHitbox?
    ensures KeyframeEditEffect(command, old(StateOf(doc)), StateOf(doc), r)
  {
    r := Ok(());
    if command.SetKeyframeDuration? {
      r := KeyframeEdits.SetKeyframeDuration(doc, command.durationMillis);
    } else if command.SetKeyframeOffsetX? {
      r := KeyframeEdits.SetKeyframeOffsetX(doc, command.x);
    } else if command.SetKeyframeOffsetY? {
      r := KeyframeEdits.SetKeyframeOffsetY(doc, command.y);
    } else if command.CreateHitbox? {
      var name, result := KeyframeEdits.CreateHitbox(doc); r := result;
      if r.Ok? {
        assert HitboxCreated(old(StateOf(doc)), StateOf(doc), name);
      }
    } else if command.DeleteHitbox? {
      r := KeyframeEdits.DeleteHitbox(doc, command.name);
    } else if command.DeleteSelectedHitboxes? {
      r := KeyframeEdits.DeleteSelectedHitboxes(doc);
    } else if command.SetHitboxPositionX? {
      r := KeyframeEdits.SetHitboxPositionX(doc, command.x);
    } else if command.SetHitboxPositionY? {
      r := KeyframeEdits.SetHitboxPositionY(doc, command.y);
    } else if command.SetHitboxWidth? {
      r := KeyframeEdits.SetHitboxWidth(doc, command.width);
    } else if command.SetHitboxHeight? {
      r := KeyframeEdits.SetHitboxHeight(doc, command.height);
    }
  }

  predicate IsSessionCommand(c: Command) {
    || c.BeginRelocateFrames? || c.RelocateFrame? || c.CancelRelocateFrames? || c.EndRelocateFrames?
    || c.BeginExportAs? || c.SetExportTemplateFile? || c.SetExportAtlasImageFile?
    || c.SetExportMetadataFile? || c.SetExportMetadataPathsRoot? || c.CancelExportAs? || c.EndExportAs?
  }

  /** The relocate-frames and export-settings dialogs; `onDisk` is the set of files present on disk. */
  method ProcessSessionCommand(doc: Document, command: Command, onDisk: set<Path>) returns (r: Result<(), DocumentError>)
    requires IsSessionCommand(command)
    modifies doc
    ensures doc.KeepsHistory() && doc.transient == old(doc.transient)
    ensures SessionEffect(command, onDisk, old(StateOf(doc)), StateOf(doc), r)
  {
    r := Ok(());
    if command.BeginRelocateFrames? {
      Relocation.BeginRelocateFrames(doc);
    } else if command.RelocateFrame? {
      r := Relocation.RelocateFrame(doc, command.from, command.to, onDisk);
    } else if command.CancelRelocateFrames? {
      Relocation.CancelRelocateFrames(doc);
    } else if command.EndRelocateFrames? {
      r := Relocation.EndRelocateFrames(doc);
    } else if command.BeginExportAs? {
      ExportEditing.BeginExportAs(doc);
    } else if command.SetExportTemplateFile? {
      r := ExportEditing.SetExportPathOf(doc, ExportEditing.TemplateFile, command.path);
    } else if command.SetExportAtlasImageFile? {
      r := ExportEditing.SetExportPathOf(doc, ExportEditing.TextureFile, command.path);
    } else if command.SetExportMetadataFile? {
      r := ExportEditing.SetExportPathOf(doc, ExportEditing.MetadataFile, command.path);
    } else if command.SetExportMetadataPathsRoot? {
      r := ExportEditing.SetExportPathOf(doc, ExportEditing.MetadataPathsRoot, command.path);
    } else if command.CancelExportAs? {
      ExportEditing.CancelExportAs(doc);
    } else if command.EndExportAs? {
      r := ExportEditing.EndExportAs(doc);
    }
  }

  /** The commands carried out on the view and the persistent flags alone. */
  predicate IsViewCommand(c: Command) {
    IsViewFieldCommand(c) || IsFloatingPointViewCommand(c) || c.DetachedNavigation? || c.TogglePreserveAspectRatio?
  }

  method ProcessViewCommand(doc: Document, command: Command) returns (r: Result<(), DocumentError>)
    requires IsViewCommand(command)
    modifies doc
    ensures r.Ok? && doc.KeepsHistory() && doc.transient == old(doc.transient) && doc.sheet == old(doc.sheet)
    ensures IsViewFieldCommand(command) ==>
      doc.view == ViewCommandEffect(old(doc.view), command) && doc.persistent == old(doc.persistent)
    ensures command.TogglePreserveAspectRatio? ==>
      && doc.persistent == old(doc.persistent).(preserveAspectRatio := !old(doc.persistent.preserveAspectRatio))
      && doc.view == old(doc.view)
    ensures !IsViewFieldCommand(command) && !command.TogglePreserveAspectRatio? ==>
      doc.view == old(doc.view) && doc.persistent == old(doc.persistent)
    ensures ViewGroupEffect(command, old(StateOf(doc)), StateOf(doc), r)
  {
    r := Ok(());
    if IsViewFieldCommand(command) {
      doc.view := ViewCommandEffect(doc.view, command);
    } else if command.TogglePreserveAspectRatio? {
      doc.persistent := doc.persistent.(preserveAspectRatio := !doc.persistent.preserveAspectRatio);
    }
  }

  /** What the view commands do: the view fields, the aspect-ratio flag, or nothing the model holds. */
  predicate ViewGroupEffect(c: Command, s: State, t: State, r: Result<(), DocumentError>)
    requires IsViewCommand(c)
  {
    && r.Ok? && t.sheet == s.sheet && t.transient == s.transient
    && if IsViewFieldCommand(c) then t.view == ViewCommandEffect(s.view, c) && t.persistent == s.persistent
       else if c.TogglePreserveAspectRatio? then
         t.view == s.view && t.persistent == s.persistent.(preserveAspectRatio := !s.persistent.preserveAspectRatio)
       else t.view == s.view && t.persistent == s.persistent
  }

  /** What a selection, content or timeline command does, by its group. */
  ghost predicate SheetGroupEffect(c: Command, s: State, t: State, r: Result<(), DocumentError>)
    requires IsSelectionCommand(c) || IsContentCommand(c) || IsTimelineCommand(c)
    requires Admissible(s.sheet, s.view, c)
  {
    if IsSelectionCommand(c) then SelectionEffect(c, s, t, r)
    else if IsContentCommand(c) then ContentEffect(c, s, t, r)
    else TimelineEffect(c, s, t, r)
  }

  /** What a gesture, keyframe-editing or dialog command does, by its group. */
  ghost predicate WorkbenchGroupEffect(c: Command, onDisk: set<Path>, s: State, t: State, r: Result<(), DocumentError>)
    requires IsGestureCommand(c) || IsKeyframeEditCommand(c) || IsSessionCommand(c)
  {
    if IsGestureCommand(c) then GestureEffect(c, s, t, r)
    else if IsKeyframeEditCommand(c) then KeyframeEditEffect(c, s, t, r)
    else SessionEffect(c, onDisk, s, t, r)
  }

  /** What a command other than undo, redo and the view commands does, by its group. */
  ghost predicate EditingEffect(c: Command, onDisk: set<Path>, s: State, t: State, r: Result<(), DocumentError>)
    requires !c.Undo? && !c.Redo? && !IsViewCommand(c) && Admissible(s.sheet, s.view, c)
  {
    DispatchIsTotal(c);
    if IsSelectionCommand(c) || IsContentCommand(c) || IsTimelineCommand(c) then SheetGroupEffect(c, s, t, r)
    else WorkbenchGroupEffect(c, onDisk, s, t, r)
  }

  /**
   * What an admissible command other than undo and redo does to the sheet,
   * view, sessions and persistent flags: the effect its group's
   * specification gives it.
   */
  ghost predicate CommandEffect(c: Command, onDisk: set<Path>, s: State, t: State, r: Result<(), DocumentError>) {
    && !c.Undo? && !c.Redo? && Admissible(s.sheet, s.view, c)
    && if IsViewCommand(c) then ViewGroupEffect(c, s, t, r) else EditingEffect(c, onDisk, s, t, r)
  }

  /** Every command belongs to a group of the dispatch. */
  lemma DispatchIsTotal(c: Command)
    ensures || c.Undo? || c.Redo? || IsViewCommand(c) || IsSelectionCommand(c)
            || IsContentCommand(c) || IsTimelineCommand(c) || IsGestureCommand(c)
            || IsKeyframeEditCommand(c) || IsSessionCommand(c)
  {
  }

  /** The selection, content and timeline commands, dispatched to their group. */
  method ProcessSheetCommand(doc: Document, command: Command) returns (r: Result<(), DocumentError>)
    requires (IsSelectionCommand(command) || IsContentCommand(command) || IsTimelineCommand(command))
    requires Admissible(doc.sheet, doc.view, command)
    modifies doc
    ensures doc.KeepsHistory()
    ensures !PreservesTransientState(command) && old(doc.transient) == DefaultTransient ==>
      doc.transient == DefaultTransient
    ensures SheetGroupEffect(command, old(StateOf(doc)), StateOf(doc), r)
  {
    if IsSelectionCommand(command) {
      r := ProcessSelectionCommand(doc, command);
    } else if IsContentCommand(command) {
      r := ProcessContentCommand(doc, command);
    } else {
      r := ProcessTimelineCommand(doc, command);
    }
  }

  /** The gesture, keyframe-editing and session commands, dispatched to their group. */
  method ProcessWorkbenchCommand(doc: Document, command: Command, onDisk: set<Path>) returns (r: Result<(), DocumentError>)
    requires (IsGestureCommand(command) || IsKeyframeEditCommand(command) || IsSessionCommand(command))
    requires Admissible(doc.sheet, doc.view, command)
    modifies doc
    ensures doc.KeepsHistory()
    ensures !PreservesTransientState(command) && !command.CreateHitbox? && old(doc.transient) == DefaultTransient ==>
      doc.transient == DefaultTransient
    ensures WorkbenchGroupEffect(command, onDisk, old(StateOf(doc)), StateOf(doc), r)
  {
    if IsGestureCommand(command) {
      r := ProcessGestureCommand(doc, command);
    } else if IsKeyframeEditCommand(command) {
      r := ProcessKeyframeEditCommand(doc, command);
    } else {
      r := ProcessSessionCommand(doc, command, onDisk);
    }
  }

  /** The commands that edit the sheet, the selection or the session, dispatched to their group. */
  method ProcessEditingCommand(doc: Document, command: Command, onDisk: set<Path>) returns (r: Result<(), DocumentError>)
    requires !command.Undo? && !command.Redo? && !IsViewCommand(command) && Admissible(doc.sheet, doc.view, command)
    modifies doc
    ensures doc.KeepsHistory()
    ensures !PreservesTransientState(command) && !command.CreateHitbox? && old(doc.transient) == DefaultTransient ==>
      doc.transient == DefaultTransient
    ensures EditingEffect(command, onDisk, old(StateOf(doc)), StateOf(doc), r)
  {
    DispatchIsTotal(command);
    if IsSelectionCommand(command) || IsContentCommand(command) || IsTimelineCommand(command) {
      r := ProcessSheetCommand(doc, command);
    } else {
      r := ProcessWorkbenchCommand(doc, command, onDisk);
    }
  }

  method ProcessHistoryCommand(doc: Document, command: Command) returns (r: Result<(), DocumentError>)
    requires doc.Valid() && (command.Undo? || command.Redo?)
    modifies doc
    ensures doc.Valid() && doc.path == old(doc.path) && doc.transient == old(doc.transient)
    ensures command.Undo? ==> doc.historyIndex == History.UndoneIndex(old(History.HistoryOf(doc)))
    ensures command.Redo? ==> doc.historyIndex == History.RedoneIndex(old(History.HistoryOf(doc)))
    ensures r.Ok? && doc.history == old(doc.history)
    ensures HistoryRestored(old(StateOf(doc)), StateOf(doc), doc.history, doc.historyIndex != old(doc.historyIndex), doc.historyIndex)
  {
    if command.Undo? {
      r := History.Undo(doc);
    } else {
      r := History.Redo(doc);
    }
  }

  /** `Document::process_command_internal`: undo, redo and view commands here, every other command by group. */
  method ProcessCommandInternal(doc: Document, command: Command, onDisk: set<Path>) returns (r: Result<(), DocumentError>)
    requires doc.Valid() && Admissible(doc.sheet, doc.view, command)
    modifies doc
    ensures doc.Valid() && doc.path == old(doc.path)
    ensures !command.Undo? && !command.Redo? ==> doc.KeepsHistory()
    ensures command.Undo? ==> doc.historyIndex == History.UndoneIndex(old(History.HistoryOf(doc)))
    ensures command.Redo? ==> doc.historyIndex == History.RedoneIndex(old(History.HistoryOf(doc)))
    ensures IsViewFieldCommand(command) ==>
      doc.view == ViewCommandEffect(old(doc.view), command) && doc.sheet == old(doc.sheet) && r.Ok?
    ensures !PreservesTransientState(command) && !command.CreateHitbox? && old(doc.transient) == DefaultTransient ==>
      doc.transient == DefaultTransient
    ensures (command.Undo? || command.Redo?) ==>
      && r.Ok? && doc.history == old(doc.history)
      && HistoryRestored(old(StateOf(doc)), StateOf(doc), doc.history, doc.historyIndex != old(doc.historyIndex), doc.historyIndex)
    ensures !command.Undo? && !command.Redo? ==> CommandEffect(command, onDisk, old(StateOf(doc)), StateOf(doc), r)
  {
    if command.Undo? || command.Redo? {
      assert !IsViewFieldCommand(command);
      r := ProcessHistoryCommand(doc, command);
    } else if IsViewCommand(command) {
      r := ProcessViewCommand(doc, command);
    } else {
      assert !IsViewFieldCommand(command);
      r := ProcessEditingCommand(doc, command, onDisk);
    }
  }

  /** The first step of `Document::process_command`: reset every gesture session unless the command keeps them. */
  method ResetGestures(doc: Document, command: Command)
    modifies doc
    ensures StateOf(doc) == Reset(command, old(StateOf(doc)))
    ensures doc.KeepsHistory()
  {
    if !PreservesTransientState(command) {
      doc.transient := DefaultTransient;
    }
  }

  /** The first two steps of `Document::process_command`: reset the gesture sessions, then run the command. */
  method ResetAndProcess(doc: Document, command: Command, onDisk: set<Path>) returns (r: Result<(), DocumentError>)
    requires doc.Valid() && Admissible(doc.sheet, doc.view, command)
    modifies doc
    ensures doc.Valid() && doc.path == old(doc.path)
    ensures !PreservesTransientState(command) && !command.CreateHitbox? ==> doc.transient == DefaultTransient
    ensures !command.Undo? && !command.Redo? ==> doc.KeepsHistory()
    ensures command.Undo? ==> doc.historyIndex == History.UndoneIndex(old(History.HistoryOf(doc)))
    ensures command.Redo? ==> doc.historyIndex == History.RedoneIndex(old(History.HistoryOf(doc)))
    ensures IsViewFieldCommand(command) ==>
      doc.sheet == old(doc.sheet) && doc.view == ViewCommandEffect(old(doc.view), command) && r.Ok?
    ensures !command.Undo? && !command.Redo? ==>
      CommandEffect(command, onDisk, Reset(command, old(StateOf(doc))), StateOf(doc), r)
  {
    ResetGestures(doc, command);
    r := ProcessCommandInternal(doc, command, onDisk);
  }

  /** The last steps of `Document::process_command`: sanitise the view, then record the command if it is recordable. */
  method SanitizeAndRecord(doc: Document, command: Command)
    requires doc.Valid()
    modifies doc
    ensures doc.Valid() && doc.path == old(doc.path)
    ensures StateOf(doc) == old(StateOf(doc)).(view := SanitizedView(old(doc.sheet), old(doc.view), old(doc.persistent.timelineIsPlaying)))
    ensures doc.view == SanitizedView(doc.sheet, doc.view, doc.persistent.timelineIsPlaying)
    ensures IsRecordable(command) ==>
      History.HistoryOf(doc) == History.Recorded(old(History.HistoryOf(doc)), doc.sheet, doc.view, command)
    ensures !IsRecordable(command) ==> doc.KeepsHistory()
  {
    SanitizeView(doc);
    SanitizeViewIdempotent(doc.sheet, old(doc.view), doc.persistent.timelineIsPlaying);
    if IsRecordable(command) {
      History.RecordCommand(doc, command);
    }
  }

  /**
   * `Document::process_command`. Unless the command keeps them, every
   * gesture session is reset first (creating a hitbox then starts renaming
   * it). The command then runs on that state, `processed` being the state it
   * leaves, and the view ends sanitised against the sheet. A recordable
   * command is recorded against the history as it stood before the command;
   * any other command other than undo and redo leaves the history alone.
   */
  method ProcessCommand(doc: Document, command: Command, onDisk: set<Path>)
    returns (r: Result<(), DocumentError>, ghost before: History.HistoryState, ghost processed: State)
    requires doc.Valid() && Admissible(doc.sheet, doc.view, command)
    modifies doc
    ensures before == old(History.HistoryOf(doc)) && before.Valid()
    ensures doc.Valid() && doc.path == old(doc.path)
    ensures !PreservesTransientState(command) && !command.CreateHitbox? ==> doc.transient == DefaultTransient
    ensures doc.view == SanitizedView(doc.sheet, doc.view, doc.persistent.timelineIsPlaying)
    ensures IsRecordable(command) ==>
      History.HistoryOf(doc) == History.Recorded(before, doc.sheet, doc.view, command)
    ensures !IsRecordable(command) && !command.Undo? && !command.Redo? ==>
      History.HistoryOf(doc) == before
    ensures command.Undo? ==> doc.historyIndex == History.UndoneIndex(before)
    ensures command.Redo? ==> doc.historyIndex == History.RedoneIndex(before)
    ensures StateOf(doc) == processed.(view := SanitizedView(processed.sheet, processed.view, processed.persistent.timelineIsPlaying))
    ensures IsViewFieldCommand(command) ==>
      processed.sheet == old(doc.sheet) && processed.view == ViewCommandEffect(old(doc.view), command) && r.Ok?
    ensures !command.Undo? && !command.Redo? ==>
      CommandEffect(command, onDisk, Reset(command, old(StateOf(doc))), processed, r)
  {
    before := History.HistoryOf(doc);
    r := ResetAndProcess(doc, command, onDisk);
    processed := StateOf(doc);
    SanitizeAndRecord(doc, command);
  }
}
