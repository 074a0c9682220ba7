/**
 * The commands a document accepts, the clipboard content some of them carry,
 * and the two classifications the command processor applies to every command:
 * whether it keeps the gesture state alive and whether it is recorded in the
 * undo history.
 */
module Commands {
  import opened Sheets
  import opened Selections

  /** What can be copied to and pasted from the clipboard. */
  datatype Clipboard =
    | AnimationsClip(animations: map<string, Animation>)
    | KeyframesClip(keyframes: seq<Keyframe>)
    | HitboxesClip(hitboxes: map<string, Hitbox>)

  datatype ClipboardManifest = AnimationsManifest | KeyframesManifest | HitboxesManifest

  /** `Clipboard::manifest`: the kind of content, without the content. */
  function Manifest(clipboard: Clipboard): (m: ClipboardManifest)
    ensures m == AnimationsManifest <==> clipboard.AnimationsClip?
    ensures m == KeyframesManifest <==> clipboard.KeyframesClip?
    ensures m == HitboxesManifest <==> clipboard.HitboxesClip?
  {
    match clipboard
    case AnimationsClip(_) => AnimationsManifest
    case KeyframesClip(_) => KeyframesManifest
    case HitboxesClip(_) => HitboxesManifest
  }

  datatype NudgeDirection = NudgeUp | NudgeDown | NudgeLeft | NudgeRight

  /** The edge or corner of a hitbox held by a resize gesture. */
  datatype ResizeAxis = N | S | W | E | NW | NE | SE | SW

  /**
   * Every document command. Floating-point arguments (list offsets, pans,
   * zoom anchors, the timeline zoom amount) are integers here; durations are
   * milliseconds.
   */
  datatype Command =
    | Undo
    | Redo
    | DetachedNavigation
    | Paste(clipboard: Clipboard)
    | SetFramesListMode(mode: ListMode)
    | SetFramesListOffset(offset: int)
    | FilterFrames(query: string)
    | FilterAnimations(query: string)
    | SetAnimationsListOffset(offset: int)
    | SetHitboxesListOffset(offset: int)
    | ImportFrames(paths: seq<Path>)
    | BeginRelocateFrames
    | RelocateFrame(from: Path, to: Path)
    | CancelRelocateFrames
    | EndRelocateFrames
    | DeleteFrame(path: Path)
    | DeleteSelectedFrames
    | DeleteSelection
    | NudgeSelection(nudge: NudgeDirection, largeNudge: bool)
    | BrowseSelection(browse: BrowseDirection, shift: bool)
    | BrowseToEnd(shift: bool)
    | BrowseToStart(shift: bool)
    | ClearSelection
    | SelectAll
    | SelectFrame(path: Path, shift: bool, ctrl: bool)
    | SelectAnimation(name: string, shift: bool, ctrl: bool)
    | SelectKeyframe(direction: Direction, index: nat, shift: bool, ctrl: bool)
    | SelectHitbox(name: string, shift: bool, ctrl: bool)
    | Pan(delta: Vec2)
    | CenterWorkbench
    | ZoomInWorkbench
    | ZoomInWorkbenchAround(point: Vec2)
    | ZoomOutWorkbench
    | ZoomOutWorkbenchAround(point: Vec2)
    | SetWorkbenchZoomFactor(factor: nat)
    | ResetWorkbenchZoom
    | EnableSpriteDarkening
    | DisableSpriteDarkening
    | HideSprite
    | ShowSprite
    | HideHitboxes
    | ShowHitboxes
    | HideOrigin
    | ShowOrigin
    | CreateAnimation
    | EditAnimation(name: string)
    | BeginRenameSelection
    | BeginRenameAnimation(name: string)
    | BeginRenameHitbox(name: string)
    | CancelRename
    | EndRenameAnimation(name: string)
    | EndRenameHitbox(name: string)
    | DeleteAnimation(name: string)
    | DeleteSelectedAnimations
    | Tick(deltaMillis: nat)
    | Play
    | Pause
    | ScrubTimeline(timeMillis: nat)
    | JumpToAnimationStart
    | JumpToAnimationEnd
    | JumpToPreviousFrame
    | JumpToNextFrame
    | SetSnapKeyframeDurations(snap: bool)
    | SetSnapKeyframeToOtherKeyframes(snap: bool)
    | SetSnapKeyframeToMultiplesOfDuration(snap: bool)
    | SetKeyframeSnappingBaseDuration(baseMillis: nat)
    | ZoomInTimeline
    | ZoomInTimelineAround(timeMillis: nat)
    | ZoomOutTimeline
    | ZoomOutTimelineAround(timeMillis: nat)
    | SetTimelineZoomAmount(zoomAmount: int)
    | SetTimelineOffset(offsetMillis: nat)
    | PanTimeline(amount: int)
    | ResetTimelineZoom
    | SetAnimationLooping(looping: bool)
    | ApplyDirectionPreset(preset: DirectionPreset)
    | SelectDirection(direction: Direction)
    | BeginDragAndDropFrame(path: Path)
    | DropFrameOnTimeline(direction: Direction, index: nat)
    | EndDragAndDropFrame
    | DeleteSelectedKeyframes
    | SetKeyframeDuration(durationMillis: nat)
    | SetKeyframeOffsetX(x: int)
    | SetKeyframeOffsetY(y: int)
    | BeginDragAndDropKeyframe(direction: Direction, index: nat)
    | DropKeyframeOnTimeline(direction: Direction, index: nat)
    | EndDragAndDropKeyframe
    | BeginDragKeyframeDuration(direction: Direction, index: nat)
    | UpdateDragKeyframeDuration(dragMillis: int)
    | EndDragKeyframeDuration
    | BeginNudgeKeyframe(direction: Direction, index: nat)
    | UpdateNudgeKeyframe(displacement: Vec2, bothAxis: bool)
    | EndNudgeKeyframe
    | CreateHitbox
    | DeleteHitbox(name: string)
    | DeleteSelectedHitboxes
    | LockHitboxes
    | UnlockHitboxes
    | SetHitboxPositionX(x: int)
    | SetHitboxPositionY(y: int)
    | SetHitboxWidth(width: nat)
    | SetHitboxHeight(height: nat)
    | TogglePreserveAspectRatio
    | BeginNudgeHitbox(name: string)
    | UpdateNudgeHitbox(displacement: Vec2, bothAxis: bool)
    | EndNudgeHitbox
    | BeginResizeHitbox(name: string, axis: ResizeAxis)
    | UpdateResizeHitbox(displacement: Vec2, preserveAspectRatio: bool)
    | EndResizeHitbox
    | BeginExportAs
    | SetExportTemplateFile(path: Path)
    | SetExportAtlasImageFile(path: Path)
    | SetExportMetadataFile(path: Path)
    | SetExportMetadataPathsRoot(path: Path)
    | CancelExportAs
    | EndExportAs

  /** A command that starts a gesture session. */
  predicate IsGestureBegin(c: Command) {
    || c.BeginDragAndDropFrame? || c.BeginDragAndDropKeyframe? || c.BeginDragKeyframeDuration?
    || c.BeginNudgeHitbox? || c.BeginNudgeKeyframe? || c.BeginRenameAnimation?
    || c.BeginRenameHitbox? || c.BeginRenameSelection? || c.BeginResizeHitbox?
  }

  /** A command that moves a gesture session along. */
  predicate IsGestureUpdate(c: Command) {
    c.UpdateDragKeyframeDuration? || c.UpdateNudgeHitbox? || c.UpdateNudgeKeyframe? || c.UpdateResizeHitbox?
  }

  /** A command that finishes a gesture session. */
  predicate IsGestureEnd(c: Command) {
    || c.EndDragAndDropFrame? || c.EndDragAndDropKeyframe? || c.EndDragKeyframeDuration?
    || c.EndNudgeHitbox? || c.EndNudgeKeyframe? || c.EndRenameAnimation?
    || c.EndRenameHitbox? || c.EndResizeHitbox?
  }

  /** A command that only scrolls a list or the timeline. */
  predicate IsScroll(c: Command) {
    c.PanTimeline? || c.SetAnimationsListOffset? || c.SetHitboxesListOffset? || c.SetFramesListOffset?
  }

  /** `Command::is_recordable`: whether the command may produce an undo step. */
  predicate IsRecordable(c: Command) {
    !(IsGestureBegin(c) || IsGestureUpdate(c) || c.CancelRename? || c.Undo? || c.Redo?)
  }

  /** `Command::preserves_transient_state`: whether running it keeps gesture sessions. */
  predicate PreservesTransientState(c: Command) {
    IsGestureBegin(c) || IsGestureUpdate(c) || IsGestureEnd(c) || c.CancelRename? || IsScroll(c)
  }

  /**
   * The two classifications agree on gestures: beginning or moving a gesture
   * keeps the session and records nothing, ending one keeps the session and
   * is recorded, and undo and redo are neither recorded nor session-preserving.
   */
  lemma GestureClassification(c: Command)
    ensures IsGestureBegin(c) || IsGestureUpdate(c) ==> PreservesTransientState(c) && !IsRecordable(c)
    ensures IsGestureEnd(c) ==> PreservesTransientState(c) && IsRecordable(c)
    ensures c.Undo? || c.Redo? ==> !PreservesTransientState(c) && !IsRecordable(c)
    ensures c.CancelRename? ==> PreservesTransientState(c) && !IsRecordable(c)
  {
  }

  /** Every command that is kept out of history, other than undo and redo, keeps the gesture sessions. */
  lemma UnrecordedPreservesTransient(c: Command)
    requires !IsRecordable(c) && !c.Undo? && !c.Redo?
    ensures PreservesTransientState(c)
  {
  }

  /** The clamp applied to `SetKeyframeSnappingBaseDuration`: between 1 ms and 1000 ms. */
  function ClampSnappingBase(millis: nat): (r: nat)
    ensures 1 <= r <= 1000
    ensures 1 <= millis <= 1000 ==> r == millis
    ensures millis < 1 ==> r == 1
    ensures millis > 1000 ==> r == 1000
  {
    if millis < 1 then 1 else if millis > 1000 then 1000 else millis
  }
}
