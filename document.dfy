/**
 * A document: the sheet being edited together with its view, its gesture
 * sessions, the state kept outside history, and the undo history itself.
 *
 * The document is an object whose fields every operation reassigns, so it is
 * a class. The sheet, the view and the history entries are values, because
 * the editor clones them into history and compares them with `==`.
 */
module Documents {
  import opened Wrappers
  import opened Sheets
  import opened Selections
  import opened Views
  import Commands

  datatype DocumentError =
    | SheetFailure(sheetError: SheetError)
    | AnimationNotInDocument(animation: string)
    | SequenceNotInAnimation(direction: Direction)
    | NoKeyframeAtTime(timeMillis: nat)
    | NoKeyframeAtIndex(index: nat)
    | NotRenamingAnyAnimation
    | NotRenamingAnyHitbox
    | NotEditingAnyAnimation
    | NotEditingAnySequence
    | NotDraggingKeyframeDuration
    | MissingKeyframeDragData
    | NotNudgingKeyframe
    | MissingKeyframePositionData
    | MissingHitboxPositionData
    | NotNudgingHitbox
    | NotResizingHitbox
    | NotEditingExportSettings
    | NotRelocatingFrames
    | SequenceHasNoKeyframes

  // ----- Gesture sessions (not recorded in history) -----

  datatype Rename = RenamingAnimation(animation: string) | RenamingHitbox(hitbox: string)

  /** A keyframe in the sequences of the current animation. */
  type KeyframeSlot = (Direction, nat)

  datatype KeyframeDurationDrag = KeyframeDurationDrag(
    frameBeingDragged: KeyframeSlot,
    originalRanges: map<KeyframeSlot, TimeRange>)

  datatype KeyframeNudge = KeyframeNudge(
    keyframeBeingDragged: KeyframeSlot,
    originalPositions: map<KeyframeSlot, Vec2>)

  datatype HitboxNudge = HitboxNudge(
    hitboxBeingDragged: string,
    originalPositions: map<string, Vec2>)

  datatype HitboxResize = HitboxResize(
    axis: Commands.ResizeAxis,
    hitboxBeingDragged: string,
    originalPositions: map<string, Rectangle>)

  datatype Transient = Transient(
    rename: Option<Rename>,
    frameDragAndDrop: Option<Path>,
    keyframeDurationDrag: Option<KeyframeDurationDrag>,
    keyframeDragAndDrop: Option<KeyframeSlot>,
    keyframeNudge: Option<KeyframeNudge>,
    hitboxNudge: Option<HitboxNudge>,
    hitboxResize: Option<HitboxResize>)

  const DefaultTransient: Transient := Transient(None, None, None, None, None, None, None)

  // ----- State outside history -----

  datatype Persistent = Persistent(
    diskVersion: Option<int>,
    closeRequested: bool,
    timelineIsPlaying: bool,
    exportSettingsEdit: Option<ExportSettings>,
    relocateFramesEdit: Option<map<Path, Path>>,
    preserveAspectRatio: bool,
    missingTextures: set<Path>)

  const DefaultPersistent: Persistent := Persistent(None, false, false, None, None, false, {})

  // ----- History -----

  datatype HistoryEntry = HistoryEntry(
    lastCommand: Option<Commands.Command>,
    sheet: Sheet,
    view: View,
    version: int)

  const DefaultHistoryEntry: HistoryEntry := HistoryEntry(None, EmptySheet, DefaultView, 0)

  /** The undo history never holds more entries than this. */
  const MaxHistoryLength: nat := 100

  class Document {
    var path: Path
    var sheet: Sheet
    var view: View
    /** The view as browsed while the history cursor is not at the head. */
    var detachedView: Option<View>
    var transient: Transient
    var persistent: Persistent
    var latestVersion: int
    var history: seq<HistoryEntry>
    var historyIndex: nat

    /** The history is never empty, never over its cap, and the cursor points into it. */
    ghost predicate Valid()
      reads this
    {
      0 < |history| <= MaxHistoryLength && historyIndex < |history|
    }

    /** `Document::new`: an empty sheet, the default view and one default history entry at version 0. */
    constructor (path: Path)
      ensures Valid()
      ensures this.path == path && sheet == EmptySheet && view == DefaultView
      ensures detachedView == None && transient == DefaultTransient && persistent == DefaultPersistent
      ensures history == [DefaultHistoryEntry] && historyIndex == 0
      ensures latestVersion == DefaultHistoryEntry.version
    {
      this.path := path;
      sheet := EmptySheet;
      view := DefaultView;
      detachedView := None;
      transient := DefaultTransient;
      persistent := DefaultPersistent;
      latestVersion := DefaultHistoryEntry.version;
      history := [DefaultHistoryEntry];
      historyIndex := 0;
    }

    /** Everything an editing operation leaves alone: the path and the history bookkeeping. */
    twostate predicate KeepsHistory()
      reads this
    {
      && path == old(path)
      && history == old(history)
      && historyIndex == old(historyIndex)
      && latestVersion == old(latestVersion)
      && detachedView == old(detachedView)
    }

    /** `Document::version`: the version of the entry under the history cursor. */
    function Version(): int
      requires Valid()
      reads this
    {
      history[historyIndex].version
    }

    /**
     * `Document::is_saved`: the disk holds the current version, or, as a special
     * case, the disk holds version 0 and the current version 1 only changed the
     * view on top of it.
     */
    predicate IsSaved()
      requires Valid()
      reads this
    {
      || persistent.diskVersion == Some(Version())
      || (&& Version() == 1
          && persistent.diskVersion == Some(0)
          && historyIndex > 0
          && history[historyIndex - 1].sheet == history[historyIndex].sheet)
    }

    /** `Document::should_close`. */
    predicate ShouldClose()
      requires Valid()
      reads this
    {
      persistent.closeRequested && IsSaved()
    }

    /** `Document::mark_as_saved`. */
    method MarkAsSaved(savedVersion: int)
      modifies this
      ensures persistent == old(persistent).(diskVersion := Some(savedVersion))
      ensures sheet == old(sheet) && view == old(view) && transient == old(transient) && KeepsHistory()
      ensures Valid() && savedVersion == Version() ==> IsSaved()
    {
      persistent := persistent.(diskVersion := Some(savedVersion));
    }

    /** `Document::request_close`. */
    method RequestClose()
      modifies this
      ensures persistent == old(persistent).(closeRequested := true)
      ensures sheet == old(sheet) && view == old(view) && transient == old(transient) && KeepsHistory()
      ensures Valid() ==> (ShouldClose() <==> IsSaved())
    {
      persistent := persistent.(closeRequested := true);
    }

    /** `Document::cancel_close`. */
    method CancelClose()
      modifies this
      ensures persistent == old(persistent).(closeRequested := false)
      ensures sheet == old(sheet) && view == old(view) && transient == old(transient) && KeepsHistory()
      ensures Valid() ==> !ShouldClose()
    {
      persistent := persistent.(closeRequested := false);
    }
  }

  /**
   * What an editing operation that works on the sheet and view as values
   * leaves behind: the new sheet, the new view, and the result it reports.
   */
  datatype Outcome = Outcome(sheet: Sheet, view: View, result: Result<(), DocumentError>)

  // ----- Resolving what the workbench shows -----

  /** `Document::workbench_animation`: the current animation, by name. */
  function WorkbenchAnimation(sheet: Sheet, view: View): (r: Result<(string, Animation), DocumentError>)
    ensures view.currentAnimation.None? ==> r == Err(NotEditingAnyAnimation)
    ensures view.currentAnimation.Some? && view.currentAnimation.value !in sheet.animations ==>
      r == Err(AnimationNotInDocument(view.currentAnimation.value))
    ensures r.Ok? <==> view.currentAnimation.Some? && view.currentAnimation.value in sheet.animations
    ensures r.Ok? ==> view.currentAnimation == Some(r.value.0)
                      && r.value.0 in sheet.animations && sheet.animations[r.value.0] == r.value.1
  {
    match view.currentAnimation
    case None => Err(NotEditingAnyAnimation)
    case Some(name) =>
      if name in sheet.animations then Ok((name, sheet.animations[name])) else Err(AnimationNotInDocument(name))
  }

  /** `Document::workbench_sequence`: the current direction's sequence of the current animation. */
  function WorkbenchSequence(sheet: Sheet, view: View): (r: Result<(Direction, Sequence), DocumentError>)
    ensures WorkbenchAnimation(sheet, view).Err? ==> r == Err(WorkbenchAnimation(sheet, view).error)
    ensures WorkbenchAnimation(sheet, view).Ok? && view.currentSequence.None? ==> r == Err(NotEditingAnySequence)
    ensures WorkbenchAnimation(sheet, view).Ok? && view.currentSequence.Some?
            && view.currentSequence.value !in WorkbenchAnimation(sheet, view).value.1.sequences ==>
      r == Err(SequenceNotInAnimation(view.currentSequence.value))
    ensures r.Ok? <==> && WorkbenchAnimation(sheet, view).Ok? && view.currentSequence.Some?
                       && view.currentSequence.value in WorkbenchAnimation(sheet, view).value.1.sequences
    ensures r.Ok? ==> && WorkbenchAnimation(sheet, view).Ok?
                      && view.currentSequence == Some(r.value.0)
                      && var animation := WorkbenchAnimation(sheet, view).value.1;
                         r.value.0 in animation.sequences && animation.sequences[r.value.0] == r.value.1
  {
    var (_, animation) :- WorkbenchAnimation(sheet, view);
    match view.currentSequence
    case None => Err(NotEditingAnySequence)
    case Some(direction) =>
      if direction in animation.sequences then Ok((direction, animation.sequences[direction]))
      else Err(SequenceNotInAnimation(direction))
  }

  /** `Document::workbench_keyframe`: the keyframe of the current sequence under the clock. */
  function WorkbenchKeyframe(sheet: Sheet, view: View): (r: Result<(KeyframeSlot, Keyframe), DocumentError>)
    ensures WorkbenchSequence(sheet, view).Err? ==> r == Err(WorkbenchSequence(sheet, view).error)
    ensures WorkbenchSequence(sheet, view).Ok? && WorkbenchSequence(sheet, view).value.1.keyframes == [] ==>
      r == Err(NoKeyframeAtTime(view.timelineClock))
    ensures r.Ok? <==> WorkbenchSequence(sheet, view).Ok? && WorkbenchSequence(sheet, view).value.1.keyframes != []
    ensures r.Ok? ==> && WorkbenchSequence(sheet, view).Ok?
                      && var (direction, sequence) := WorkbenchSequence(sheet, view).value;
                         && r.value.0.0 == direction
                         && Some(r.value.0.1) == KeyframeIndexAt(sequence, view.timelineClock)
                         && r.value.0.1 < |sequence.keyframes|
                         && r.value.1 == sequence.keyframes[r.value.0.1]
  {
    var (direction, sequence) :- WorkbenchSequence(sheet, view);
    match KeyframeAt(sequence, view.timelineClock)
    case None => Err(NoKeyframeAtTime(view.timelineClock))
    case Some((index, keyframe)) => Ok(((direction, index), keyframe))
  }

  /**
   * `Document::workbench_sequence_mut`: the same sequence as
   * `workbench_sequence`, but the current direction is looked at before the
   * current animation, so with neither set the error names the direction.
   */
  function WorkbenchSequenceMut(sheet: Sheet, view: View): (r: Result<(Direction, Sequence), DocumentError>)
    ensures view.currentSequence.None? ==> r == Err(NotEditingAnySequence)
    ensures view.currentSequence.Some? ==> r == WorkbenchSequence(sheet, view)
  {
    match view.currentSequence
    case None => Err(NotEditingAnySequence)
    case Some(direction) =>
      var (_, animation) :- WorkbenchAnimation(sheet, view);
      if direction in animation.sequences then Ok((direction, animation.sequences[direction]))
      else Err(SequenceNotInAnimation(direction))
  }

  /**
   * `Document::workbench_keyframe_mut`: it resolves exactly when
   * `workbench_keyframe` does, to the same keyframe; only the error for a
   * missing direction comes first.
   */
  function WorkbenchKeyframeMut(sheet: Sheet, view: View): (r: Result<(KeyframeSlot, Keyframe), DocumentError>)
    ensures view.currentSequence.None? ==> r == Err(NotEditingAnySequence)
    ensures view.currentSequence.Some? ==> r == WorkbenchKeyframe(sheet, view)
    ensures r.Ok? <==> WorkbenchKeyframe(sheet, view).Ok?
    ensures r.Ok? ==> r == WorkbenchKeyframe(sheet, view)
  {
    var (direction, sequence) :- WorkbenchSequenceMut(sheet, view);
    match KeyframeAt(sequence, view.timelineClock)
    case None => Err(NoKeyframeAtTime(view.timelineClock))
    case Some((index, keyframe)) => Ok(((direction, index), keyframe))
  }

  /**
   * With nothing being edited, the two chains report different errors: the
   * animation for `workbench_keyframe`, the direction for
   * `workbench_keyframe_mut`.
   */
  lemma NothingEditedErrors(sheet: Sheet, view: View)
    requires view.currentAnimation.None? && view.currentSequence.None?
    ensures WorkbenchKeyframe(sheet, view) == Err(NotEditingAnyAnimation)
    ensures WorkbenchKeyframeMut(sheet, view) == Err(NotEditingAnySequence)
  {
  }

  /**
   * The resolution chain: a keyframe resolves only through a sequence, a
   * sequence only through an animation, and a non-empty resolved sequence
   * always has a keyframe under the clock.
   */
  lemma ResolutionChain(sheet: Sheet, view: View)
    ensures WorkbenchKeyframe(sheet, view).Ok? ==> WorkbenchSequence(sheet, view).Ok?
    ensures WorkbenchSequence(sheet, view).Ok? ==> WorkbenchAnimation(sheet, view).Ok?
    ensures WorkbenchSequence(sheet, view).Ok? && WorkbenchSequence(sheet, view).value.1.keyframes != [] ==>
      WorkbenchKeyframe(sheet, view).Ok?
  {
  }

  // ----- Selected content -----

  /** `Document::selected_animations`: the selected names that exist in the sheet. */
  function SelectedAnimations(sheet: Sheet, view: View): (r: set<string>)
    ensures forall name :: name in r <==> name in sheet.animations && name in view.selection.animations.selected
  {
    set name | name in sheet.animations && name in view.selection.animations.selected
  }

  /** Is `(animation, direction, index)` an existing keyframe of `sheet`? */
  predicate KeyframeExists(sheet: Sheet, animation: string, direction: Direction, index: nat) {
    && animation in sheet.animations
    && direction in sheet.animations[animation].sequences
    && index < |sheet.animations[animation].sequences[direction].keyframes|
  }

  /** `Document::selected_keyframes`: the selected keyframes of the current animation. */
  function SelectedKeyframes(sheet: Sheet, view: View): (r: Result<set<KeyframeSlot>, DocumentError>)
    ensures WorkbenchAnimation(sheet, view).Err? ==> r == Err(WorkbenchAnimation(sheet, view).error)
    ensures WorkbenchAnimation(sheet, view).Ok? ==> r.Ok?
    ensures r.Ok? ==> && WorkbenchAnimation(sheet, view).Ok?
                      && var name := WorkbenchAnimation(sheet, view).value.0;
                         forall slot: KeyframeSlot :: slot in r.value <==>
                           KeyframeExists(sheet, name, slot.0, slot.1)
                           && KeyframeRef(name, slot.0, slot.1) in view.selection.keyframes.selected
  {
    var (name, animation) :- WorkbenchAnimation(sheet, view);
    Ok(set k | k in view.selection.keyframes.selected && k.animation == name
                 && KeyframeExists(sheet, name, k.direction, k.index) :: (k.direction, k.index))
  }

  /** `Document::selected_hitboxes`: the selected hitboxes of the keyframe under the clock. */
  function SelectedHitboxes(sheet: Sheet, view: View): (r: Result<set<string>, DocumentError>)
    ensures WorkbenchKeyframe(sheet, view).Err? ==> r == Err(WorkbenchKeyframe(sheet, view).error)
    ensures r.Ok? <==> WorkbenchKeyframe(sheet, view).Ok?
    ensures r.Ok? ==> && WorkbenchKeyframe(sheet, view).Ok?
                      && var (name, _) := WorkbenchAnimation(sheet, view).value;
                         var ((direction, index), keyframe) := WorkbenchKeyframe(sheet, view).value;
                         forall h :: h in r.value <==>
                           h in keyframe.hitboxes && HitboxRef(name, direction, index, h) in view.selection.hitboxes.selected
  {
    var (name, _) :- WorkbenchAnimation(sheet, view);
    var ((direction, index), keyframe) :- WorkbenchKeyframe(sheet, view);
    Ok(set h | h in keyframe.hitboxes && HitboxRef(name, direction, index, h) in view.selection.hitboxes.selected)
  }

  // ----- Keeping the view consistent with the sheet -----

  /** The first sequence of an animation in direction order, as a sorted map iterates. */
  function FirstDirection(animation: Animation): (r: Option<Direction>)
    ensures r.None? <==> animation.sequences == map[]
    ensures r.Some? ==> r.value in animation.sequences
                        && forall d :: d in animation.sequences ==> DirectionRank(r.value) <= DirectionRank(d)
  {
    FirstDirectionFrom(animation, 0)
  }

  function FirstDirectionFrom(animation: Animation, k: nat): (r: Option<Direction>)
    requires k <= |AllDirections|
    ensures r.None? <==> forall d :: d in animation.sequences ==> DirectionRank(d) < k
    ensures r.Some? ==> && r.value in animation.sequences && DirectionRank(r.value) >= k
                        && forall d :: d in animation.sequences && DirectionRank(d) >= k ==>
                             DirectionRank(r.value) <= DirectionRank(d)
    decreases |AllDirections| - k
  {
    if k == |AllDirections| then None
    else if AllDirections[k] in animation.sequences then Some(AllDirections[k])
    else FirstDirectionFrom(animation, k + 1)
  }

  /** The furthest the clock may be: the current sequence's duration, or 0 without one. */
  function TimelineCap(sheet: Sheet, view: View): nat {
    match WorkbenchSequence(sheet, view)
    case Ok((_, sequence)) => DurationMillis(sequence).UnwrapOr(0)
    case Err(_) => 0
  }

  /** The index of the keyframe under the clock in the current sequence, if any. */
  function CurrentKeyframeIndex(sheet: Sheet, view: View): Option<nat> {
    match WorkbenchSequence(sheet, view)
    case Ok((_, sequence)) => KeyframeIndexAt(sequence, view.timelineClock)
    case Err(_) => None
  }

  /**
   * The first step of `sanitize_view`: the current animation is dropped when
   * it does not resolve, together with the direction, and a direction that
   * does not resolve falls back to the animation's first one.
   */
  function ResolvedCurrents(sheet: Sheet, view: View): (r: View)
    ensures r == view.(currentAnimation := r.currentAnimation, currentSequence := r.currentSequence)
    ensures WorkbenchAnimation(sheet, view).Err? ==> r.currentAnimation == None && r.currentSequence == None
    ensures WorkbenchAnimation(sheet, view).Ok? ==> r.currentAnimation == view.currentAnimation
    ensures WorkbenchSequence(sheet, view).Ok? ==> r.currentSequence == view.currentSequence
    ensures WorkbenchAnimation(sheet, view).Ok? && WorkbenchSequence(sheet, view).Err? ==>
      r.currentSequence == FirstDirection(WorkbenchAnimation(sheet, view).value.1)
  {
    match WorkbenchAnimation(sheet, view)
    case Ok((_, animation)) =>
      if WorkbenchSequence(sheet, view).Err? then view.(currentSequence := FirstDirection(animation)) else view
    case Err(_) => view.(currentAnimation := None, currentSequence := None)
  }

  /** A selected keyframe survives when it is an existing keyframe of the current animation. */
  predicate KeepsSelectedKeyframe(sheet: Sheet, view: View, k: KeyframeRef) {
    Some(k.animation) == view.currentAnimation && KeyframeExists(sheet, k.animation, k.direction, k.index)
  }

  /** A selected hitbox survives when it is an existing hitbox of the keyframe under the clock. */
  predicate KeepsSelectedHitbox(sheet: Sheet, view: View, h: HitboxRef) {
    && Some(h.animation) == view.currentAnimation
    && Some(h.direction) == view.currentSequence
    && Some(h.index) == CurrentKeyframeIndex(sheet, view)
    && KeyframeExists(sheet, h.animation, h.direction, h.index)
    && h.name in sheet.animations[h.animation].sequences[h.direction].keyframes[h.index].hitboxes
  }

  /** The second step of `sanitize_view`: the clock stays within the current sequence. */
  function ClampedClock(sheet: Sheet, view: View): (r: View)
    ensures r == view.(timelineClock := r.timelineClock)
    ensures r.timelineClock <= TimelineCap(sheet, view)
    ensures view.timelineClock <= TimelineCap(sheet, view) ==> r.timelineClock == view.timelineClock
    ensures view.timelineClock > TimelineCap(sheet, view) ==> r.timelineClock == TimelineCap(sheet, view)
  {
    view.(timelineClock := Min(view.timelineClock, TimelineCap(sheet, view)))
  }

  /** The last step of `sanitize_view`: selections restricted to what exists and is editable. */
  function SanitizedSelection(sheet: Sheet, view: View, playing: bool): (r: SelectionState)
    ensures forall p :: p in r.frames.selected <==> p in view.selection.frames.selected && HasFrame(sheet, p)
    ensures forall a :: a in r.animations.selected <==> a in view.selection.animations.selected && a in sheet.animations
    ensures forall k :: k in r.keyframes.selected <==>
      k in view.selection.keyframes.selected && KeepsSelectedKeyframe(sheet, view, k)
    ensures view.lockHitboxes || playing ==> r.hitboxes == EmptySelection()
    ensures !view.lockHitboxes && !playing ==> forall h :: h in r.hitboxes.selected <==>
      h in view.selection.hitboxes.selected && KeepsSelectedHitbox(sheet, view, h)
    ensures r.frames.pivot == view.selection.frames.pivot && r.animations.pivot == view.selection.animations.pivot
    ensures r.keyframes.pivot == view.selection.keyframes.pivot
  {
    var s := view.selection;
    var unlocked := if view.lockHitboxes || playing then EmptySelection() else s.hitboxes;
    SelectionState(
      s.frames.(selected := set p | p in s.frames.selected && HasFrame(sheet, p)),
      s.animations.(selected := set a | a in s.animations.selected && a in sheet.animations),
      unlocked.(selected := set h | h in unlocked.selected && KeepsSelectedHitbox(sheet, view, h)),
      s.keyframes.(selected := set k | k in s.keyframes.selected && KeepsSelectedKeyframe(sheet, view, k)))
  }

  /** `Document::sanitize_view`, as the view it makes from the sheet, the view and the playing flag. */
  function SanitizedView(sheet: Sheet, view: View, playing: bool): (r: View)
    ensures r.currentAnimation == ResolvedCurrents(sheet, view).currentAnimation
    ensures r.currentSequence == ResolvedCurrents(sheet, view).currentSequence
    ensures r.selection == SanitizedSelection(sheet, ClampedClock(sheet, ResolvedCurrents(sheet, view)), playing)
  {
    var resolved := ClampedClock(sheet, ResolvedCurrents(sheet, view));
    resolved.(selection := SanitizedSelection(sheet, resolved, playing))
  }

  /** What the workbench resolves to depends only on the current animation and direction. */
  lemma ResolutionDependsOnCurrents(sheet: Sheet, v: View, w: View)
    requires v.currentAnimation == w.currentAnimation && v.currentSequence == w.currentSequence
    ensures WorkbenchAnimation(sheet, v) == WorkbenchAnimation(sheet, w)
    ensures WorkbenchSequence(sheet, v) == WorkbenchSequence(sheet, w)
    ensures TimelineCap(sheet, v) == TimelineCap(sheet, w)
    ensures v.timelineClock == w.timelineClock ==> CurrentKeyframeIndex(sheet, v) == CurrentKeyframeIndex(sheet, w)
  {
  }

  /** After `sanitize_view`, the clock lies within the current sequence and moved only if it was past it. */
  lemma SanitizedClock(sheet: Sheet, view: View, playing: bool)
    ensures var r := SanitizedView(sheet, view, playing);
      r.timelineClock == Min(view.timelineClock, TimelineCap(sheet, r))
  {
    var v1 := ResolvedCurrents(sheet, view);
    ResolutionDependsOnCurrents(sheet, v1, SanitizedView(sheet, view, playing));
  }

  /**
   * After `sanitize_view`, every selection holds only existing items: frames
   * and animations of the sheet, keyframes of the current animation, and
   * hitboxes of the keyframe under the clock, none at all while hitboxes are
   * locked or the timeline plays.
   */
  lemma SanitizedSelectionSpec(sheet: Sheet, view: View, playing: bool)
    ensures var r := SanitizedView(sheet, view, playing);
      && (forall p :: p in r.selection.frames.selected ==> HasFrame(sheet, p))
      && (forall a :: a in r.selection.animations.selected ==> a in sheet.animations)
      && (forall k :: k in r.selection.keyframes.selected ==> KeepsSelectedKeyframe(sheet, r, k))
      && (r.lockHitboxes || playing ==> r.selection.hitboxes.selected == {})
      && (forall h :: h in r.selection.hitboxes.selected ==> KeepsSelectedHitbox(sheet, r, h))
  {
    var v2 := ClampedClock(sheet, ResolvedCurrents(sheet, view));
    var r := SanitizedView(sheet, view, playing);
    ResolutionDependsOnCurrents(sheet, v2, r);
    assert r.lockHitboxes == v2.lockHitboxes;
    forall h | h in r.selection.hitboxes.selected
      ensures KeepsSelectedHitbox(sheet, r, h)
    {
      assert KeepsSelectedHitbox(sheet, v2, h);
    }
  }

  /** `sanitize_view` touches only the current animation and direction, the clock and the selection. */
  lemma SanitizedViewKeepsRest(sheet: Sheet, view: View, playing: bool)
    ensures var r := SanitizedView(sheet, view, playing);
      r.(currentAnimation := view.currentAnimation, currentSequence := view.currentSequence,
         timelineClock := view.timelineClock, selection := view.selection) == view
  {
  }

  /** After `sanitize_view`, whatever is current resolves in the sheet. */
  lemma SanitizedViewResolves(sheet: Sheet, view: View, playing: bool)
    ensures var r := SanitizedView(sheet, view, playing);
      && (r.currentAnimation.Some? ==> WorkbenchAnimation(sheet, r).Ok?)
      && (r.currentSequence.Some? ==> WorkbenchSequence(sheet, r).Ok?)
  {
    var r := SanitizedView(sheet, view, playing);
    var resolved := ResolvedCurrents(sheet, view);
    ResolutionDependsOnCurrents(sheet, r, resolved);
    ResolvedAnimationStable(sheet, view, resolved);
    if WorkbenchAnimation(sheet, view).Ok? {
      ResolvedSequenceStable(sheet, view, resolved);
    }
  }

  /** Resolving and clamping a sanitized view again leaves it as it is. */
  lemma SanitizedCurrentsStable(sheet: Sheet, view: View, playing: bool)
    ensures var r := SanitizedView(sheet, view, playing);
      ClampedClock(sheet, ResolvedCurrents(sheet, r)) == r
  {
    var r := SanitizedView(sheet, view, playing);
    ResolvedCurrentsStable(sheet, view, r);
    SanitizedClock(sheet, view, playing);
  }

  /** A view whose current animation and direction were resolved once resolves to itself. */
  lemma ResolvedCurrentsStable(sheet: Sheet, view: View, r: View)
    requires r.currentAnimation == ResolvedCurrents(sheet, view).currentAnimation
    requires r.currentSequence == ResolvedCurrents(sheet, view).currentSequence
    ensures ResolvedCurrents(sheet, r) == r
  {
    ResolvedAnimationKept(sheet, view, r);
    ResolvedSequenceKept(sheet, view, r);
  }

  lemma ResolvedAnimationKept(sheet: Sheet, view: View, r: View)
    requires r.currentAnimation == ResolvedCurrents(sheet, view).currentAnimation
    requires r.currentSequence == ResolvedCurrents(sheet, view).currentSequence
    ensures ResolvedCurrents(sheet, r).currentAnimation == r.currentAnimation
  {
    ResolvedAnimationStable(sheet, view, r);
  }

  lemma ResolvedSequenceKept(sheet: Sheet, view: View, r: View)
    requires r.currentAnimation == ResolvedCurrents(sheet, view).currentAnimation
    requires r.currentSequence == ResolvedCurrents(sheet, view).currentSequence
    ensures ResolvedCurrents(sheet, r).currentSequence == r.currentSequence
  {
    ResolvedAnimationStable(sheet, view, r);
    if WorkbenchAnimation(sheet, view).Ok? {
      ResolvedSequenceStable(sheet, view, r);
    }
  }

  /** Resolving twice finds the animation the first pass left. */
  lemma ResolvedAnimationStable(sheet: Sheet, view: View, r: View)
    requires r.currentAnimation == ResolvedCurrents(sheet, view).currentAnimation
    requires r.currentSequence == ResolvedCurrents(sheet, view).currentSequence
    ensures WorkbenchAnimation(sheet, r).Ok? <==> WorkbenchAnimation(sheet, view).Ok?
    ensures WorkbenchAnimation(sheet, r).Ok? ==> WorkbenchAnimation(sheet, r) == WorkbenchAnimation(sheet, view)
    ensures WorkbenchAnimation(sheet, r).Err? ==> r.currentAnimation.None? && r.currentSequence.None?
  {
  }

  /** Resolving twice finds the direction the first pass left, or again none. */
  lemma ResolvedSequenceStable(sheet: Sheet, view: View, r: View)
    requires WorkbenchAnimation(sheet, view).Ok?
    requires r.currentAnimation == ResolvedCurrents(sheet, view).currentAnimation
    requires r.currentSequence == ResolvedCurrents(sheet, view).currentSequence
    ensures WorkbenchSequence(sheet, r).Err? ==>
      r.currentSequence == FirstDirection(WorkbenchAnimation(sheet, r).value.1)
  {
    ResolvedAnimationStable(sheet, view, r);
    var animation := WorkbenchAnimation(sheet, view).value.1;
    if WorkbenchSequence(sheet, r).Err? && WorkbenchSequence(sheet, view).Err? {
      assert r.currentSequence == FirstDirection(animation);
      if r.currentSequence.Some? {
        assert false;
      }
    }
  }

  /** A selection that holds only what survives sanitizing is kept as it is. */
  lemma SanitizedSelectionStable(sheet: Sheet, v: View, playing: bool)
    requires forall p :: p in v.selection.frames.selected ==> HasFrame(sheet, p)
    requires forall a :: a in v.selection.animations.selected ==> a in sheet.animations
    requires forall k :: k in v.selection.keyframes.selected ==> KeepsSelectedKeyframe(sheet, v, k)
    requires v.lockHitboxes || playing ==> v.selection.hitboxes == EmptySelection()
    requires forall h :: h in v.selection.hitboxes.selected ==> KeepsSelectedHitbox(sheet, v, h)
    ensures SanitizedSelection(sheet, v, playing) == v.selection
  {
    var s := SanitizedSelection(sheet, v, playing);
    assert s.frames.selected == v.selection.frames.selected;
    assert s.animations.selected == v.selection.animations.selected;
    assert s.keyframes.selected == v.selection.keyframes.selected;
    assert s.hitboxes.selected == v.selection.hitboxes.selected;
  }

  /** Sanitizing an already sanitized view changes nothing. */
  lemma SanitizeViewIdempotent(sheet: Sheet, view: View, playing: bool)
    ensures var r := SanitizedView(sheet, view, playing);
      SanitizedView(sheet, r, playing) == r
  {
    var r := SanitizedView(sheet, view, playing);
    SanitizedCurrentsStable(sheet, view, playing);
    SanitizedSelectionSpec(sheet, view, playing);
    assert r.lockHitboxes || playing ==> r.selection.hitboxes == EmptySelection();
    SanitizedSelectionStable(sheet, r, playing);
  }

  /** `Document::sanitize_view` on the document itself. */
  method SanitizeView(doc: Document)
    modifies doc
    ensures doc.view == SanitizedView(old(doc.sheet), old(doc.view), old(doc.persistent.timelineIsPlaying))
    ensures doc.sheet == old(doc.sheet) && doc.transient == old(doc.transient)
    ensures doc.persistent == old(doc.persistent) && doc.KeepsHistory()
  {
    doc.view := SanitizedView(doc.sheet, doc.view, doc.persistent.timelineIsPlaying);
  }

  // ----- Replacing the selection -----

  /** `Document::select_frames_only`: a fresh selection holding exactly these frames. */
  function SelectFramesOnly(view: View, frames: seq<Path>): (r: View)
    ensures r == view.(selection := r.selection)
    ensures r.selection == EmptySelectionState.(frames := Only(frames))
  {
    view.(selection := EmptySelectionState.(frames := Only(frames)))
  }

  /** `Document::select_animations_only`. */
  function SelectAnimationsOnly(view: View, animations: seq<string>): (r: View)
    ensures r == view.(selection := r.selection)
    ensures r.selection == EmptySelectionState.(animations := Only(animations))
  {
    view.(selection := EmptySelectionState.(animations := Only(animations)))
  }

  /** `Document::select_keyframes_only`. */
  function SelectKeyframesOnly(view: View, keyframes: seq<KeyframeRef>): (r: View)
    ensures r == view.(selection := r.selection)
    ensures r.selection == EmptySelectionState.(keyframes := Only(keyframes))
  {
    view.(selection := EmptySelectionState.(keyframes := Only(keyframes)))
  }

  /** `Document::select_hitboxes_only`. */
  function SelectHitboxesOnly(view: View, hitboxes: seq<HitboxRef>): (r: View)
    ensures r == view.(selection := r.selection)
    ensures r.selection == EmptySelectionState.(hitboxes := Only(hitboxes))
  {
    view.(selection := EmptySelectionState.(hitboxes := Only(hitboxes)))
  }

  /**
   * `Document::select_current_keyframe`: select only the keyframe under the
   * clock; fails, changing nothing, when there is none.
   */
  function SelectCurrentKeyframe(sheet: Sheet, view: View): (r: Result<View, DocumentError>)
    ensures WorkbenchKeyframe(sheet, view).Err? ==> r == Err(WorkbenchKeyframe(sheet, view).error)
    ensures r.Ok? <==> WorkbenchKeyframe(sheet, view).Ok?
    ensures r.Ok? ==> && WorkbenchKeyframe(sheet, view).Ok?
                      && var name := WorkbenchAnimation(sheet, view).value.0;
                         var (slot, _) := WorkbenchKeyframe(sheet, view).value;
                         r.value == SelectKeyframesOnly(view, [KeyframeRef(name, slot.0, slot.1)])
  {
    var (name, _) :- WorkbenchAnimation(sheet, view);
    var ((direction, index), _) :- WorkbenchKeyframe(sheet, view);
    Ok(SelectKeyframesOnly(view, [KeyframeRef(name, direction, index)]))
  }

  /** `select_current_keyframe().ok()`: the same, with a failure ignored. */
  function TrySelectCurrentKeyframe(sheet: Sheet, view: View): (r: View)
    ensures r == view.(selection := r.selection)
    ensures SelectCurrentKeyframe(sheet, view).Err? ==> r == view
    ensures SelectCurrentKeyframe(sheet, view).Ok? ==> r == SelectCurrentKeyframe(sheet, view).value
  {
    match SelectCurrentKeyframe(sheet, view)
    case Ok(v) => v
    case Err(_) => view
  }
}
