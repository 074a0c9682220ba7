/**
 * Gestures that span several events: renaming, and dragging frames or
 * keyframes onto the timeline. The session state lives in the document's
 * `transient` field and is never recorded in history.
 */
module Gestures {
  import opened Wrappers
  import opened Sheets
  import opened Selections
  import opened Views
  import opened Documents
  import opened Ordering
  import Timeline
  import Content
  import KeyframeEdits

  // ----- Renaming -----

  /** `Document::animation_being_renamed`. */
  function AnimationBeingRenamed(t: Transient): (r: Option<string>)
    ensures r.Some? <==> t.rename.Some? && t.rename.value.RenamingAnimation?
    ensures r.Some? ==> t.rename == Some(RenamingAnimation(r.value))
  {
    match t.rename
    case Some(RenamingAnimation(name)) => Some(name)
    case _ => None
  }

  /** `Document::hitbox_being_renamed`. */
  function HitboxBeingRenamed(t: Transient): (r: Option<string>)
    ensures r.Some? <==> t.rename.Some? && t.rename.value.RenamingHitbox?
    ensures r.Some? ==> t.rename == Some(RenamingHitbox(r.value))
  {
    match t.rename
    case Some(RenamingHitbox(name)) => Some(name)
    case _ => None
  }

  /** `Document::begin_rename_animation`. */
  method BeginRenameAnimation(doc: Document, name: string)
    modifies doc
    ensures doc.transient == old(doc.transient).(rename := Some(RenamingAnimation(name)))
    ensures AnimationBeingRenamed(doc.transient) == Some(name) && HitboxBeingRenamed(doc.transient).None?
    ensures doc.sheet == old(doc.sheet) && doc.view == old(doc.view)
    ensures doc.persistent == old(doc.persistent) && doc.KeepsHistory()
  {
    doc.transient := doc.transient.(rename := Some(RenamingAnimation(name)));
  }

  /** `Document::begin_rename_hitbox`. */
  method BeginRenameHitbox(doc: Document, name: string)
    modifies doc
    ensures doc.transient == old(doc.transient).(rename := Some(RenamingHitbox(name)))
    ensures HitboxBeingRenamed(doc.transient) == Some(name) && AnimationBeingRenamed(doc.transient).None?
    ensures doc.sheet == old(doc.sheet) && doc.view == old(doc.view)
    ensures doc.persistent == old(doc.persistent) && doc.KeepsHistory()
  {
    doc.transient := doc.transient.(rename := Some(RenamingHitbox(name)));
  }

  /** `Document::cancel_rename`. */
  method CancelRename(doc: Document)
    modifies doc
    ensures doc.transient == old(doc.transient).(rename := None)
    ensures AnimationBeingRenamed(doc.transient).None? && HitboxBeingRenamed(doc.transient).None?
    ensures doc.sheet == old(doc.sheet) && doc.view == old(doc.view)
    ensures doc.persistent == old(doc.persistent) && doc.KeepsHistory()
  {
    doc.transient := doc.transient.(rename := None);
  }

  /**
   * `Document::end_rename_animation`: outside an animation rename it fails
   * and changes nothing; inside one, the session ends even when the rename
   * itself fails.
   */
  method EndRenameAnimation(doc: Document, newName: string) returns (r: Result<(), DocumentError>)
    modifies doc
    ensures AnimationBeingRenamed(old(doc.transient)).None? ==>
      && r == Err(NotRenamingAnyAnimation)
      && doc.sheet == old(doc.sheet) && doc.view == old(doc.view) && doc.transient == old(doc.transient)
    ensures AnimationBeingRenamed(old(doc.transient)).Some? ==>
      var oldName := AnimationBeingRenamed(old(doc.transient)).value;
      var s := Sheets.RenameAnimation(old(doc.sheet), oldName, newName);
      && doc.transient == old(doc.transient).(rename := None)
      && (s.Err? ==> r == Err(SheetFailure(s.error)) && doc.sheet == old(doc.sheet) && doc.view == old(doc.view))
      && (s.Ok? ==> r == Ok(()) && doc.sheet == s.value && doc.view == Content.RenamedView(old(doc.view), oldName, newName))
    ensures doc.persistent == old(doc.persistent) && doc.KeepsHistory()
  {
    match AnimationBeingRenamed(doc.transient)
    case None =>
      return Err(NotRenamingAnyAnimation);
    case Some(oldName) =>
      doc.transient := doc.transient.(rename := None);
      r := Content.RenameAnimation(doc, oldName, newName);
  }

  /** `Document::end_rename_hitbox`: the same for a hitbox of the keyframe under the clock. */
  method EndRenameHitbox(doc: Document, newName: string) returns (r: Result<(), DocumentError>)
    modifies doc
    ensures HitboxBeingRenamed(old(doc.transient)).None? ==>
      && r == Err(NotRenamingAnyHitbox)
      && doc.sheet == old(doc.sheet) && doc.view == old(doc.view) && doc.transient == old(doc.transient)
    ensures HitboxBeingRenamed(old(doc.transient)).Some? ==>
      var oldName := HitboxBeingRenamed(old(doc.transient)).value;
      var k := WorkbenchKeyframe(old(doc.sheet), old(doc.view));
      && doc.transient == old(doc.transient).(rename := None)
      && (k.Err? ==> r == Err(k.error))
      && (k.Ok? && Sheets.RenameHitbox(k.value.1, oldName, newName).Err? ==>
            r == Err(SheetFailure(Sheets.RenameHitbox(k.value.1, oldName, newName).error)))
      && (r.Err? ==> doc.sheet == old(doc.sheet) && doc.view == old(doc.view))
      && (r.Ok? ==>
            var animation := WorkbenchAnimation(old(doc.sheet), old(doc.view)).value.0;
            var (slot, keyframe) := k.value;
            && Sheets.RenameHitbox(keyframe, oldName, newName).Ok?
            && doc.sheet == KeyframeEdits.WithKeyframe(old(doc.sheet), animation, slot,
                                                       Sheets.RenameHitbox(keyframe, oldName, newName).value)
            && doc.view == SelectHitboxesOnly(old(doc.view), [HitboxRef(animation, slot.0, slot.1, newName)]))
    ensures doc.persistent == old(doc.persistent) && doc.KeepsHistory()
  {
    match HitboxBeingRenamed(doc.transient)
    case None =>
      return Err(NotRenamingAnyHitbox);
    case Some(oldName) =>
      doc.transient := doc.transient.(rename := None);
      r := KeyframeEdits.RenameHitbox(doc, oldName, newName);
  }

  // ----- Inserting a block of keyframes -----

  /** `s` back to front. */
  function Reversed<T>(s: seq<T>): (r: seq<T>)
    ensures |r| == |s|
    ensures forall i :: 0 <= i < |s| ==> r[i] == s[|s| - 1 - i]
    decreases |s|
  {
    if s == [] then [] else [s[|s| - 1]] + Reversed(s[..|s| - 1])
  }

  /**
   * `after` is `before` with `block` inserted at `at` (a position inside
   * `before` or just past its end): the block sits at
   * `at`, the keyframes before `at` stay where they were, and the ones from
   * `at` on move up by the block's length.
   */
  predicate PlacesBlock(before: seq<Keyframe>, after: seq<Keyframe>, at: nat, block: seq<Keyframe>)
  {
    && |after| == |before| + |block|
    && (block != [] ==> at <= |before|)
    && (forall j :: 0 <= j < |block| ==> after[at + j] == block[j])
    && (forall j :: 0 <= j < at && j < |before| ==> after[j] == before[j])
    && (forall j :: at <= j < |before| ==> after[j + |block|] == before[j])
  }

  /**
   * The sequence with `block` inserted at `at`, in order. Inserting at a
   * position past the end fails, unless there is nothing to insert.
   */
  function InsertedBlock(sequence: Sequence, block: seq<Keyframe>, at: nat): (r: Result<Sequence, SheetError>)
    ensures r.Err? <==> block != [] && at > |sequence.keyframes|
    ensures r.Err? ==> r.error == InvalidFrameIndex(at)
    ensures r.Ok? ==> PlacesBlock(sequence.keyframes, r.value.keyframes, at, block)
  {
    var ks := sequence.keyframes;
    if block == [] then
      assert PlacesBlock(ks, ks, at, block);
      Ok(sequence)
    else if at > |ks| then Err(InvalidFrameIndex(at))
    else
      SplicePlacesBlock(ks, at, block);
      Ok(Sequence(ks[..at] + block + ks[at..]))
  }

  /** Splicing `block` in at `at` places it there. */
  lemma SplicePlacesBlock(ks: seq<Keyframe>, at: nat, block: seq<Keyframe>)
    requires at <= |ks|
    ensures PlacesBlock(ks, ks[..at] + block + ks[at..], at, block)
  {
    var after := ks[..at] + block + ks[at..];
    assert forall j :: 0 <= j < |block| ==> after[at + j] == block[j];
    assert forall j :: 0 <= j < at ==> after[j] == ks[j];
    assert forall j :: at <= j < |ks| ==> after[j + |block|] == ks[j];
  }

  /**
   * The loop that inserts each keyframe of `keyframes` in turn at the same
   * index: the last one inserted ends up first, so the block reads back to
   * front. Only the first insertion can fail, so a failure changes nothing.
   */
  method InsertEach(sequence: Sequence, keyframes: seq<Keyframe>, at: nat) returns (r: Result<Sequence, SheetError>)
    ensures r == InsertedBlock(sequence, Reversed(keyframes), at)
  {
    ghost var ks := sequence.keyframes;
    var current := sequence;
    var j := 0;
    while j < |keyframes|
      invariant 0 <= j <= |keyframes|
      invariant j == 0 ==> current == sequence
      invariant j > 0 ==> at <= |ks| && current.keyframes == ks[..at] + Reversed(keyframes[..j]) + ks[at..]
    {
      var inserted := InsertKeyframe(current, keyframes[j], at);
      if inserted.Err? {
        assert Reversed(keyframes) != [];
        return Err(inserted.error);
      }
      ghost var block := Reversed(keyframes[..j]);
      if j == 0 {
        assert ks[..at] + block + ks[at..] == ks;
      }
      InsertIntoSplice(ks, at, block, keyframes[j], current, inserted.value);
      ReversedExtended(keyframes, j);
      current := inserted.value;
      j := j + 1;
    }
    assert keyframes[..j] == keyframes;
    return Ok(current);
  }

  /** Inserting at `at` of a splice puts the keyframe at the head of the spliced block. */
  lemma InsertIntoSplice(ks: seq<Keyframe>, at: nat, block: seq<Keyframe>, k: Keyframe, current: Sequence, inserted: Sequence)
    requires at <= |ks| && current.keyframes == ks[..at] + block + ks[at..]
    requires InsertKeyframe(current, k, at) == Ok(inserted)
    ensures inserted.keyframes == ks[..at] + ([k] + block) + ks[at..]
  {
    var c := current.keyframes;
    var e := ks[..at] + ([k] + block) + ks[at..];
    forall j | 0 <= j < |e|
      ensures inserted.keyframes[j] == e[j]
    {
      if j > at {
        assert e[j] == c[j - 1];
      }
    }
  }

  /** Reversing one more element of a prefix puts it first. */
  lemma ReversedExtended<T>(s: seq<T>, j: nat)
    requires j < |s|
    ensures Reversed(s[..j + 1]) == [s[j]] + Reversed(s[..j])
  {
    assert s[..j + 1][..j] == s[..j];
  }

  /** The references `(animation, direction, start)` .. `(animation, direction, start + n - 1)`. */
  function BlockRefs(animation: string, direction: Direction, start: nat, n: nat): (r: seq<KeyframeRef>)
    ensures |r| == n
    ensures forall k :: k in r <==> k.animation == animation && k.direction == direction && start <= k.index < start + n
  {
    var r := seq(n, (j: int) requires 0 <= j < n => KeyframeRef(animation, direction, start + j));
    assert forall i :: start <= i < start + n ==> r[i - start] == KeyframeRef(animation, direction, i);
    r
  }

  /** `ks` holds `block` as a contiguous run starting at `at`. */
  predicate HoldsBlock(ks: seq<Keyframe>, at: nat, block: seq<Keyframe>) {
    at + |block| <= |ks| && ks[at..at + |block|] == block
  }

  /** After `o`, sequence `direction` of animation `name` holds `block` from `at` on. */
  predicate LandsBlock(o: Outcome, name: string, direction: Direction, at: nat, block: seq<Keyframe>) {
    && name in o.sheet.animations
    && direction in o.sheet.animations[name].sequences
    && (block != [] ==> HoldsBlock(o.sheet.animations[name].sequences[direction].keyframes, at, block))
  }

  /** After `o`, exactly the `n` keyframes from `at` of `direction` in animation `name` are selected. */
  ghost predicate SelectsBlock(o: Outcome, name: string, direction: Direction, at: nat, n: nat) {
    forall k :: k in o.view.selection.keyframes.selected <==>
      k.animation == name && k.direction == direction && at <= k.index < at + n
  }

  /** The view after a block of `n` keyframes lands at `at` of `direction`: the block is selected. */
  function LandedView(view: View, clock: nat, animation: string, direction: Direction, at: nat, n: nat): (r: View)
    ensures r.selection.keyframes.selected == set k | k in BlockRefs(animation, direction, at, n)
    ensures r.currentSequence == Some(direction) && r.timelineClock == clock
    ensures r == view.(selection := r.selection, currentSequence := r.currentSequence, timelineClock := clock)
  {
    SelectKeyframesOnly(view.(timelineClock := clock), BlockRefs(animation, direction, at, n)).(currentSequence := Some(direction))
  }

  // ----- Dragging frames onto the timeline -----

  /** `Document::frames_being_dragged`: the selected frames, while a frame drag is under way. */
  function FramesBeingDragged(t: Transient, view: View): (r: set<Path>)
    ensures t.frameDragAndDrop.None? ==> r == {}
    ensures t.frameDragAndDrop.Some? ==> r == view.selection.frames.selected
  {
    if t.frameDragAndDrop.Some? then view.selection.frames.selected else {}
  }

  /** `Document::begin_drag_and_drop_frame`: an unselected frame becomes the only selected one. */
  method BeginDragAndDropFrame(doc: Document, frame: Path)
    modifies doc
    ensures doc.view == if frame in old(doc.view.selection.frames.selected) then old(doc.view)
                        else SelectFramesOnly(old(doc.view), [frame])
    ensures doc.transient == old(doc.transient).(frameDragAndDrop := Some(frame))
    ensures frame in FramesBeingDragged(doc.transient, doc.view)
    ensures doc.sheet == old(doc.sheet) && doc.persistent == old(doc.persistent) && doc.KeepsHistory()
  {
    if frame !in doc.view.selection.frames.selected {
      doc.view := SelectFramesOnly(doc.view, [frame]);
    }
    doc.transient := doc.transient.(frameDragAndDrop := Some(frame));
  }

  /** `Document::end_drag_and_drop_frame`. */
  method EndDragAndDropFrame(doc: Document)
    modifies doc
    ensures doc.transient == old(doc.transient).(frameDragAndDrop := None)
    ensures FramesBeingDragged(doc.transient, doc.view) == {}
    ensures doc.sheet == old(doc.sheet) && doc.view == old(doc.view)
    ensures doc.persistent == old(doc.persistent) && doc.KeepsHistory()
  {
    doc.transient := doc.transient.(frameDragAndDrop := None);
  }

  /** One new keyframe per path, in the same order. */
  function NewKeyframes(paths: seq<Path>): (r: seq<Keyframe>)
    ensures |r| == |paths|
    ensures forall j :: 0 <= j < |paths| ==> r[j] == NewKeyframe(paths[j])
  {
    seq(|paths|, (j: int) requires 0 <= j < |paths| => NewKeyframe(paths[j]))
  }

  /**
   * What dropping the selected frames at `index` of `direction` does: a new
   * keyframe per frame, in ascending path order, inserted as one block;
   * while paused the clock moves to the block's start; the block becomes
   * the selection.
   */
  function FrameDrop(sheet: Sheet, view: View, playing: bool, direction: Direction, index: nat): (r: Outcome)
    ensures WorkbenchAnimation(sheet, view).Err? ==> r == Outcome(sheet, view, Err(WorkbenchAnimation(sheet, view).error))
    ensures r.result.Err? ==> r.sheet == sheet && r.view == view
  {
    var w := WorkbenchAnimation(sheet, view);
    if w.Err? then Outcome(sheet, view, Err(w.error))
    else FrameLanding(sheet, view, playing, w.value.0, w.value.1, direction, index, Ascending(view.selection.frames.selected))
  }

  /** The part of a frame drop after the workbench animation `name` is found. */
  function FrameLanding(sheet: Sheet, view: View, playing: bool, name: string, animation: Animation,
                        direction: Direction, index: nat, frames: seq<Path>): (r: Outcome)
    ensures r.result.Err? ==> r.sheet == sheet && r.view == view
  {
    if direction !in animation.sequences then Outcome(sheet, view, Err(SequenceNotInAnimation(direction)))
    else match InsertedBlock(animation.sequences[direction], NewKeyframes(frames), index)
      case Err(e) => Outcome(sheet, view, Err(SheetFailure(e)))
      case Ok(s) =>
        FramesSettled(sheet, view, playing, name, animation.(sequences := animation.sequences[direction := s]),
                      direction, index, |frames|)
  }

  /**
   * The end of a frame drop, once `moved` holds the `n` new keyframes at
   * `index` of `direction`: while paused the clock moves to the block's
   * start; the block becomes the selection. A paused drop with no keyframe
   * at `index` (no frame selected, dropped at the end) reads past the end of
   * the keyframe times, where the editor panics; here it fails with
   * `NoKeyframeAtIndex`, and since nothing was inserted, nothing changes.
   */
  function FramesSettled(sheet: Sheet, view: View, playing: bool, name: string, moved: Animation,
                         direction: Direction, index: nat, n: nat): (r: Outcome)
    requires direction in moved.sequences
    ensures r.result.Err? <==> !playing && index >= |moved.sequences[direction].keyframes|
    ensures r.result.Err? ==> r == Outcome(sheet, view, Err(NoKeyframeAtIndex(index)))
    ensures r.result.Ok? ==> r.sheet == sheet.(animations := sheet.animations[name := moved])
    ensures r.result.Ok? ==> r.view == LandedView(view, r.view.timelineClock, name, direction, index, n)
    ensures r.result.Ok? && !playing ==> r.view.timelineClock == KeyframeTimes(moved.sequences[direction])[index]
    ensures playing ==> r.view.timelineClock == view.timelineClock
  {
    var s := moved.sequences[direction];
    if !playing && index >= |s.keyframes| then Outcome(sheet, view, Err(NoKeyframeAtIndex(index)))
    else
      var clock := if playing then view.timelineClock else KeyframeTimes(s)[index];
      Outcome(sheet.(animations := sheet.animations[name := moved]), LandedView(view, clock, name, direction, index, n), Ok(()))
  }

  /**
   * A paused drop of no frame at or past the end of the sequence inserts
   * nothing and then reads a keyframe time that does not exist: the editor
   * panics there, and the model fails with nothing changed.
   */
  lemma FrameDropWithoutFramesPastEnd(sheet: Sheet, view: View, direction: Direction, index: nat)
    requires WorkbenchAnimation(sheet, view).Ok?
    requires direction in WorkbenchAnimation(sheet, view).value.1.sequences
    requires view.selection.frames.selected == {}
    requires index >= |WorkbenchAnimation(sheet, view).value.1.sequences[direction].keyframes|
    ensures FrameDrop(sheet, view, false, direction, index) == Outcome(sheet, view, Err(NoKeyframeAtIndex(index)))
  {
    var (name, animation) := WorkbenchAnimation(sheet, view).value;
    var frames := Ascending(view.selection.frames.selected);
    assert frames == [];
    var s := animation.sequences[direction];
    assert InsertedBlock(s, NewKeyframes(frames), index) == Ok(s);
  }

  lemma ReversedNewKeyframes(paths: seq<Path>)
    ensures Reversed(NewKeyframes(Reversed(paths))) == NewKeyframes(paths)
  {
  }

  /**
   * `Document::drop_frame_on_timeline`: the frames are sorted, reversed, and
   * each inserted in turn at `index`; the session ends on success.
   */
  method DropFrameOnTimeline(doc: Document, direction: Direction, index: nat) returns (r: Result<(), DocumentError>)
    modifies doc
    ensures Outcome(doc.sheet, doc.view, r)
            == FrameDrop(old(doc.sheet), old(doc.view), old(doc.persistent.timelineIsPlaying), direction, index)
    ensures doc.transient == if r.Ok? then old(doc.transient).(frameDragAndDrop := None) else old(doc.transient)
    ensures doc.persistent == old(doc.persistent) && doc.KeepsHistory()
  {
    var outcome := PlanFrameDrop(doc.sheet, doc.view, doc.persistent.timelineIsPlaying, direction, index);
    doc.sheet, doc.view, r := outcome.sheet, outcome.view, outcome.result;
    if r.Ok? {
      doc.transient := doc.transient.(frameDragAndDrop := None);
    }
  }

  /** The work of `drop_frame_on_timeline`, on the sheet and view as values. */
  method PlanFrameDrop(sheet: Sheet, view: View, playing: bool, direction: Direction, index: nat) returns (o: Outcome)
    ensures o == FrameDrop(sheet, view, playing, direction, index)
  {
    var workbench := WorkbenchAnimation(sheet, view);
    if workbench.Err? {
      return Outcome(sheet, view, Err(workbench.error));
    }
    o := LandFrames(sheet, view, playing, workbench.value.0, workbench.value.1, direction, index,
                    Ascending(view.selection.frames.selected));
  }

  /** Inserts new keyframes for `frames`, one at a time in reverse order, at `index` of `direction`. */
  method LandFrames(sheet: Sheet, view: View, playing: bool, name: string, animation: Animation, direction: Direction,
                    index: nat, frames: seq<Path>) returns (o: Outcome)
    ensures o == FrameLanding(sheet, view, playing, name, animation, direction, index, frames)
  {
    if direction !in animation.sequences {
      return Outcome(sheet, view, Err(SequenceNotInAnimation(direction)));
    }
    var reversed := Reversed(frames);
    ReversedNewKeyframes(frames);
    var inserted := InsertEach(animation.sequences[direction], NewKeyframes(reversed), index);
    assert inserted == InsertedBlock(animation.sequences[direction], NewKeyframes(frames), index);
    if inserted.Err? {
      return Outcome(sheet, view, Err(SheetFailure(inserted.error)));
    }
    o := FramesSettled(sheet, view, playing, name, animation.(sequences := animation.sequences[direction := inserted.value]),
                       direction, index, |frames|);
  }

  /**
   * A successful frame drop puts one new keyframe per selected frame, in
   * ascending path order, at `index`, keeps the keyframes around them in
   * order, and selects exactly the new keyframes.
   */
  lemma FrameDropInsertsSelectedFrames(sheet: Sheet, view: View, playing: bool, direction: Direction, index: nat,
                                       name: string, animation: Animation)
    requires WorkbenchAnimation(sheet, view) == Ok((name, animation))
    requires FrameDrop(sheet, view, playing, direction, index).result.Ok?
    ensures var frames := Ascending(view.selection.frames.selected);
      var before := animation.sequences[direction].keyframes;
      var ks := FrameDrop(sheet, view, playing, direction, index).sheet.animations[name].sequences[direction].keyframes;
      && PlacesBlock(before, ks, index, NewKeyframes(frames))
      && (forall j :: 0 <= j < |frames| ==> ks[index + j].frame == frames[j])
  {
    var frames := Ascending(view.selection.frames.selected);
    assert FrameDrop(sheet, view, playing, direction, index)
        == FrameLanding(sheet, view, playing, name, animation, direction, index, frames);
    FrameLandingInserts(sheet, view, playing, name, animation, direction, index, frames);
  }

  /** After a successful frame drop, exactly the new keyframes are selected. */
  lemma FrameDropSelectsNewKeyframes(sheet: Sheet, view: View, playing: bool, direction: Direction, index: nat,
                                     name: string, animation: Animation)
    requires WorkbenchAnimation(sheet, view) == Ok((name, animation))
    requires FrameDrop(sheet, view, playing, direction, index).result.Ok?
    ensures var n := |view.selection.frames.selected|;
      forall k :: k in FrameDrop(sheet, view, playing, direction, index).view.selection.keyframes.selected <==>
        k.animation == name && k.direction == direction && index <= k.index < index + n
  {
    var frames := Ascending(view.selection.frames.selected);
    assert FrameDrop(sheet, view, playing, direction, index)
        == FrameLanding(sheet, view, playing, name, animation, direction, index, frames);
    FrameLandingSelects(sheet, view, playing, name, animation, direction, index, frames);
  }

  /** A successful landing inserts the block of new keyframes at `index`. */
  lemma FrameLandingInserts(sheet: Sheet, view: View, playing: bool, name: string, animation: Animation,
                            direction: Direction, index: nat, frames: seq<Path>)
    requires FrameLanding(sheet, view, playing, name, animation, direction, index, frames).result.Ok?
    ensures var before := animation.sequences[direction].keyframes;
      var ks := FrameLanding(sheet, view, playing, name, animation, direction, index, frames)
                .sheet.animations[name].sequences[direction].keyframes;
      && PlacesBlock(before, ks, index, NewKeyframes(frames))
      && (forall j :: 0 <= j < |frames| ==> ks[index + j].frame == frames[j])
  {
    var s := InsertedBlock(animation.sequences[direction], NewKeyframes(frames), index).value;
    assert FrameLanding(sheet, view, playing, name, animation, direction, index, frames)
           .sheet.animations[name].sequences[direction] == s;
  }

  /** A successful landing selects exactly the block of new keyframes. */
  lemma FrameLandingSelects(sheet: Sheet, view: View, playing: bool, name: string, animation: Animation,
                            direction: Direction, index: nat, frames: seq<Path>)
    requires FrameLanding(sheet, view, playing, name, animation, direction, index, frames).result.Ok?
    ensures forall k :: k in FrameLanding(sheet, view, playing, name, animation, direction, index, frames)
                             .view.selection.keyframes.selected <==>
      k.animation == name && k.direction == direction && index <= k.index < index + |frames|
  {
    var s := InsertedBlock(animation.sequences[direction], NewKeyframes(frames), index).value;
    var clock := if !playing && index < |s.keyframes| then KeyframeTimes(s)[index] else view.timelineClock;
    assert FrameLanding(sheet, view, playing, name, animation, direction, index, frames).view
        == LandedView(view, clock, name, direction, index, |frames|);
  }

  // ----- Dragging keyframes along the timeline -----

  /** `Document::keyframes_being_dragged`: the selected slots, while a keyframe drag is under way. */
  function KeyframesBeingDragged(t: Transient, view: View): (r: set<KeyframeSlot>)
    ensures t.keyframeDragAndDrop.None? ==> r == {}
    ensures t.keyframeDragAndDrop.Some? ==> forall slot :: slot in r <==>
      exists k :: k in view.selection.keyframes.selected && slot == (k.direction, k.index)
  {
    if t.keyframeDragAndDrop.Some? then Timeline.SelectedSlots(view) else {}
  }

  /** `Document::begin_drag_and_drop_keyframe`: an unselected keyframe becomes the only selected one. */
  method BeginDragAndDropKeyframe(doc: Document, direction: Direction, index: nat) returns (r: Result<(), DocumentError>)
    modifies doc
    ensures var w := WorkbenchAnimation(old(doc.sheet), old(doc.view));
      && (w.Err? ==> r == Err(w.error) && doc.view == old(doc.view) && doc.transient == old(doc.transient))
      && (w.Ok? ==>
            var k := KeyframeRef(w.value.0, direction, index);
            && r == Ok(())
            && doc.view == (if k in old(doc.view.selection.keyframes.selected) then old(doc.view)
                            else SelectKeyframesOnly(old(doc.view), [k]))
            && k in doc.view.selection.keyframes.selected
            && doc.transient == old(doc.transient).(keyframeDragAndDrop := Some((direction, index))))
    ensures doc.sheet == old(doc.sheet) && doc.persistent == old(doc.persistent) && doc.KeepsHistory()
  {
    var w := WorkbenchAnimation(doc.sheet, doc.view);
    if w.Err? {
      return Err(w.error);
    }
    var k := KeyframeRef(w.value.0, direction, index);
    if k !in doc.view.selection.keyframes.selected {
      doc.view := SelectKeyframesOnly(doc.view, [k]);
    }
    doc.transient := doc.transient.(keyframeDragAndDrop := Some((direction, index)));
    return Ok(());
  }

  /** `Document::end_drag_and_drop_keyframe`. */
  method EndDragAndDropKeyframe(doc: Document)
    modifies doc
    ensures doc.transient == old(doc.transient).(keyframeDragAndDrop := None)
    ensures KeyframesBeingDragged(doc.transient, doc.view) == {}
    ensures doc.sheet == old(doc.sheet) && doc.view == old(doc.view)
    ensures doc.persistent == old(doc.persistent) && doc.KeepsHistory()
  {
    doc.transient := doc.transient.(keyframeDragAndDrop := None);
  }

  /**
   * The start times of those of `slots` that name a keyframe of
   * `animation`: the map the drop sorts by.
   */
  function StartTimes(animation: Animation, slots: set<KeyframeSlot>): map<KeyframeSlot, nat> {
    map s | s in slots && Timeline.SlotExists(animation, s) :: KeyframeTimes(animation.sequences[s.0])[s.1]
  }

  /** A slot's start time, 0 when it has none (`unwrap_or_default`). */
  function SlotTime(times: map<KeyframeSlot, nat>, slot: KeyframeSlot): nat {
    if slot in times then times[slot] else 0
  }

  /**
   * The order the dragged keyframes are sorted in: by start time, then by
   * direction, then by index.
   */
  predicate DropBefore(times: map<KeyframeSlot, nat>, a: KeyframeSlot, b: KeyframeSlot) {
    SlotTime(times, a) < SlotTime(times, b)
    || (SlotTime(times, a) == SlotTime(times, b) && Timeline.SlotBefore(a, b))
  }

  predicate DropDescending(times: map<KeyframeSlot, nat>, slots: seq<KeyframeSlot>) {
    forall i, j :: 0 <= i < j < |slots| ==> DropBefore(times, slots[j], slots[i])
  }

  predicate IsLastDropped(times: map<KeyframeSlot, nat>, m: KeyframeSlot, s: set<KeyframeSlot>) {
    m in s && forall x :: x in s && x != m ==> DropBefore(times, x, m)
  }

  lemma {:induction false} LastDroppedExists(times: map<KeyframeSlot, nat>, s: set<KeyframeSlot>)
    requires s != {}
    ensures exists m :: IsLastDropped(times, m, s)
    decreases |s|
  {
    var y :| y in s;
    if s == {y} {
      assert IsLastDropped(times, y, s);
    } else {
      LastDroppedExists(times, s - {y});
      var m :| IsLastDropped(times, m, s - {y});
      if DropBefore(times, y, m) {
        assert IsLastDropped(times, m, s);
      } else {
        assert DirectionRank(m.0) == DirectionRank(y.0) ==> m.0 == y.0;
        assert DropBefore(times, m, y);
        forall x | x in s && x != y
          ensures DropBefore(times, x, y)
        {
          if x != m {
            assert DropBefore(times, x, m);
          }
        }
        assert IsLastDropped(times, y, s);
      }
    }
  }

  lemma LastDroppedUnique(times: map<KeyframeSlot, nat>, m: KeyframeSlot, n: KeyframeSlot, s: set<KeyframeSlot>)
    requires IsLastDropped(times, m, s) && IsLastDropped(times, n, s)
    ensures m == n
  {
  }

  ghost function LastDropped(times: map<KeyframeSlot, nat>, s: set<KeyframeSlot>): (m: KeyframeSlot)
    requires s != {}
    ensures IsLastDropped(times, m, s)
  {
    LastDroppedExists(times, s);
    var m :| IsLastDropped(times, m, s);
    m
  }

  /** The slots of a set, last in drop order first: the order the drop deletes them in. */
  ghost function DropOrder(times: map<KeyframeSlot, nat>, s: set<KeyframeSlot>): seq<KeyframeSlot>
    decreases |s|
  {
    if s == {} then []
    else
      var m := LastDropped(times, s);
      [m] + DropOrder(times, s - {m})
  }

  /** The drop order has one entry per slot. */
  lemma {:induction false} DropOrderLength(times: map<KeyframeSlot, nat>, s: set<KeyframeSlot>)
    ensures |DropOrder(times, s)| == |s|
    decreases |s|
  {
    if s != {} {
      DropOrderLength(times, s - {LastDropped(times, s)});
    }
  }

  /** The drop order lists each slot of the set once, last dropped first. */
  lemma {:induction false} DropOrderSorts(times: map<KeyframeSlot, nat>, s: set<KeyframeSlot>)
    ensures DropDescending(times, DropOrder(times, s))
    ensures |DropOrder(times, s)| == |s|
    ensures forall x :: x in DropOrder(times, s) <==> x in s
    decreases |s|
  {
    if s != {} {
      var m := LastDropped(times, s);
      var rest := DropOrder(times, s - {m});
      DropOrderSorts(times, s - {m});
      assert DropOrder(times, s) == [m] + rest;
      forall i | 0 <= i < |rest|
        ensures DropBefore(times, rest[i], m)
      {
        assert rest[i] in rest;
      }
    }
  }

  /** `sort_by_key` on the dragged slots, walked from the end. */
  method SortForDrop(times: map<KeyframeSlot, nat>, s: set<KeyframeSlot>) returns (r: seq<KeyframeSlot>)
    ensures r == DropOrder(times, s)
  {
    var rest := s;
    r := [];
    while rest != {}
      invariant r + DropOrder(times, rest) == DropOrder(times, s)
      decreases |rest|
    {
      LastDroppedExists(times, rest);
      var m :| IsLastDropped(times, m, rest);
      LastDroppedUnique(times, m, LastDropped(times, rest), rest);
      assert DropOrder(times, rest) == [m] + DropOrder(times, rest - {m});
      assert (r + [m]) + DropOrder(times, rest - {m}) == r + ([m] + DropOrder(times, rest - {m}));
      r := r + [m];
      rest := rest - {m};
    }
  }

  /**
   * The deletion loop of the drop: each slot in turn is deleted and its
   * keyframe kept; the first missing sequence or keyframe stops the loop
   * with the deletions made so far.
   */
  function TakeSlots(animation: Animation, slots: seq<KeyframeSlot>): (r: (Animation, seq<Keyframe>, Option<DocumentError>))
    decreases |slots|
  {
    if slots == [] then (animation, [], None)
    else
      var (d, i) := slots[0];
      if d !in animation.sequences then (animation, [], Some(SequenceNotInAnimation(d)))
      else match DeleteKeyframe(animation.sequences[d], i)
        case Err(e) => (animation, [], Some(SheetFailure(e)))
        case Ok((s, k)) =>
          var rest := TakeSlots(animation.(sequences := animation.sequences[d := s]), slots[1..]);
          (rest.0, [k] + rest.1, rest.2)
  }

  /** Taking slots out deletes them exactly as deleting the selected keyframes does. */
  lemma {:induction false} TakeSlotsDeletes(animation: Animation, slots: seq<KeyframeSlot>)
    ensures TakeSlots(animation, slots).0 == Timeline.DeleteSlots(animation, slots).0
    ensures TakeSlots(animation, slots).2 == Timeline.DeleteSlots(animation, slots).1
    decreases |slots|
  {
    if slots != [] {
      var (d, i) := slots[0];
      if d in animation.sequences && DeleteKeyframe(animation.sequences[d], i).Ok? {
        var s := DeleteKeyframe(animation.sequences[d], i).value.0;
        TakeSlotsDeletes(animation.(sequences := animation.sequences[d := s]), slots[1..]);
      }
    }
  }

  /** Taking slots out succeeds only when every slot named an existing keyframe. */
  /** Every slot names an existing keyframe of `animation`. */
  predicate SlotsExist(animation: Animation, slots: seq<KeyframeSlot>) {
    forall k :: 0 <= k < |slots| ==> Timeline.SlotExists(animation, slots[k])
  }

  lemma {:induction false} TakeSlotsExist(animation: Animation, slots: seq<KeyframeSlot>)
    requires TakeSlots(animation, slots).2.None?
    ensures SlotsExist(animation, slots)
    decreases |slots|
  {
    if slots != [] {
      var (d, i) := slots[0];
      var s := DeleteKeyframe(animation.sequences[d], i).value.0;
      var next := animation.(sequences := animation.sequences[d := s]);
      TakeSlotsExist(next, slots[1..]);
      forall k | 1 <= k < |slots|
        ensures Timeline.SlotExists(animation, slots[k])
      {
        assert Timeline.SlotExists(next, slots[1..][k - 1]);
      }
    }
  }

  /** Within each direction, the slots come largest index first. */
  predicate DescendingPerDirection(slots: seq<KeyframeSlot>) {
    forall i, j :: 0 <= i < j < |slots| && slots[i].0 == slots[j].0 ==> slots[j].1 < slots[i].1
  }

  lemma {:induction false} TimesNondecreasing(sequence: Sequence, i: nat, j: nat)
    requires i <= j < |sequence.keyframes|
    ensures KeyframeTimes(sequence)[i] <= KeyframeTimes(sequence)[j]
    decreases j - i
  {
    if i < j {
      TimeRangesContiguous(sequence);
      TimesNondecreasing(sequence, i + 1, j);
    }
  }

  /** Sorted by start time, existing keyframes of one direction come in index order. */
  lemma DropOrderPerDirection(animation: Animation, selected: set<KeyframeSlot>, slots: seq<KeyframeSlot>)
    requires DropDescending(StartTimes(animation, selected), slots)
    requires forall k :: 0 <= k < |slots| ==> slots[k] in selected && Timeline.SlotExists(animation, slots[k])
    ensures DescendingPerDirection(slots)
  {
    var times := StartTimes(animation, selected);
    forall i, j | 0 <= i < j < |slots| && slots[i].0 == slots[j].0
      ensures slots[j].1 < slots[i].1
    {
      assert DropBefore(times, slots[j], slots[i]);
      assert slots[i] in times && times[slots[i]] == KeyframeTimes(animation.sequences[slots[i].0])[slots[i].1];
      assert slots[j] in times && times[slots[j]] == KeyframeTimes(animation.sequences[slots[j].0])[slots[j].1];
      if slots[i].1 <= slots[j].1 {
        TimesNondecreasing(animation.sequences[slots[i].0], slots[i].1, slots[j].1);
      }
    }
  }

  /**
   * Deleting existing slots, each direction largest index first, succeeds
   * and takes out exactly the keyframes the slots named before anything
   * was deleted, in the order of the slots.
   */
  lemma {:induction false} TakenAreOriginals(animation: Animation, slots: seq<KeyframeSlot>)
    requires DescendingPerDirection(slots)
    requires forall k :: 0 <= k < |slots| ==> Timeline.SlotExists(animation, slots[k])
    ensures TakeSlots(animation, slots).2.None?
    ensures |TakeSlots(animation, slots).1| == |slots|
    ensures forall k :: 0 <= k < |slots| ==>
      (Timeline.SlotExists(animation, slots[k])
       && TakeSlots(animation, slots).1[k] == animation.sequences[slots[k].0].keyframes[slots[k].1])
    decreases |slots|
  {
    if slots != [] {
      var (d, i) := slots[0];
      var ks := animation.sequences[d].keyframes;
      var s := DeleteKeyframe(animation.sequences[d], i).value.0;
      var next := animation.(sequences := animation.sequences[d := s]);
      var tail := slots[1..];
      forall k | 0 <= k < |tail|
        ensures Timeline.SlotExists(next, tail[k])
        ensures next.sequences[tail[k].0].keyframes[tail[k].1] == animation.sequences[tail[k].0].keyframes[tail[k].1]
      {
        assert tail[k] == slots[k + 1];
      }
      assert DescendingPerDirection(tail) by {
        forall a, b | 0 <= a < b < |tail| && tail[a].0 == tail[b].0
          ensures tail[b].1 < tail[a].1
        {
          assert tail[a] == slots[a + 1] && tail[b] == slots[b + 1];
        }
      }
      TakenAreOriginals(next, tail);
      var rest := TakeSlots(next, tail);
      var taken := TakeSlots(animation, slots).1;
      assert taken == [ks[i]] + rest.1;
      forall k | 0 <= k < |slots|
        ensures taken[k] == animation.sequences[slots[k].0].keyframes[slots[k].1]
      {
        if k > 0 {
          assert slots[k] == tail[k - 1] && taken[k] == rest.1[k - 1];
        }
      }
    }
  }

  /** The slots of `slots` that lie in `direction` before `index`. */
  function SlotsBefore(slots: set<KeyframeSlot>, direction: Direction, index: nat): set<KeyframeSlot> {
    set s | s in slots && s.0 == direction && s.1 < index
  }

  /** How many of `slots` lie in `direction` before `index`. */
  function CountBefore(slots: set<KeyframeSlot>, direction: Direction, index: nat): (n: nat)
    ensures n <= index
  {
    CountBeforeBound(slots, direction, index);
    |SlotsBefore(slots, direction, index)|
  }

  lemma {:induction false} CountBeforeBound(slots: set<KeyframeSlot>, direction: Direction, index: nat)
    ensures |SlotsBefore(slots, direction, index)| <= index
  {
    if index > 0 {
      CountBeforeBound(slots, direction, index - 1);
      var below := SlotsBefore(slots, direction, index - 1);
      var upTo := SlotsBefore(slots, direction, index);
      var bound := below + {(direction, index - 1)};
      assert upTo <= bound;
      SubsetNoLarger(upTo, bound);
    }
  }

  lemma SubsetNoLarger<T>(a: set<T>, b: set<T>)
    requires a <= b
    ensures |a| <= |b|
  {
    assert b == a + (b - a);
  }

  /** Where a drop at `index` of `direction` lands once the selected slots before it are gone. */
  function DropTarget(selected: set<KeyframeSlot>, direction: Direction, index: nat): nat {
    index - CountBefore(selected, direction, index)
  }

  /**
   * What dropping the selected keyframes at `index` of `direction` does:
   * they are deleted last in drop order first, then inserted as one block,
   * in drop order, where `index` falls once the deleted keyframes before it
   * are gone; while paused the clock moves to the block's start, failing
   * when the block is past the end; the block becomes the selection.
   * Errors keep what was done before them.
   */
  ghost function KeyframeDrop(sheet: Sheet, view: View, playing: bool, direction: Direction, index: nat): (r: Outcome)
    ensures WorkbenchAnimation(sheet, view).Err? ==> r == Outcome(sheet, view, Err(WorkbenchAnimation(sheet, view).error))
    ensures r.result.Err? ==> r.view == view
  {
    var w := WorkbenchAnimation(sheet, view);
    if w.Err? then Outcome(sheet, view, Err(w.error))
    else
      var selected := Timeline.SelectedSlots(view);
      KeyframeMove(sheet, view, playing, w.value.0, w.value.1, DropOrder(StartTimes(w.value.1, selected), selected),
                   direction, DropTarget(selected, direction, index))
  }

  /**
   * A keyframe drop once the workbench animation `name` is found and the
   * dragged `slots` are sorted: take them out, then land them at `at`.
   */
  function KeyframeMove(sheet: Sheet, view: View, playing: bool, name: string, animation: Animation,
                        slots: seq<KeyframeSlot>, direction: Direction, at: nat): (r: Outcome)
    ensures r.result.Err? ==> r.view == view
  {
    var t := TakeSlots(animation, slots);
    if t.2.Some? then Outcome(sheet.(animations := sheet.animations[name := t.0]), view, Err(t.2.value))
    else Landing(sheet, view, playing, name, t.0, t.1, direction, at)
  }

  /**
   * The second half of a keyframe drop, once `taken` is out of `after`:
   * insert them back to front at `at` of `direction`, move the clock while
   * paused, and select the block.
   */
  function Landing(sheet: Sheet, view: View, playing: bool, name: string, after: Animation, taken: seq<Keyframe>,
                   direction: Direction, at: nat): (r: Outcome)
    ensures r.result.Err? ==> r.view == view
    ensures direction !in after.sequences ==> r.result == Err(SequenceNotInAnimation(direction))
    ensures r.result.Ok? ==> r.view.timelineClock == view.timelineClock || !playing
  {
    var deleted := sheet.(animations := sheet.animations[name := after]);
    if direction !in after.sequences then Outcome(deleted, view, Err(SequenceNotInAnimation(direction)))
    else match InsertedBlock(after.sequences[direction], Reversed(taken), at)
      case Err(e) => Outcome(deleted, view, Err(SheetFailure(e)))
      case Ok(s) => Settled(sheet, view, playing, name, after.(sequences := after.sequences[direction := s]), direction, at, |taken|)
  }

  /**
   * The end of a landing, once `moved` holds the block of `n` keyframes at
   * `at` of `direction`: while paused the clock moves to the block's start,
   * which fails when `at` is past the end; the block becomes the selection.
   */
  function Settled(sheet: Sheet, view: View, playing: bool, name: string, moved: Animation, direction: Direction,
                   at: nat, n: nat): (r: Outcome)
    requires direction in moved.sequences
    ensures r.sheet == sheet.(animations := sheet.animations[name := moved])
    ensures r.result.Err? <==> !playing && at >= |moved.sequences[direction].keyframes|
    ensures r.result.Err? ==> r.view == view && r.result.error == NoKeyframeAtIndex(at)
  {
    var s := moved.sequences[direction];
    var movedSheet := sheet.(animations := sheet.animations[name := moved]);
    if !playing && at >= |s.keyframes| then Outcome(movedSheet, view, Err(NoKeyframeAtIndex(at)))
    else
      var clock := if playing then view.timelineClock else KeyframeTimes(s)[at];
      Outcome(movedSheet, LandedView(view, clock, name, direction, at, n), Ok(()))
  }

  /** The deletion loop of the drop. */
  method TakeEach(animation: Animation, slots: seq<KeyframeSlot>) returns (after: Animation, taken: seq<Keyframe>, failure: Option<DocumentError>)
    ensures (after, taken, failure) == TakeSlots(animation, slots)
  {
    after := animation;
    taken := [];
    var k := 0;
    assert slots[k..] == slots;
    assert [] + TakeSlots(animation, slots).1 == TakeSlots(animation, slots).1;
    while k < |slots|
      invariant 0 <= k <= |slots|
      invariant var t := TakeSlots(after, slots[k..]);
        TakeSlots(animation, slots) == (t.0, taken + t.1, t.2)
    {
      assert slots[k..][1..] == slots[k + 1..];
      var (d, i) := slots[k];
      assert taken + [] == taken;
      if d !in after.sequences {
        return after, taken, Some(SequenceNotInAnimation(d));
      }
      var deleted := DeleteKeyframe(after.sequences[d], i);
      if deleted.Err? {
        return after, taken, Some(SheetFailure(deleted.error));
      }
      after := after.(sequences := after.sequences[d := deleted.value.0]);
      ghost var rest := TakeSlots(after, slots[k + 1..]);
      assert taken + ([deleted.value.1] + rest.1) == (taken + [deleted.value.1]) + rest.1;
      taken := taken + [deleted.value.1];
      k := k + 1;
    }
    assert slots[k..] == [] && taken + [] == taken;
    failure := None;
  }

  /** `Document::drop_keyframe_on_timeline`; the session ends on success. */
  method DropKeyframeOnTimeline(doc: Document, direction: Direction, index: nat) returns (r: Result<(), DocumentError>)
    modifies doc
    ensures Outcome(doc.sheet, doc.view, r)
            == KeyframeDrop(old(doc.sheet), old(doc.view), old(doc.persistent.timelineIsPlaying), direction, index)
    ensures doc.transient == if r.Ok? then old(doc.transient).(keyframeDragAndDrop := None) else old(doc.transient)
    ensures doc.persistent == old(doc.persistent) && doc.KeepsHistory()
  {
    var outcome := PlanKeyframeDrop(doc.sheet, doc.view, doc.persistent.timelineIsPlaying, direction, index);
    doc.sheet, doc.view, r := outcome.sheet, outcome.view, outcome.result;
    if r.Ok? {
      doc.transient := doc.transient.(keyframeDragAndDrop := None);
    }
  }

  /** The work of `drop_keyframe_on_timeline`, on the sheet and view as values. */
  method PlanKeyframeDrop(sheet: Sheet, view: View, playing: bool, direction: Direction, index: nat) returns (o: Outcome)
    ensures o == KeyframeDrop(sheet, view, playing, direction, index)
  {
    var workbench := WorkbenchAnimation(sheet, view);
    if workbench.Err? {
      return Outcome(sheet, view, Err(workbench.error));
    }
    var selected := Timeline.SelectedSlots(view);
    var slots := SortForDrop(StartTimes(workbench.value.1, selected), selected);
    o := MoveKeyframes(sheet, view, playing, workbench.value.0, workbench.value.1, slots, direction,
                       DropTarget(selected, direction, index));
  }

  /** Takes the sorted `slots` out of `animation`, then lands them at `at`. */
  method MoveKeyframes(sheet: Sheet, view: View, playing: bool, name: string, animation: Animation,
                       slots: seq<KeyframeSlot>, direction: Direction, at: nat) returns (o: Outcome)
    ensures o == KeyframeMove(sheet, view, playing, name, animation, slots, direction, at)
  {
    var after, taken, failure := TakeEach(animation, slots);
    if failure.Some? {
      return Outcome(sheet.(animations := sheet.animations[name := after]), view, Err(failure.value));
    }
    o := Land(sheet, view, playing, name, after, taken, direction, at);
  }

  /** Inserts the taken keyframes, one at a time, at `at` of `direction`. */
  method Land(sheet: Sheet, view: View, playing: bool, name: string, after: Animation, taken: seq<Keyframe>,
              direction: Direction, at: nat) returns (o: Outcome)
    ensures o == Landing(sheet, view, playing, name, after, taken, direction, at)
  {
    if direction !in after.sequences {
      return Outcome(sheet.(animations := sheet.animations[name := after]), view, Err(SequenceNotInAnimation(direction)));
    }
    var inserted := InsertEach(after.sequences[direction], taken, at);
    if inserted.Err? {
      return Outcome(sheet.(animations := sheet.animations[name := after]), view, Err(SheetFailure(inserted.error)));
    }
    o := Settled(sheet, view, playing, name, after.(sequences := after.sequences[direction := inserted.value]),
                 direction, at, |taken|);
  }

  /** The keyframes the slots name, in the same order. */
  function SlotKeyframes(animation: Animation, slots: seq<KeyframeSlot>): (r: seq<Keyframe>)
    requires SlotsExist(animation, slots)
    ensures |r| == |slots|
  {
    seq(|slots|, (k: int) requires 0 <= k < |slots| =>
      assert Timeline.SlotExists(animation, slots[k]);
      animation.sequences[slots[k].0].keyframes[slots[k].1])
  }

  /**
   * What a successful keyframe drop does, once `KeyframeDrop` has found the
   * workbench animation and sorted the selection into drop order: the
   * original keyframes of the selected slots, without any change to them,
   * lie as one block in drop order (earliest start first) at `at`, and
   * exactly that block, one keyframe per selected slot, is selected.
   */
  lemma KeyframeMoveLandsBlock(sheet: Sheet, view: View, playing: bool, name: string, animation: Animation,
                               selected: set<KeyframeSlot>, slots: seq<KeyframeSlot>, direction: Direction, at: nat)
    requires slots == DropOrder(StartTimes(animation, selected), selected)
    ensures var moved := KeyframeMove(sheet, view, playing, name, animation, slots, direction, at);
      moved.result.Ok? ==>
        && SlotsExist(animation, slots)
        && LandsBlock(moved, name, direction, at, Reversed(SlotKeyframes(animation, slots)))
        && SelectsBlock(moved, name, direction, at, |selected|)
  {
    if KeyframeMove(sheet, view, playing, name, animation, slots, direction, at).result.Ok? {
      KeyframeMovePlacesBlock(sheet, view, playing, name, animation, selected, slots, direction, at);
      KeyframeMoveSelectsBlock(sheet, view, playing, name, animation, slots, direction, at);
      DropOrderLength(StartTimes(animation, selected), selected);
    }
  }

  /** A successful move of slots sorted in drop order places their original keyframes as one block. */
  lemma KeyframeMovePlacesBlock(sheet: Sheet, view: View, playing: bool, name: string, animation: Animation,
                                selected: set<KeyframeSlot>, slots: seq<KeyframeSlot>, direction: Direction, at: nat)
    requires KeyframeMove(sheet, view, playing, name, animation, slots, direction, at).result.Ok?
    requires slots == DropOrder(StartTimes(animation, selected), selected)
    ensures SlotsExist(animation, slots)
    ensures LandsBlock(KeyframeMove(sheet, view, playing, name, animation, slots, direction, at), name, direction, at,
                       Reversed(SlotKeyframes(animation, slots)))
  {
    var t := TakeSlots(animation, slots);
    TakeSlotsExist(animation, slots);
    DropOrderTakesOriginals(animation, selected, slots);
    LandingPlacesBlock(sheet, view, playing, name, t.0, t.1, direction, at);
  }

  /** Taking existing slots out in drop order takes exactly the keyframes they named. */
  lemma DropOrderTakesOriginals(animation: Animation, selected: set<KeyframeSlot>, slots: seq<KeyframeSlot>)
    requires slots == DropOrder(StartTimes(animation, selected), selected)
    requires SlotsExist(animation, slots)
    ensures TakeSlots(animation, slots).1 == SlotKeyframes(animation, slots)
  {
    DropOrderSorts(StartTimes(animation, selected), selected);
    DropOrderPerDirection(animation, selected, slots);
    TakenAreOriginals(animation, slots);
  }

  /** A successful move selects one keyframe per slot, as a block at `at`. */
  lemma KeyframeMoveSelectsBlock(sheet: Sheet, view: View, playing: bool, name: string, animation: Animation,
                                 slots: seq<KeyframeSlot>, direction: Direction, at: nat)
    requires KeyframeMove(sheet, view, playing, name, animation, slots, direction, at).result.Ok?
    ensures SelectsBlock(KeyframeMove(sheet, view, playing, name, animation, slots, direction, at), name, direction, at,
                         |slots|)
  {
    var t := TakeSlots(animation, slots);
    TakeSlotsLength(animation, slots);
    LandingSelectsBlock(sheet, view, playing, name, t.0, t.1, direction, at);
  }

  /** Where a landing puts the block. */
  lemma LandingPlacesBlock(sheet: Sheet, view: View, playing: bool, name: string, after: Animation, taken: seq<Keyframe>,
                           direction: Direction, at: nat)
    requires Landing(sheet, view, playing, name, after, taken, direction, at).result.Ok?
    ensures LandsBlock(Landing(sheet, view, playing, name, after, taken, direction, at), name, direction, at,
                       Reversed(taken))
  {
    var block := Reversed(taken);
    var s := InsertedBlock(after.sequences[direction], block, at).value;
    if taken != [] {
      assert s.keyframes[at..at + |taken|] == block;
    }
  }

  /** What a landing selects: the block, one keyframe per taken keyframe. */
  lemma LandingSelectsBlock(sheet: Sheet, view: View, playing: bool, name: string, after: Animation, taken: seq<Keyframe>,
                            direction: Direction, at: nat)
    requires Landing(sheet, view, playing, name, after, taken, direction, at).result.Ok?
    ensures SelectsBlock(Landing(sheet, view, playing, name, after, taken, direction, at), name, direction, at,
                         |taken|)
  {
    var s := InsertedBlock(after.sequences[direction], Reversed(taken), at).value;
    var moved := after.(sequences := after.sequences[direction := s]);
    var clock := if playing then view.timelineClock else KeyframeTimes(s)[at];
    assert Landing(sheet, view, playing, name, after, taken, direction, at).view
        == LandedView(view, clock, name, direction, at, |taken|);
  }

  /** Taking slots out, when it succeeds, takes one keyframe per slot. */
  lemma {:induction false} TakeSlotsLength(animation: Animation, slots: seq<KeyframeSlot>)
    requires TakeSlots(animation, slots).2.None?
    ensures |TakeSlots(animation, slots).1| == |slots|
    decreases |slots|
  {
    if slots != [] {
      var (d, i) := slots[0];
      var s := DeleteKeyframe(animation.sequences[d], i).value.0;
      TakeSlotsLength(animation.(sequences := animation.sequences[d := s]), slots[1..]);
    }
  }
}
