/**
 * Creating, editing, renaming and deleting the animations and frames of a
 * document.
 */
module Content {
  import opened Wrappers
  import Names
  import opened Sheets
  import opened Selections
  import opened Views
  import opened Documents

  // ----- Deleting frames -----

  /** The frames whose source is not in `paths`, in their order, as `retain` leaves them. */
  function FramesOutside(frames: seq<Frame>, paths: set<Path>): seq<Frame> {
    if frames == [] then []
    else (if frames[0].source in paths then [] else [frames[0]]) + FramesOutside(frames[1..], paths)
  }

  /** The keyframes showing none of `paths`, in their order, as `retain` leaves them. */
  function KeyframesOutside(keyframes: seq<Keyframe>, paths: set<Path>): seq<Keyframe> {
    if keyframes == [] then []
    else (if keyframes[0].frame in paths then [] else [keyframes[0]]) + KeyframesOutside(keyframes[1..], paths)
  }

  /**
   * `after` is `before` with every frame whose source is in `paths` gone, and
   * with every keyframe showing one of them gone from every sequence, the
   * others keeping their order; the animations, their directions and their
   * looping flags are the same.
   */
  ghost predicate FramesRemoved(before: Sheet, after: Sheet, paths: set<Path>) {
    && after.frames == FramesOutside(before.frames, paths)
    && after.exportSettings == before.exportSettings
    && after.animations.Keys == before.animations.Keys
    && forall n :: n in after.animations ==> KeyframesRemoved(before.animations[n], after.animations[n], paths)
  }

  /** `after` is `before` with every keyframe showing one of `paths` gone from every sequence. */
  ghost predicate KeyframesRemoved(before: Animation, after: Animation, paths: set<Path>) {
    && after.isLooping == before.isLooping
    && after.sequences.Keys == before.sequences.Keys
    && forall d :: d in after.sequences ==>
         after.sequences[d].keyframes == KeyframesOutside(before.sequences[d].keyframes, paths)
  }

  /** Filtering by a set of paths keeps exactly the frames with another source. */
  lemma {:induction false} FramesOutsideMembers(frames: seq<Frame>, paths: set<Path>)
    ensures forall f :: f in FramesOutside(frames, paths) <==> f in frames && f.source !in paths
  {
    if frames != [] {
      FramesOutsideMembers(frames[1..], paths);
      assert forall f :: f in frames <==> f == frames[0] || f in frames[1..];
    }
  }

  /** Filtering by a set of paths keeps exactly the keyframes showing another frame. */
  lemma {:induction false} KeyframesOutsideMembers(keyframes: seq<Keyframe>, paths: set<Path>)
    ensures forall k :: k in KeyframesOutside(keyframes, paths) <==> k in keyframes && k.frame !in paths
  {
    if keyframes != [] {
      KeyframesOutsideMembers(keyframes[1..], paths);
      assert forall k :: k in keyframes <==> k == keyframes[0] || k in keyframes[1..];
    }
  }

  /** Filtering by no path keeps every frame. */
  lemma {:induction false} FramesOutsideNothing(frames: seq<Frame>)
    ensures FramesOutside(frames, {}) == frames
  {
    if frames != [] {
      FramesOutsideNothing(frames[1..]);
      assert frames == [frames[0]] + frames[1..];
    }
  }

  /** Filtering by no path keeps every keyframe. */
  lemma {:induction false} KeyframesOutsideNothing(keyframes: seq<Keyframe>)
    ensures KeyframesOutside(keyframes, {}) == keyframes
  {
    if keyframes != [] {
      KeyframesOutsideNothing(keyframes[1..]);
      assert keyframes == [keyframes[0]] + keyframes[1..];
    }
  }

  /** Deleting one more frame after a set of them is filtering by the larger set. */
  lemma {:induction false} FramesOutsideStep(frames: seq<Frame>, paths: set<Path>, path: Path)
    ensures FramesKept(FramesOutside(frames, paths), path) == FramesOutside(frames, paths + {path})
  {
    if frames != [] {
      FramesOutsideStep(frames[1..], paths, path);
      var head := if frames[0].source in paths then [] else [frames[0]];
      KeptOfConcatFrames(head, FramesOutside(frames[1..], paths), path);
    }
  }

  /** Keeping frames distributes over concatenation. */
  lemma {:induction false} KeptOfConcatFrames(a: seq<Frame>, b: seq<Frame>, path: Path)
    ensures FramesKept(a + b, path) == FramesKept(a, path) + FramesKept(b, path)
  {
    if a == [] {
      assert a + b == b;
    } else {
      assert (a + b)[1..] == a[1..] + b;
      KeptOfConcatFrames(a[1..], b, path);
    }
  }

  /** Keeping keyframes distributes over concatenation. */
  lemma {:induction false} KeptOfConcatKeyframes(a: seq<Keyframe>, b: seq<Keyframe>, path: Path)
    ensures KeyframesKept(a + b, path) == KeyframesKept(a, path) + KeyframesKept(b, path)
  {
    if a == [] {
      assert a + b == b;
    } else {
      assert (a + b)[1..] == a[1..] + b;
      KeptOfConcatKeyframes(a[1..], b, path);
    }
  }

  /** Deleting the keyframes of one more frame after a set of them is filtering by the larger set. */
  lemma {:induction false} KeyframesOutsideStep(keyframes: seq<Keyframe>, paths: set<Path>, path: Path)
    ensures KeyframesKept(KeyframesOutside(keyframes, paths), path) == KeyframesOutside(keyframes, paths + {path})
  {
    if keyframes != [] {
      KeyframesOutsideStep(keyframes[1..], paths, path);
      var head := if keyframes[0].frame in paths then [] else [keyframes[0]];
      KeptOfConcatKeyframes(head, KeyframesOutside(keyframes[1..], paths), path);
    }
  }

  /** Deleting no frame removes nothing. */
  lemma FramesRemovedNothing(sheet: Sheet)
    ensures FramesRemoved(sheet, sheet, {})
  {
    FramesOutsideNothing(sheet.frames);
    forall n, d | n in sheet.animations && d in sheet.animations[n].sequences
      ensures KeyframesOutside(sheet.animations[n].sequences[d].keyframes, {}) == sheet.animations[n].sequences[d].keyframes
    {
      KeyframesOutsideNothing(sheet.animations[n].sequences[d].keyframes);
    }
  }

  /**
   * Whatever has been deleted, the survivors are exactly the frames and
   * keyframes showing none of the deleted paths.
   */
  lemma FramesRemovedMembers(before: Sheet, after: Sheet, paths: set<Path>)
    requires FramesRemoved(before, after, paths)
    ensures forall f :: f in after.frames <==> f in before.frames && f.source !in paths
    ensures forall n, d, k :: n in after.animations && d in after.animations[n].sequences ==>
      (k in after.animations[n].sequences[d].keyframes <==>
         k in before.animations[n].sequences[d].keyframes && k.frame !in paths)
  {
    FramesOutsideMembers(before.frames, paths);
    forall n, d | n in after.animations && d in after.animations[n].sequences
      ensures forall k :: k in after.animations[n].sequences[d].keyframes <==>
         k in before.animations[n].sequences[d].keyframes && k.frame !in paths
    {
      KeyframesOutsideMembers(before.animations[n].sequences[d].keyframes, paths);
    }
  }

  /** Deleting one more frame extends what has been removed by that frame. */
  lemma FramesRemovedStep(before: Sheet, after: Sheet, paths: set<Path>, path: Path)
    requires FramesRemoved(before, after, paths)
    ensures FramesRemoved(before, DeleteFrame(after, path), paths + {path})
  {
    var next := DeleteFrame(after, path);
    FramesOutsideStep(before.frames, paths, path);
    forall n, d | n in next.animations && d in next.animations[n].sequences
      ensures next.animations[n].sequences[d].keyframes
           == KeyframesOutside(before.animations[n].sequences[d].keyframes, paths + {path})
    {
      KeyframesOutsideStep(before.animations[n].sequences[d].keyframes, paths, path);
    }
  }

  /** An animation with every keyframe showing one of `paths` gone from each sequence. */
  function AnimationWithoutFrames(animation: Animation, paths: set<Path>): Animation {
    Animation(map d | d in animation.sequences :: Sequence(KeyframesOutside(animation.sequences[d].keyframes, paths)),
              animation.isLooping)
  }

  /** The sheet left once every frame in `paths` has been deleted, whatever the order of deletion. */
  function FramesDeleted(sheet: Sheet, paths: set<Path>): Sheet {
    Sheet(FramesOutside(sheet.frames, paths),
          map n | n in sheet.animations :: AnimationWithoutFrames(sheet.animations[n], paths),
          sheet.exportSettings)
  }

  /**
   * `FramesRemoved` pins the sheet down: it holds of `FramesDeleted` and of
   * nothing else.
   */
  lemma FramesRemovedIsFramesDeleted(before: Sheet, after: Sheet, paths: set<Path>)
    ensures FramesRemoved(before, after, paths) <==> after == FramesDeleted(before, paths)
  {
    var d := FramesDeleted(before, paths);
    if FramesRemoved(before, after, paths) {
      forall n | n in after.animations ensures after.animations[n] == d.animations[n] {
        var a, b := after.animations[n], d.animations[n];
        forall x | x in a.sequences ensures a.sequences[x] == b.sequences[x] {
          assert a.sequences[x].keyframes == b.sequences[x].keyframes;
        }
        assert a.sequences == b.sequences;
      }
      assert after.animations == d.animations;
    }
  }

  /** `Document::delete_selected_frames`: every selected frame is deleted from the sheet. */
  method DeleteSelectedFrames(doc: Document)
    modifies doc
    ensures FramesRemoved(old(doc.sheet), doc.sheet, old(doc.view.selection.frames.selected))
    ensures doc.view == old(doc.view) && doc.transient == old(doc.transient)
    ensures doc.persistent == old(doc.persistent) && doc.KeepsHistory()
  {
    var selected := doc.view.selection.frames.selected;
    var remaining := selected;
    ghost var deleted: set<Path> := {};
    FramesRemovedNothing(doc.sheet);
    while remaining != {}
      invariant FramesRemoved(old(doc.sheet), doc.sheet, deleted)
      invariant deleted + remaining == selected && deleted !! remaining
      invariant doc.view == old(doc.view) && doc.transient == old(doc.transient)
      invariant doc.persistent == old(doc.persistent) && doc.KeepsHistory()
      decreases remaining
    {
      var path :| path in remaining;
      FramesRemovedStep(old(doc.sheet), doc.sheet, deleted, path);
      doc.sheet := DeleteFrame(doc.sheet, path);
      deleted := deleted + {path};
      remaining := remaining - {path};
    }
  }

  // ----- Editing an animation -----

  /**
   * The view `edit_animation` leaves: the named animation is current, the
   * workbench is centred, the clock is at 0, a direction that does not exist
   * in the animation falls back to its first one, and the keyframe under the
   * clock becomes the selection when there is one.
   */
  function EditedView(sheet: Sheet, view: View, name: string): View {
    var v := SkipToTimelineStart(CenterWorkbench(view.(currentAnimation := Some(name))));
    if name !in sheet.animations then v
    else
      var w := if WorkbenchSequence(sheet, v).Err? then v.(currentSequence := FirstDirection(sheet.animations[name])) else v;
      TrySelectCurrentKeyframe(sheet, w)
  }

  /**
   * After editing an existing animation it is the workbench animation, the
   * workbench is centred at clock 0, and a sequence is current exactly when
   * the animation has one: the direction that was current if the animation
   * has it, else the animation's first.
   */
  lemma EditedViewSpec(sheet: Sheet, view: View, name: string)
    requires name in sheet.animations
    ensures var r := EditedView(sheet, view, name);
      && WorkbenchAnimation(sheet, r) == Ok((name, sheet.animations[name]))
      && r.timelineClock == 0 && r.workbenchOffset == Vec2(0, 0)
      && (WorkbenchSequence(sheet, r).Ok? <==> sheet.animations[name].sequences != map[])
      && (view.currentSequence.Some? && view.currentSequence.value in sheet.animations[name].sequences ==>
            r.currentSequence == view.currentSequence)
      && (view.currentSequence.None? || view.currentSequence.value !in sheet.animations[name].sequences ==>
            r.currentSequence == FirstDirection(sheet.animations[name]))
  {
    var v := SkipToTimelineStart(CenterWorkbench(view.(currentAnimation := Some(name))));
    var w := if WorkbenchSequence(sheet, v).Err? then v.(currentSequence := FirstDirection(sheet.animations[name])) else v;
    var r := EditedView(sheet, view, name);
    assert r == TrySelectCurrentKeyframe(sheet, w);
    ResolutionDependsOnCurrents(sheet, w, r);
  }

  /** `Document::edit_animation`. Fails, with the view already changed, when the name is not an animation. */
  method EditAnimation(doc: Document, name: string) returns (r: Result<(), DocumentError>)
    modifies doc
    ensures name in doc.sheet.animations ==> r == Ok(())
    ensures name !in doc.sheet.animations ==> r == Err(AnimationNotInDocument(name))
    ensures doc.view == EditedView(old(doc.sheet), old(doc.view), name)
    ensures doc.persistent == old(doc.persistent).(timelineIsPlaying := false)
    ensures doc.sheet == old(doc.sheet) && doc.transient == old(doc.transient) && doc.KeepsHistory()
  {
    doc.view := SkipToTimelineStart(CenterWorkbench(doc.view.(currentAnimation := Some(name))));
    doc.persistent := doc.persistent.(timelineIsPlaying := false);
    var animation := WorkbenchAnimation(doc.sheet, doc.view);
    if animation.Err? {
      return Err(animation.error);
    }
    if WorkbenchSequence(doc.sheet, doc.view).Err? {
      doc.view := doc.view.(currentSequence := FirstDirection(animation.value.1));
    }
    doc.view := TrySelectCurrentKeyframe(doc.sheet, doc.view);
    r := Ok(());
  }

  /** The animation `create_animation` adds: an empty, non-looping animation with the four-direction preset. */
  const NewAnimation: Animation := ApplyDirectionPreset(EmptyAnimation, FourDirections)

  /**
   * `Document::create_animation`: add a four-direction animation under a
   * fresh name, select only it and edit it.
   */
  method CreateAnimation(doc: Document) returns (name: string, r: Result<(), DocumentError>)
    modifies doc
    ensures r == Ok(())
    ensures name !in old(doc.sheet.animations)
    ensures exists n :: 1 <= n && name == Names.NumberedName(NewAnimationBaseName, n)
                        && forall j :: 1 <= j < n ==> Names.NumberedName(NewAnimationBaseName, j) in old(doc.sheet.animations)
    ensures doc.sheet == old(doc.sheet).(animations := old(doc.sheet.animations)[name := NewAnimation])
    ensures doc.view == EditedView(doc.sheet, SelectAnimationsOnly(old(doc.view), [name]), name)
    ensures doc.persistent == old(doc.persistent).(timelineIsPlaying := false)
    ensures doc.transient == old(doc.transient) && doc.KeepsHistory()
  {
    var sheet;
    name, sheet := Sheets.CreateAnimation(doc.sheet);
    doc.sheet := sheet.(animations := sheet.animations[name := ApplyDirectionPreset(sheet.animations[name], FourDirections)]);
    doc.view := SelectAnimationsOnly(doc.view, [name]);
    assert name in doc.sheet.animations;
    r := EditAnimation(doc, name);
  }

  /** The new animation has the four empty sequences east, north, west and south, east first, and does not loop. */
  lemma NewAnimationShape()
    ensures NewAnimation.sequences.Keys == {East, North, West, South}
    ensures forall d :: d in NewAnimation.sequences ==> NewAnimation.sequences[d] == Sequence([])
    ensures FirstDirection(NewAnimation) == Some(East)
    ensures !NewAnimation.isLooping
  {
    var first := FirstDirection(NewAnimation);
    assert East in NewAnimation.sequences;
    assert DirectionRank(first.value) == 0;
  }

  /**
   * A created animation is edited in one of its four empty sequences (the
   * direction that was current if it is one of the four, else east), with
   * the clock at 0 and the animation as the only selected item.
   */
  lemma CreatedAnimationIsEdited(sheet: Sheet, view: View, name: string)
    requires name in sheet.animations && sheet.animations[name] == NewAnimation
    ensures var r := EditedView(sheet, SelectAnimationsOnly(view, [name]), name);
      && WorkbenchSequence(sheet, r).Ok? && WorkbenchSequence(sheet, r).value.1 == Sequence([])
      && (view.currentSequence.None? || view.currentSequence.value !in {East, North, West, South} ==>
            r.currentSequence == Some(East))
      && r.selection == EmptySelectionState.(animations := Only([name]))
      && r.timelineClock == 0
  {
    NewAnimationShape();
    var view' := SelectAnimationsOnly(view, [name]);
    EditedViewSpec(sheet, view', name);
    var r := EditedView(sheet, view', name);
    var v := SkipToTimelineStart(CenterWorkbench(view'.(currentAnimation := Some(name))));
    var w := if WorkbenchSequence(sheet, v).Err? then v.(currentSequence := FirstDirection(NewAnimation)) else v;
    assert WorkbenchSequence(sheet, w).Ok?;
    assert WorkbenchKeyframe(sheet, w).Err?;
    assert r == w;
  }

  // ----- Renaming and deleting animations -----

  /** The view after a rename: only the new name is selected, and the current animation follows the rename. */
  function RenamedView(view: View, oldName: string, newName: string): (r: View)
    ensures r.selection == EmptySelectionState.(animations := Only([newName]))
    ensures view.currentAnimation == Some(oldName) ==> r.currentAnimation == Some(newName)
    ensures view.currentAnimation != Some(oldName) ==> r.currentAnimation == view.currentAnimation
    ensures r == view.(selection := r.selection, currentAnimation := r.currentAnimation)
  {
    var v := SelectAnimationsOnly(view, [newName]);
    if view.currentAnimation == Some(oldName) then v.(currentAnimation := Some(newName)) else v
  }

  /**
   * `Document::rename_animation`: a sheet error aborts before anything
   * changes; otherwise the sheet renames and the view follows.
   */
  method RenameAnimation(doc: Document, oldName: string, newName: string) returns (r: Result<(), DocumentError>)
    modifies doc
    ensures var s := Sheets.RenameAnimation(old(doc.sheet), oldName, newName);
      && (s.Err? ==> r == Err(SheetFailure(s.error)) && doc.sheet == old(doc.sheet) && doc.view == old(doc.view))
      && (s.Ok? ==> r == Ok(()) && doc.sheet == s.value && doc.view == RenamedView(old(doc.view), oldName, newName))
    ensures doc.transient == old(doc.transient) && doc.persistent == old(doc.persistent) && doc.KeepsHistory()
  {
    var s := Sheets.RenameAnimation(doc.sheet, oldName, newName);
    if s.Err? {
      return Err(SheetFailure(s.error));
    }
    doc.sheet := s.value;
    doc.view := RenamedView(doc.view, oldName, newName);
    r := Ok(());
  }

  /**
   * Renaming never changes what the workbench shows: the animation being
   * edited, whatever it is now called, and its current sequence.
   */
  lemma RenameKeepsWorkbench(sheet: Sheet, view: View, oldName: string, newName: string)
    requires Sheets.RenameAnimation(sheet, oldName, newName).Ok?
    requires WorkbenchAnimation(sheet, view).Ok?
    ensures var s := Sheets.RenameAnimation(sheet, oldName, newName).value;
      var v := RenamedView(view, oldName, newName);
      && WorkbenchAnimation(s, v).Ok?
      && WorkbenchAnimation(s, v).value.1 == WorkbenchAnimation(sheet, view).value.1
      && WorkbenchSequence(s, v) == WorkbenchSequence(sheet, view)
  {
    var s := Sheets.RenameAnimation(sheet, oldName, newName).value;
    var v := RenamedView(view, oldName, newName);
    if oldName != newName && view.currentAnimation.Some? && view.currentAnimation.value != oldName {
      var c := view.currentAnimation.value;
      assert c in sheet.animations && c != newName;
      assert c in s.animations && s.animations[c] == sheet.animations[c];
    }
  }

  /** `Document::delete_animation`. */
  method DeleteAnimation(doc: Document, name: string)
    modifies doc
    ensures doc.sheet == Sheets.DeleteAnimation(old(doc.sheet), name)
    ensures doc.view == old(doc.view) && doc.transient == old(doc.transient)
    ensures doc.persistent == old(doc.persistent) && doc.KeepsHistory()
  {
    doc.sheet := Sheets.DeleteAnimation(doc.sheet, name);
  }

  /** `Document::delete_selected_animations`: every selected animation is gone, the others untouched. */
  method DeleteSelectedAnimations(doc: Document)
    modifies doc
    ensures doc.sheet == old(doc.sheet).(animations := old(doc.sheet.animations) - old(doc.view.selection.animations.selected))
    ensures doc.view == old(doc.view) && doc.transient == old(doc.transient)
    ensures doc.persistent == old(doc.persistent) && doc.KeepsHistory()
  {
    var selected := doc.view.selection.animations.selected;
    var remaining := selected;
    while remaining != {}
      invariant remaining <= selected
      invariant doc.sheet == old(doc.sheet).(animations := old(doc.sheet.animations) - (selected - remaining))
      invariant doc.view == old(doc.view) && doc.transient == old(doc.transient)
      invariant doc.persistent == old(doc.persistent) && doc.KeepsHistory()
      decreases remaining
    {
      var name :| name in remaining;
      doc.sheet := Sheets.DeleteAnimation(doc.sheet, name);
      remaining := remaining - {name};
      assert doc.sheet.animations == old(doc.sheet.animations) - (selected - remaining);
    }
  }
}
