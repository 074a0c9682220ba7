/**
 * Relocating frames whose texture files have moved on disk. While the
 * relocation session is open the document collects a mapping from old to
 * new frame paths; relocating one frame also relocates, automatically, the
 * missing frames of the same directory whose file names exist in the new
 * directory. Ending the session rewrites the sheet through the mapping.
 *
 * Which files exist on disk is a parameter (`onDisk`); which frames are
 * missing is the document's `missingTextures` set.
 */
module Relocation {
  import opened Wrappers
  import opened Sheets
  import opened Paths
  import opened Documents

  /** `Document::relocate_frames_edit`: the mapping of the open session. */
  function RelocateFramesEdit(p: Persistent): (r: Result<map<Path, Path>, DocumentError>)
    ensures r.Err? <==> p.relocateFramesEdit.None?
    ensures r.Err? ==> r.error == NotRelocatingFrames
    ensures r.Ok? ==> p.relocateFramesEdit == Some(r.value)
  {
    match p.relocateFramesEdit
    case None => Err(NotRelocatingFrames)
    case Some(edit) => Ok(edit)
  }

  /** `Document::begin_relocate_frames`: open a session with an empty mapping. */
  method BeginRelocateFrames(doc: Document)
    modifies doc
    ensures doc.persistent == old(doc.persistent).(relocateFramesEdit := Some(map[]))
    ensures RelocateFramesEdit(doc.persistent) == Ok(map[])
    ensures doc.sheet == old(doc.sheet) && doc.view == old(doc.view)
    ensures doc.transient == old(doc.transient) && doc.KeepsHistory()
  {
    doc.persistent := doc.persistent.(relocateFramesEdit := Some(map[]));
  }

  /** `Document::cancel_relocate_frames`: drop the session and its mapping. */
  method CancelRelocateFrames(doc: Document)
    modifies doc
    ensures doc.persistent == old(doc.persistent).(relocateFramesEdit := None)
    ensures RelocateFramesEdit(doc.persistent) == Err(NotRelocatingFrames)
    ensures doc.sheet == old(doc.sheet) && doc.view == old(doc.view)
    ensures doc.transient == old(doc.transient) && doc.KeepsHistory()
  {
    doc.persistent := doc.persistent.(relocateFramesEdit := None);
  }

  // ----- Automatic relocations -----

  /**
   * A frame follows a relocation from `oldDirectory` to `newDirectory` when
   * it is missing on disk, not already mapped, sits directly in
   * `oldDirectory`, and a file of the same name exists in `newDirectory`.
   */
  predicate FollowsRelocation(source: Path, edit: map<Path, Path>, missing: set<Path>,
                              oldDirectory: Path, newDirectory: Path, onDisk: set<Path>) {
    && source in missing
    && source !in edit
    && Parent(source) == Some(oldDirectory)
    && FileName(source).Some?
    && Join(newDirectory, FileName(source).value) in onDisk
  }

  /** The automatic relocations found among `frames`: each following frame, to the same name in `newDirectory`. */
  function AutomaticRelocations(frames: seq<Frame>, edit: map<Path, Path>, missing: set<Path>,
                                oldDirectory: Path, newDirectory: Path, onDisk: set<Path>): (r: map<Path, Path>)
  {
    if frames == [] then map[]
    else
      var found := AutomaticRelocations(frames[..|frames| - 1], edit, missing, oldDirectory, newDirectory, onDisk);
      var source := frames[|frames| - 1].source;
      if FollowsRelocation(source, edit, missing, oldDirectory, newDirectory, onDisk)
      then found[source := Join(newDirectory, FileName(source).value)]
      else found
  }

  /**
   * The automatic relocations are exactly the frames that follow the
   * relocation, each sent to its own file name in the new directory.
   */
  lemma {:induction false} AutomaticRelocationsSpec(frames: seq<Frame>, edit: map<Path, Path>, missing: set<Path>,
                                                    oldDirectory: Path, newDirectory: Path, onDisk: set<Path>)
    ensures var r := AutomaticRelocations(frames, edit, missing, oldDirectory, newDirectory, onDisk);
      && (forall p :: p in r <==> p in Sources(frames) && FollowsRelocation(p, edit, missing, oldDirectory, newDirectory, onDisk))
      && (forall p :: p in r ==> FileName(p).Some? && r[p] == Join(newDirectory, FileName(p).value) && r[p] in onDisk)
  {
    if frames != [] {
      var prefix := frames[..|frames| - 1];
      AutomaticRelocationsSpec(prefix, edit, missing, oldDirectory, newDirectory, onDisk);
      assert Sources(frames) == Sources(prefix) + [frames[|frames| - 1].source];
    }
  }

  /**
   * The mapping after relocating `from` to `to`: that entry, plus the
   * automatic relocations when both paths have a parent directory.
   */
  function RelocatedEdit(edit: map<Path, Path>, frames: seq<Frame>, missing: set<Path>,
                         from: Path, to: Path, onDisk: set<Path>): (r: map<Path, Path>)
  {
    var manual := edit[from := to];
    if Parent(from).None? || Parent(to).None? then manual
    else manual + AutomaticRelocations(frames, manual, missing, Parent(from).value, Parent(to).value, onDisk)
  }

  /**
   * Relocating `from` to `to` maps `from` to `to`, keeps every earlier
   * entry, and adds only frames of the sheet that follow the relocation.
   */
  lemma RelocatedEditSpec(edit: map<Path, Path>, frames: seq<Frame>, missing: set<Path>,
                          from: Path, to: Path, onDisk: set<Path>)
    ensures var r := RelocatedEdit(edit, frames, missing, from, to, onDisk);
      && from in r && r[from] == to
      && (forall p :: p in edit && p != from ==> p in r && r[p] == edit[p])
      && (forall p :: p in r && p !in edit && p != from ==>
            && Parent(from).Some? && Parent(to).Some?
            && p in Sources(frames)
            && FollowsRelocation(p, edit[from := to], missing, Parent(from).value, Parent(to).value, onDisk)
            && r[p] == Join(Parent(to).value, FileName(p).value))
  {
    if Parent(from).Some? && Parent(to).Some? {
      AutomaticRelocationsSpec(frames, edit[from := to], missing, Parent(from).value, Parent(to).value, onDisk);
    }
  }

  /**
   * `Document::relocate_frame`: record `from -> to` in the open session,
   * then scan the sheet's frames for the ones that follow the move.
   */
  method RelocateFrame(doc: Document, from: Path, to: Path, onDisk: set<Path>) returns (r: Result<(), DocumentError>)
    modifies doc
    ensures old(doc.persistent.relocateFramesEdit).None? ==>
      r == Err(NotRelocatingFrames) && doc.persistent == old(doc.persistent)
    ensures old(doc.persistent.relocateFramesEdit).Some? ==>
      && r == Ok(())
      && doc.persistent == old(doc.persistent).(relocateFramesEdit := Some(RelocatedEdit(
           old(doc.persistent.relocateFramesEdit.value), old(doc.sheet.frames), old(doc.persistent.missingTextures),
           from, to, onDisk)))
    ensures doc.sheet == old(doc.sheet) && doc.view == old(doc.view)
    ensures doc.transient == old(doc.transient) && doc.KeepsHistory()
  {
    if doc.persistent.relocateFramesEdit.None? {
      return Err(NotRelocatingFrames);
    }
    var edit := doc.persistent.relocateFramesEdit.value[from := to];
    doc.persistent := doc.persistent.(relocateFramesEdit := Some(edit));
    var oldDirectory := Parent(from);
    if oldDirectory.None? {
      return Ok(());
    }
    var newDirectory := Parent(to);
    if newDirectory.None? {
      return Ok(());
    }
    var frames := doc.sheet.frames;
    var automatic: map<Path, Path> := map[];
    var i := 0;
    while i < |frames|
      invariant 0 <= i <= |frames|
      invariant automatic == AutomaticRelocations(frames[..i], edit, doc.persistent.missingTextures,
                                                  oldDirectory.value, newDirectory.value, onDisk)
    {
      var source := frames[i].source;
      assert frames[..i + 1][..i] == frames[..i];
      if source in doc.persistent.missingTextures && source !in edit && Parent(source) == oldDirectory {
        var fileName := FileName(source);
        if fileName.Some? {
          var candidate := Join(newDirectory.value, fileName.value);
          if candidate in onDisk {
            automatic := automatic[source := candidate];
          }
        }
      }
      i := i + 1;
    }
    assert frames[..i] == frames;
    doc.persistent := doc.persistent.(relocateFramesEdit := Some(edit + automatic));
    r := Ok(());
  }

  // ----- Applying the mapping -----

  /** Where `path` goes under `mapping`: its image when mapped, itself otherwise. */
  function Mapped(path: Path, mapping: map<Path, Path>): (r: Path)
    ensures path !in mapping ==> r == path
    ensures path in mapping ==> r == mapping[path]
  {
    if path in mapping then mapping[path] else path
  }

  function RelocatedFrames(frames: seq<Frame>, mapping: map<Path, Path>): (r: seq<Frame>)
    ensures |r| == |frames|
    ensures forall i :: 0 <= i < |r| ==> r[i] == Frame(Mapped(frames[i].source, mapping))
  {
    seq(|frames|, i requires 0 <= i < |frames| => Frame(Mapped(frames[i].source, mapping)))
  }

  function RelocatedKeyframes(keyframes: seq<Keyframe>, mapping: map<Path, Path>): (r: seq<Keyframe>)
    ensures |r| == |keyframes|
    ensures forall i :: 0 <= i < |r| ==> r[i] == keyframes[i].(frame := Mapped(keyframes[i].frame, mapping))
  {
    seq(|keyframes|, i requires 0 <= i < |keyframes| => keyframes[i].(frame := Mapped(keyframes[i].frame, mapping)))
  }

  function RelocatedAnimation(animation: Animation, mapping: map<Path, Path>): (r: Animation)
    ensures r.isLooping == animation.isLooping && r.sequences.Keys == animation.sequences.Keys
    ensures forall d :: d in r.sequences ==>
      r.sequences[d] == Sequence(RelocatedKeyframes(animation.sequences[d].keyframes, mapping))
  {
    animation.(sequences := map d | d in animation.sequences :: Sequence(RelocatedKeyframes(animation.sequences[d].keyframes, mapping)))
  }

  /**
   * The sheet with every frame and every keyframe that shows a mapped path
   * moved to its new path. `Sheet::relocate_frames` is not part of this
   * model; this is the rewrite its callers rely on.
   */
  function RelocatedSheet(sheet: Sheet, mapping: map<Path, Path>): (r: Sheet)
    ensures r.frames == RelocatedFrames(sheet.frames, mapping) && r.exportSettings == sheet.exportSettings
    ensures r.animations.Keys == sheet.animations.Keys
    ensures forall n :: n in r.animations ==> r.animations[n] == RelocatedAnimation(sheet.animations[n], mapping)
  {
    sheet.(frames := RelocatedFrames(sheet.frames, mapping),
           animations := map n | n in sheet.animations :: RelocatedAnimation(sheet.animations[n], mapping))
  }

  /** Relocating through an empty mapping changes nothing. */
  lemma RelocateNothing(sheet: Sheet)
    ensures RelocatedSheet(sheet, map[]) == sheet
  {
    var r := RelocatedSheet(sheet, map[]);
    assert r.frames == sheet.frames;
    forall n | n in sheet.animations
      ensures r.animations[n] == sheet.animations[n]
    {
      var a := sheet.animations[n];
      forall d | d in a.sequences
        ensures r.animations[n].sequences[d] == a.sequences[d]
      {
        assert RelocatedKeyframes(a.sequences[d].keyframes, map[]) == a.sequences[d].keyframes;
      }
    }
  }

  /** After relocation no frame and no keyframe shows a mapped path that is not also a target. */
  lemma RelocatedPathsGone(sheet: Sheet, mapping: map<Path, Path>, path: Path)
    requires path in mapping && path !in mapping.Values
    ensures var r := RelocatedSheet(sheet, mapping);
      && !HasFrame(r, path)
      && forall n, d, i ::
           (n in r.animations && d in r.animations[n].sequences && 0 <= i < |r.animations[n].sequences[d].keyframes|) ==>
           r.animations[n].sequences[d].keyframes[i].frame != path
  {
    var r := RelocatedSheet(sheet, mapping);
    assert forall i :: 0 <= i < |r.frames| ==> r.frames[i].source != path by {
      forall i | 0 <= i < |r.frames|
        ensures r.frames[i].source != path
      {
        assert r.frames[i].source == Mapped(sheet.frames[i].source, mapping);
      }
    }
    assert path !in Sources(r.frames);
  }

  /**
   * `Document::end_relocate_frames`: close the session and rewrite the sheet
   * through its mapping; without a session it fails and changes nothing.
   */
  method EndRelocateFrames(doc: Document) returns (r: Result<(), DocumentError>)
    modifies doc
    ensures old(doc.persistent.relocateFramesEdit).None? ==>
      r == Err(NotRelocatingFrames) && doc.sheet == old(doc.sheet) && doc.persistent == old(doc.persistent)
    ensures old(doc.persistent.relocateFramesEdit).Some? ==>
      && r == Ok(())
      && doc.sheet == RelocatedSheet(old(doc.sheet), old(doc.persistent.relocateFramesEdit.value))
      && doc.persistent == old(doc.persistent).(relocateFramesEdit := None)
    ensures doc.view == old(doc.view) && doc.transient == old(doc.transient) && doc.KeepsHistory()
  {
    var mapping := doc.persistent.relocateFramesEdit;
    doc.persistent := doc.persistent.(relocateFramesEdit := None);
    if mapping.None? {
      return Err(NotRelocatingFrames);
    }
    doc.sheet := RelocatedSheet(doc.sheet, mapping.value);
    r := Ok(());
  }
}
