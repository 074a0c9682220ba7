/**
 * Editing the keyframes of the current animation and the hitboxes of the
 * keyframe under the clock: durations, offsets, hitbox creation, renaming,
 * deletion, position and size.
 */
module KeyframeEdits {
  import opened Wrappers
  import Names
  import opened Sheets
  import opened Selections
  import opened Views
  import opened Documents

  // ----- Moving a keyframe -----

  /** `Document::nudge_keyframe`: move a keyframe to a new offset, carrying its hitboxes along. */
  function NudgeKeyframe(keyframe: Keyframe, newOffset: Vec2): (r: Keyframe)
    ensures r.offset == newOffset
    ensures r.frame == keyframe.frame && r.durationMillis == keyframe.durationMillis
    ensures r.hitboxes.Keys == keyframe.hitboxes.Keys
    ensures forall n :: n in r.hitboxes ==>
      && r.hitboxes[n].Extent() == keyframe.hitboxes[n].Extent()
      && r.hitboxes[n].Position().x - newOffset.x == keyframe.hitboxes[n].Position().x - keyframe.offset.x
      && r.hitboxes[n].Position().y - newOffset.y == keyframe.hitboxes[n].Position().y - keyframe.offset.y
  {
    var shift := Vec2(newOffset.x - keyframe.offset.x, newOffset.y - keyframe.offset.y);
    keyframe.(offset := newOffset,
              hitboxes := map n | n in keyframe.hitboxes :: keyframe.hitboxes[n].SetPosition(keyframe.hitboxes[n].Position().Plus(shift)))
  }

  /** Two nudges in a row land where the second alone would: only the final offset matters. */
  lemma NudgeKeyframeTwice(keyframe: Keyframe, a: Vec2, b: Vec2)
    ensures NudgeKeyframe(NudgeKeyframe(keyframe, a), b) == NudgeKeyframe(keyframe, b)
  {
    var once := NudgeKeyframe(keyframe, a);
    var twice := NudgeKeyframe(once, b);
    var direct := NudgeKeyframe(keyframe, b);
    forall n | n in twice.hitboxes
      ensures twice.hitboxes[n] == direct.hitboxes[n]
    {
      assert twice.hitboxes[n].geometry == direct.hitboxes[n].geometry;
    }
  }

  /** Nudging a keyframe to where it already is changes nothing. */
  lemma NudgeKeyframeInPlace(keyframe: Keyframe)
    ensures NudgeKeyframe(keyframe, keyframe.offset) == keyframe
  {
    var r := NudgeKeyframe(keyframe, keyframe.offset);
    forall n | n in r.hitboxes
      ensures r.hitboxes[n] == keyframe.hitboxes[n]
    {
      assert r.hitboxes[n].geometry == keyframe.hitboxes[n].geometry;
    }
  }

  // ----- Replacing a keyframe of the sheet -----

  /** The sheet with one existing keyframe replaced. */
  function WithKeyframe(sheet: Sheet, animation: string, slot: KeyframeSlot, keyframe: Keyframe): (r: Sheet)
    requires KeyframeExists(sheet, animation, slot.0, slot.1)
    ensures r.frames == sheet.frames && r.exportSettings == sheet.exportSettings
    ensures r.animations.Keys == sheet.animations.Keys
    ensures forall n :: n in r.animations && n != animation ==> r.animations[n] == sheet.animations[n]
    ensures r.animations[animation].isLooping == sheet.animations[animation].isLooping
    ensures r.animations[animation].sequences.Keys == sheet.animations[animation].sequences.Keys
    ensures forall d :: d in r.animations[animation].sequences && d != slot.0 ==>
      r.animations[animation].sequences[d] == sheet.animations[animation].sequences[d]
    ensures r.animations[animation].sequences[slot.0].keyframes
            == sheet.animations[animation].sequences[slot.0].keyframes[slot.1 := keyframe]
  {
    var a := sheet.animations[animation];
    var s := a.sequences[slot.0];
    sheet.(animations := sheet.animations[animation := a.(sequences := a.sequences[slot.0 := Sequence(s.keyframes[slot.1 := keyframe])])])
  }

  /** Keyframes with the same durations, position by position. */
  predicate SameDurations(a: seq<Keyframe>, b: seq<Keyframe>) {
    |a| == |b| && forall i :: 0 <= i < |a| ==> a[i].durationMillis == b[i].durationMillis
  }

  /** The time ranges of a sequence depend only on its durations. */
  lemma {:induction false} SameDurationsSameRanges(a: seq<Keyframe>, b: seq<Keyframe>, start: nat)
    requires SameDurations(a, b)
    ensures RangesFrom(a, start) == RangesFrom(b, start)
    decreases |a|
  {
    if a != [] {
      assert SameDurations(a[1..], b[1..]);
      SameDurationsSameRanges(a[1..], b[1..], start + a[0].durationMillis);
    }
  }

  /**
   * Replacing the keyframe under the clock by one of the same duration keeps
   * it the keyframe under the clock, in the same animation and sequence.
   */
  lemma WithKeyframeKeepsWorkbench(sheet: Sheet, view: View, keyframe: Keyframe)
    requires WorkbenchKeyframe(sheet, view).Ok?
    requires keyframe.durationMillis == WorkbenchKeyframe(sheet, view).value.1.durationMillis
    ensures var name := WorkbenchAnimation(sheet, view).value.0;
      var slot := WorkbenchKeyframe(sheet, view).value.0;
      var r := WithKeyframe(sheet, name, slot, keyframe);
      && WorkbenchAnimation(r, view).Ok? && WorkbenchAnimation(r, view).value.0 == name
      && WorkbenchKeyframe(r, view) == Ok((slot, keyframe))
  {
    var name := WorkbenchAnimation(sheet, view).value.0;
    var slot := WorkbenchKeyframe(sheet, view).value.0;
    var before := sheet.animations[name].sequences[slot.0];
    var r := WithKeyframe(sheet, name, slot, keyframe);
    var after := r.animations[name].sequences[slot.0];
    SameDurationsSameRanges(before.keyframes, after.keyframes, 0);
    assert KeyframeIndexAt(after, view.timelineClock) == KeyframeIndexAt(before, view.timelineClock);
  }

  // ----- Editing the selected keyframes -----

  /** Apply `f` to the keyframes of `animation` (named `name`) that are selected. */
  function MapSelectedKeyframes(animation: Animation, name: string, selected: set<KeyframeRef>, f: Keyframe -> Keyframe)
    : (r: Animation)
    ensures r.isLooping == animation.isLooping && r.sequences.Keys == animation.sequences.Keys
    ensures forall d :: d in r.sequences ==> |r.sequences[d].keyframes| == |animation.sequences[d].keyframes|
    ensures forall d, i :: d in r.sequences && 0 <= i < |r.sequences[d].keyframes| ==>
      r.sequences[d].keyframes[i]
      == if KeyframeRef(name, d, i) in selected then f(animation.sequences[d].keyframes[i])
         else animation.sequences[d].keyframes[i]
  {
    animation.(sequences := map d | d in animation.sequences ::
      var ks := animation.sequences[d].keyframes;
      Sequence(seq(|ks|, i requires 0 <= i < |ks| => if KeyframeRef(name, d, i) in selected then f(ks[i]) else ks[i])))
  }

  /** Apply `f` to every selected keyframe of the current animation; fails when there is none. */
  function EditSelectedKeyframes(sheet: Sheet, view: View, f: Keyframe -> Keyframe): (r: Result<Sheet, DocumentError>)
    ensures WorkbenchAnimation(sheet, view).Err? ==> r == Err(WorkbenchAnimation(sheet, view).error)
    ensures WorkbenchAnimation(sheet, view).Ok? ==> r.Ok?
    ensures r.Ok? ==> r.value.frames == sheet.frames && r.value.exportSettings == sheet.exportSettings
  {
    var (name, animation) :- WorkbenchAnimation(sheet, view);
    Ok(sheet.(animations := sheet.animations[name := MapSelectedKeyframes(animation, name, view.selection.keyframes.selected, f)]))
  }

  /**
   * What editing the selected keyframes does: the current animation keeps
   * its shape, every selected keyframe of it becomes `f` of itself, every
   * other keyframe and every other animation stays as it was.
   */
  lemma EditSelectedKeyframesSpec(sheet: Sheet, view: View, f: Keyframe -> Keyframe)
    requires WorkbenchAnimation(sheet, view).Ok?
    ensures var (name, animation) := WorkbenchAnimation(sheet, view).value;
      var r := EditSelectedKeyframes(sheet, view, f).value;
      && r.animations.Keys == sheet.animations.Keys
      && (forall n :: n in r.animations && n != name ==> r.animations[n] == sheet.animations[n])
      && r.animations[name].sequences.Keys == animation.sequences.Keys
      && forall d, i: nat :: KeyframeExists(sheet, name, d, i) ==>
           && KeyframeExists(r, name, d, i)
           && (KeyframeRef(name, d, i) in view.selection.keyframes.selected ==>
                 r.animations[name].sequences[d].keyframes[i] == f(animation.sequences[d].keyframes[i]))
           && (KeyframeRef(name, d, i) !in view.selection.keyframes.selected ==>
                 r.animations[name].sequences[d].keyframes[i] == animation.sequences[d].keyframes[i])
  {
  }

  /** The edit `set_keyframe_duration` makes to each selected keyframe. */
  function DurationSetTo(durationMillis: nat): Keyframe -> Keyframe {
    (k: Keyframe) => k.(durationMillis := durationMillis)
  }

  /** The edits `set_keyframe_offset_x` and `set_keyframe_offset_y` make: a new offset coordinate, hitboxes following. */
  function OffsetXSetTo(x: int): Keyframe -> Keyframe {
    (k: Keyframe) => NudgeKeyframe(k, Vec2(x, k.offset.y))
  }

  function OffsetYSetTo(y: int): Keyframe -> Keyframe {
    (k: Keyframe) => NudgeKeyframe(k, Vec2(k.offset.x, y))
  }

  /** `Document::set_keyframe_duration`: every selected keyframe gets the same duration. */
  method SetKeyframeDuration(doc: Document, durationMillis: nat) returns (r: Result<(), DocumentError>)
    modifies doc
    ensures var e := EditSelectedKeyframes(old(doc.sheet), old(doc.view), DurationSetTo(durationMillis));
      && (e.Err? ==> r == Err(e.error) && doc.sheet == old(doc.sheet))
      && (e.Ok? ==> r == Ok(()) && doc.sheet == e.value)
    ensures doc.view == old(doc.view) && doc.transient == old(doc.transient)
    ensures doc.persistent == old(doc.persistent) && doc.KeepsHistory()
  {
    var e := EditSelectedKeyframes(doc.sheet, doc.view, DurationSetTo(durationMillis));
    if e.Err? {
      return Err(e.error);
    }
    doc.sheet := e.value;
    r := Ok(());
  }

  /** `Document::set_keyframe_offset_x`: new x offset for every selected keyframe, hitboxes following. */
  method SetKeyframeOffsetX(doc: Document, x: int) returns (r: Result<(), DocumentError>)
    modifies doc
    ensures var e := EditSelectedKeyframes(old(doc.sheet), old(doc.view), OffsetXSetTo(x));
      && (e.Err? ==> r == Err(e.error) && doc.sheet == old(doc.sheet))
      && (e.Ok? ==> r == Ok(()) && doc.sheet == e.value)
    ensures doc.view == old(doc.view) && doc.transient == old(doc.transient)
    ensures doc.persistent == old(doc.persistent) && doc.KeepsHistory()
  {
    var e := EditSelectedKeyframes(doc.sheet, doc.view, OffsetXSetTo(x));
    if e.Err? {
      return Err(e.error);
    }
    doc.sheet := e.value;
    r := Ok(());
  }

  /** `Document::set_keyframe_offset_y`. */
  method SetKeyframeOffsetY(doc: Document, y: int) returns (r: Result<(), DocumentError>)
    modifies doc
    ensures var e := EditSelectedKeyframes(old(doc.sheet), old(doc.view), OffsetYSetTo(y));
      && (e.Err? ==> r == Err(e.error) && doc.sheet == old(doc.sheet))
      && (e.Ok? ==> r == Ok(()) && doc.sheet == e.value)
    ensures doc.view == old(doc.view) && doc.transient == old(doc.transient)
    ensures doc.persistent == old(doc.persistent) && doc.KeepsHistory()
  {
    var e := EditSelectedKeyframes(doc.sheet, doc.view, OffsetYSetTo(y));
    if e.Err? {
      return Err(e.error);
    }
    doc.sheet := e.value;
    r := Ok(());
  }

  /**
   * Setting the x offset changes only x: the y offset, frame, duration and
   * hitbox sizes stay, and every hitbox moves horizontally by the change.
   */
  lemma SetOffsetXMovesHitboxes(keyframe: Keyframe, x: int)
    ensures var r := NudgeKeyframe(keyframe, Vec2(x, keyframe.offset.y));
      && r.offset == Vec2(x, keyframe.offset.y)
      && r.frame == keyframe.frame && r.durationMillis == keyframe.durationMillis
      && r.hitboxes.Keys == keyframe.hitboxes.Keys
      && forall n :: n in r.hitboxes ==>
           && r.hitboxes[n].Extent() == keyframe.hitboxes[n].Extent()
           && r.hitboxes[n].Position() == Vec2(keyframe.hitboxes[n].Position().x + (x - keyframe.offset.x),
                                               keyframe.hitboxes[n].Position().y)
  {
    var r := NudgeKeyframe(keyframe, Vec2(x, keyframe.offset.y));
    forall n | n in r.hitboxes
      ensures r.hitboxes[n].Position() == Vec2(keyframe.hitboxes[n].Position().x + (x - keyframe.offset.x),
                                               keyframe.hitboxes[n].Position().y)
    {
    }
  }

  // ----- Hitboxes of the workbench keyframe -----

  /** `Document::create_hitbox`: add a hitbox to the keyframe under the clock, select only it and start renaming it. */
  method CreateHitbox(doc: Document) returns (name: string, r: Result<(), DocumentError>)
    modifies doc
    ensures var k := WorkbenchKeyframe(old(doc.sheet), old(doc.view));
      && (k.Err? ==> r == Err(k.error) && doc.sheet == old(doc.sheet) && doc.view == old(doc.view)
                     && doc.transient == old(doc.transient))
      && (k.Ok? ==>
            var animation := WorkbenchAnimation(old(doc.sheet), old(doc.view)).value.0;
            var ((direction, index), keyframe) := k.value;
            && r == Ok(())
            && name !in keyframe.hitboxes
            && (exists n :: 1 <= n && name == Names.NumberedName(NewHitboxBaseName, n)
                             && forall j :: 1 <= j < n ==> Names.NumberedName(NewHitboxBaseName, j) in keyframe.hitboxes)
            && doc.sheet == WithKeyframe(old(doc.sheet), animation, (direction, index),
                                         keyframe.(hitboxes := keyframe.hitboxes[name := NewHitbox()]))
            && doc.view == SelectHitboxesOnly(old(doc.view), [HitboxRef(animation, direction, index, name)])
            && doc.transient == old(doc.transient).(rename := Some(RenamingHitbox(name))))
    ensures doc.persistent == old(doc.persistent) && doc.KeepsHistory()
  {
    var k := WorkbenchKeyframe(doc.sheet, doc.view);
    if k.Err? {
      return "", Err(k.error);
    }
    var animation := WorkbenchAnimation(doc.sheet, doc.view).value.0;
    var ((direction, index), keyframe) := k.value;
    var created;
    name, created := Sheets.CreateHitbox(keyframe);
    doc.sheet := WithKeyframe(doc.sheet, animation, (direction, index), created);
    doc.view := SelectHitboxesOnly(doc.view, [HitboxRef(animation, direction, index, name)]);
    doc.transient := doc.transient.(rename := Some(RenamingHitbox(name)));
    r := Ok(());
  }

  /** After `create_hitbox`, the new hitbox, and only it, is the selected hitbox of the keyframe under the clock. */
  lemma CreatedHitboxIsSelected(sheet: Sheet, view: View, name: string)
    requires WorkbenchKeyframe(sheet, view).Ok?
    requires name !in WorkbenchKeyframe(sheet, view).value.1.hitboxes
    ensures var animation := WorkbenchAnimation(sheet, view).value.0;
      var ((direction, index), keyframe) := WorkbenchKeyframe(sheet, view).value;
      var s := WithKeyframe(sheet, animation, (direction, index), keyframe.(hitboxes := keyframe.hitboxes[name := NewHitbox()]));
      var v := SelectHitboxesOnly(view, [HitboxRef(animation, direction, index, name)]);
      SelectedHitboxes(s, v) == Ok({name})
  {
    var animation := WorkbenchAnimation(sheet, view).value.0;
    var ((direction, index), keyframe) := WorkbenchKeyframe(sheet, view).value;
    var created := keyframe.(hitboxes := keyframe.hitboxes[name := NewHitbox()]);
    var s := WithKeyframe(sheet, animation, (direction, index), created);
    var v := SelectHitboxesOnly(view, [HitboxRef(animation, direction, index, name)]);
    WithKeyframeKeepsWorkbench(sheet, view, created);
    ResolutionDependsOnCurrents(s, view, v);
    assert WorkbenchKeyframe(s, v) == WorkbenchKeyframe(s, view);
    assert SelectedHitboxes(s, v).value == {name};
  }

  /** `Document::rename_hitbox`: rename a hitbox of the keyframe under the clock and select only it. */
  method RenameHitbox(doc: Document, oldName: string, newName: string) returns (r: Result<(), DocumentError>)
    modifies doc
    ensures var k := WorkbenchKeyframe(old(doc.sheet), old(doc.view));
      && (k.Err? ==> r == Err(k.error))
      && (k.Ok? && Sheets.RenameHitbox(k.value.1, oldName, newName).Err? ==>
            r == Err(SheetFailure(Sheets.RenameHitbox(k.value.1, oldName, newName).error)))
      && (r.Err? ==> doc.sheet == old(doc.sheet) && doc.view == old(doc.view))
      && (r.Ok? ==>
            var animation := WorkbenchAnimation(old(doc.sheet), old(doc.view)).value.0;
            var (slot, keyframe) := k.value;
            && Sheets.RenameHitbox(keyframe, oldName, newName).Ok?
            && doc.sheet == WithKeyframe(old(doc.sheet), animation, slot, Sheets.RenameHitbox(keyframe, oldName, newName).value)
            && doc.view == SelectHitboxesOnly(old(doc.view), [HitboxRef(animation, slot.0, slot.1, newName)]))
    ensures doc.transient == old(doc.transient) && doc.persistent == old(doc.persistent) && doc.KeepsHistory()
  {
    var k := WorkbenchKeyframe(doc.sheet, doc.view);
    if k.Err? {
      return Err(k.error);
    }
    var animation := WorkbenchAnimation(doc.sheet, doc.view).value.0;
    var (slot, keyframe) := k.value;
    var renamed := Sheets.RenameHitbox(keyframe, oldName, newName);
    if renamed.Err? {
      return Err(SheetFailure(renamed.error));
    }
    doc.sheet := WithKeyframe(doc.sheet, animation, slot, renamed.value);
    doc.view := SelectHitboxesOnly(doc.view, [HitboxRef(animation, slot.0, slot.1, newName)]);
    r := Ok(());
  }

  /** `Document::delete_hitbox`: remove a hitbox from the keyframe under the clock, found through the mutable chain. */
  method DeleteHitbox(doc: Document, name: string) returns (r: Result<(), DocumentError>)
    modifies doc
    ensures var k := WorkbenchKeyframeMut(old(doc.sheet), old(doc.view));
      && (k.Err? ==> r == Err(k.error) && doc.sheet == old(doc.sheet))
      && (k.Ok? ==> r == Ok(()) && doc.sheet == WithKeyframe(old(doc.sheet), WorkbenchAnimation(old(doc.sheet), old(doc.view)).value.0,
                                                             k.value.0, Sheets.DeleteHitbox(k.value.1, name)))
    ensures doc.view == old(doc.view) && doc.transient == old(doc.transient)
    ensures doc.persistent == old(doc.persistent) && doc.KeepsHistory()
  {
    var k := WorkbenchKeyframeMut(doc.sheet, doc.view);
    if k.Err? {
      return Err(k.error);
    }
    var animation := WorkbenchAnimation(doc.sheet, doc.view).value.0;
    doc.sheet := WithKeyframe(doc.sheet, animation, k.value.0, Sheets.DeleteHitbox(k.value.1, name));
    r := Ok(());
  }

  /** The names of all selected hitboxes, whichever keyframe they were selected in. */
  function SelectedHitboxNames(view: View): (r: set<string>)
    ensures forall n :: n in r <==> exists h :: h in view.selection.hitboxes.selected && h.name == n
  {
    set h | h in view.selection.hitboxes.selected :: h.name
  }

  /**
   * The sheet `delete_selected_hitboxes` leaves: the keyframe under the clock
   * loses every hitbox whose name is selected; without such a keyframe the
   * sheet is as it was. Frames and animation names are kept either way.
   */
  function HitboxesDeleted(sheet: Sheet, view: View): (r: Sheet)
    ensures r.frames == sheet.frames && r.exportSettings == sheet.exportSettings
    ensures r.animations.Keys == sheet.animations.Keys
    ensures WorkbenchKeyframe(sheet, view).Err? ==> r == sheet
    ensures WorkbenchAnimation(sheet, view).Ok? ==>
      forall n :: n in r.animations && n != WorkbenchAnimation(sheet, view).value.0 ==> r.animations[n] == sheet.animations[n]
    ensures WorkbenchKeyframe(sheet, view).Ok? ==>
      var (slot, keyframe) := WorkbenchKeyframe(sheet, view).value;
      WorkbenchKeyframe(r, view) == Ok((slot, keyframe.(hitboxes := keyframe.hitboxes - SelectedHitboxNames(view))))
  {
    match WorkbenchKeyframe(sheet, view)
    case Err(_) => sheet
    case Ok((slot, keyframe)) =>
      var edited := keyframe.(hitboxes := keyframe.hitboxes - SelectedHitboxNames(view));
      WithKeyframeKeepsWorkbench(sheet, view, edited);
      WithKeyframe(sheet, WorkbenchAnimation(sheet, view).value.0, slot, edited)
  }

  /**
   * `Document::delete_selected_hitboxes`: the keyframe under the clock loses
   * every hitbox whose name is selected; without such a keyframe nothing
   * happens, and the result is `Ok` either way.
   */
  method DeleteSelectedHitboxes(doc: Document) returns (r: Result<(), DocumentError>)
    modifies doc
    ensures r == Ok(())
    ensures doc.sheet == HitboxesDeleted(old(doc.sheet), old(doc.view))
    ensures doc.view == old(doc.view) && doc.transient == old(doc.transient)
    ensures doc.persistent == old(doc.persistent) && doc.KeepsHistory()
  {
    r := Ok(());
    var names := SelectedHitboxNames(doc.view);
    var k := WorkbenchKeyframe(doc.sheet, doc.view);
    if k.Err? {
      return;
    }
    var animation := WorkbenchAnimation(doc.sheet, doc.view).value.0;
    var (slot, keyframe) := k.value;
    var remaining := names;
    while remaining != {}
      invariant remaining <= names
      invariant keyframe == k.value.1.(hitboxes := k.value.1.hitboxes - (names - remaining))
      decreases remaining
    {
      var name :| name in remaining;
      keyframe := Sheets.DeleteHitbox(keyframe, name);
      remaining := remaining - {name};
      assert keyframe.hitboxes == k.value.1.hitboxes - (names - remaining);
    }
    assert names - remaining == names;
    doc.sheet := WithKeyframe(doc.sheet, animation, slot, keyframe);
  }

  /** Apply `f` to the hitboxes named in `names`. */
  function MapHitboxes(keyframe: Keyframe, names: set<string>, f: Hitbox -> Hitbox): (r: Keyframe)
    ensures r.frame == keyframe.frame && r.durationMillis == keyframe.durationMillis && r.offset == keyframe.offset
    ensures r.hitboxes.Keys == keyframe.hitboxes.Keys
    ensures forall n :: n in r.hitboxes && n in names ==> r.hitboxes[n] == f(keyframe.hitboxes[n])
    ensures forall n :: n in r.hitboxes && n !in names ==> r.hitboxes[n] == keyframe.hitboxes[n]
  {
    keyframe.(hitboxes := map n | n in keyframe.hitboxes :: if n in names then f(keyframe.hitboxes[n]) else keyframe.hitboxes[n])
  }

  /** Apply `f` to the selected hitboxes of the keyframe under the clock. */
  function EditSelectedHitboxes(sheet: Sheet, view: View, f: Hitbox -> Hitbox): (r: Result<Sheet, DocumentError>)
    ensures WorkbenchKeyframe(sheet, view).Err? ==> r == Err(WorkbenchKeyframe(sheet, view).error)
    ensures r.Ok? <==> WorkbenchKeyframe(sheet, view).Ok?
    ensures r.Ok? ==> && WorkbenchKeyframe(sheet, view).Ok? && SelectedHitboxes(sheet, view).Ok?
                      && var (slot, keyframe) := WorkbenchKeyframe(sheet, view).value;
                         r.value == WithKeyframe(sheet, WorkbenchAnimation(sheet, view).value.0, slot,
                                                 MapHitboxes(keyframe, SelectedHitboxes(sheet, view).value, f))
  {
    var names :- SelectedHitboxes(sheet, view);
    var (name, _) := WorkbenchAnimation(sheet, view).value;
    var (slot, keyframe) := WorkbenchKeyframe(sheet, view).value;
    Ok(WithKeyframe(sheet, name, slot, MapHitboxes(keyframe, names, f)))
  }

  /** The edits `set_hitbox_position_x` and `set_hitbox_position_y` make to each selected hitbox. */
  function PositionXSetTo(x: int): Hitbox -> Hitbox {
    (h: Hitbox) => h.SetPosition(Vec2(x, h.Position().y))
  }

  function PositionYSetTo(y: int): Hitbox -> Hitbox {
    (h: Hitbox) => h.SetPosition(Vec2(h.Position().x, y))
  }

  /** `Document::set_hitbox_position_x`: the selected hitboxes move horizontally to `x`. */
  method SetHitboxPositionX(doc: Document, x: int) returns (r: Result<(), DocumentError>)
    modifies doc
    ensures var e := EditSelectedHitboxes(old(doc.sheet), old(doc.view), PositionXSetTo(x));
      && (e.Err? ==> r == Err(e.error) && doc.sheet == old(doc.sheet))
      && (e.Ok? ==> r == Ok(()) && doc.sheet == e.value)
    ensures doc.view == old(doc.view) && doc.transient == old(doc.transient)
    ensures doc.persistent == old(doc.persistent) && doc.KeepsHistory()
  {
    var e := EditSelectedHitboxes(doc.sheet, doc.view, PositionXSetTo(x));
    if e.Err? {
      return Err(e.error);
    }
    doc.sheet := e.value;
    r := Ok(());
  }

  /** `Document::set_hitbox_position_y`. */
  method SetHitboxPositionY(doc: Document, y: int) returns (r: Result<(), DocumentError>)
    modifies doc
    ensures var e := EditSelectedHitboxes(old(doc.sheet), old(doc.view), PositionYSetTo(y));
      && (e.Err? ==> r == Err(e.error) && doc.sheet == old(doc.sheet))
      && (e.Ok? ==> r == Ok(()) && doc.sheet == e.value)
    ensures doc.view == old(doc.view) && doc.transient == old(doc.transient)
    ensures doc.persistent == old(doc.persistent) && doc.KeepsHistory()
  {
    var e := EditSelectedHitboxes(doc.sheet, doc.view, PositionYSetTo(y));
    if e.Err? {
      return Err(e.error);
    }
    doc.sheet := e.value;
    r := Ok(());
  }

  /**
   * Setting a position coordinate moves the selected hitboxes of the keyframe
   * under the clock to it, keeps their other coordinate and their size, and
   * leaves the other hitboxes alone.
   */
  lemma SetHitboxPositionXSpec(sheet: Sheet, view: View, x: int)
    requires SelectedHitboxes(sheet, view).Ok?
    ensures var f := PositionXSetTo(x);
      var (slot, keyframe) := WorkbenchKeyframe(sheet, view).value;
      var k := EditSelectedHitboxes(sheet, view, f).value.animations[WorkbenchAnimation(sheet, view).value.0]
                 .sequences[slot.0].keyframes[slot.1];
      && k.hitboxes.Keys == keyframe.hitboxes.Keys
      && forall n :: n in k.hitboxes ==>
           && k.hitboxes[n].Extent() == keyframe.hitboxes[n].Extent()
           && k.hitboxes[n].Position().y == keyframe.hitboxes[n].Position().y
           && (n in SelectedHitboxes(sheet, view).value ==> k.hitboxes[n].Position().x == x)
           && (n !in SelectedHitboxes(sheet, view).value ==> k.hitboxes[n] == keyframe.hitboxes[n])
  {
  }

  /**
   * The size `set_hitbox_width` gives: the new width, and a height that is
   * kept, or scaled by new width over old width (rounded down) when the
   * aspect ratio is preserved and the old width is not 0.
   */
  function ResizedToWidth(size: Size, newWidth: nat, preserveAspectRatio: bool): (r: Size)
    ensures r.width == newWidth
    ensures !preserveAspectRatio || size.width == 0 ==> r.height == size.height
    ensures preserveAspectRatio && size.width > 0 ==>
      r.height * size.width <= newWidth * size.height < (r.height + 1) * size.width
  {
    if !preserveAspectRatio || size.width == 0 then Size(newWidth, size.height)
    else Size(newWidth, newWidth * size.height / size.width)
  }

  /** `set_hitbox_height`'s size, the mirror image of `ResizedToWidth`. */
  function ResizedToHeight(size: Size, newHeight: nat, preserveAspectRatio: bool): (r: Size)
    ensures r.height == newHeight
    ensures !preserveAspectRatio || size.height == 0 ==> r.width == size.width
    ensures preserveAspectRatio && size.height > 0 ==>
      r.width * size.height <= newHeight * size.width < (r.width + 1) * size.height
  {
    if !preserveAspectRatio || size.height == 0 then Size(size.width, newHeight)
    else Size(newHeight * size.width / size.height, newHeight)
  }

  /** Setting the width or height a hitbox already has leaves its size as it is. */
  lemma ResizeToSameSize(size: Size, preserveAspectRatio: bool)
    ensures ResizedToWidth(size, size.width, preserveAspectRatio) == size
    ensures ResizedToHeight(size, size.height, preserveAspectRatio) == size
  {
    var w := ResizedToWidth(size, size.width, preserveAspectRatio);
    if preserveAspectRatio && size.width > 0 {
      ScaledBack(w.height, size.height, size.width);
    }
    var h := ResizedToHeight(size, size.height, preserveAspectRatio);
    if preserveAspectRatio && size.height > 0 {
      ScaledBack(h.width, size.width, size.height);
    }
  }

  /** `q * b <= a * b < (q + 1) * b` with `b > 0` forces `q == a`. */
  lemma ScaledBack(q: nat, a: nat, b: nat)
    requires b > 0 && q * b <= b * a < (q + 1) * b
    ensures q == a
  {
  }

  /** The edits `set_hitbox_width` and `set_hitbox_height` make to each selected hitbox. */
  function WidthSetTo(width: nat, preserveAspectRatio: bool): Hitbox -> Hitbox {
    (h: Hitbox) => h.SetSize(ResizedToWidth(h.Extent(), width, preserveAspectRatio))
  }

  function HeightSetTo(height: nat, preserveAspectRatio: bool): Hitbox -> Hitbox {
    (h: Hitbox) => h.SetSize(ResizedToHeight(h.Extent(), height, preserveAspectRatio))
  }

  /** `Document::set_hitbox_width`. */
  method SetHitboxWidth(doc: Document, width: nat) returns (r: Result<(), DocumentError>)
    modifies doc
    ensures var p := old(doc.persistent.preserveAspectRatio);
      var e := EditSelectedHitboxes(old(doc.sheet), old(doc.view), WidthSetTo(width, p));
      && (e.Err? ==> r == Err(e.error) && doc.sheet == old(doc.sheet))
      && (e.Ok? ==> r == Ok(()) && doc.sheet == e.value)
    ensures doc.view == old(doc.view) && doc.transient == old(doc.transient)
    ensures doc.persistent == old(doc.persistent) && doc.KeepsHistory()
  {
    var p := doc.persistent.preserveAspectRatio;
    var e := EditSelectedHitboxes(doc.sheet, doc.view, WidthSetTo(width, p));
    if e.Err? {
      return Err(e.error);
    }
    doc.sheet := e.value;
    r := Ok(());
  }

  /** `Document::set_hitbox_height`. */
  method SetHitboxHeight(doc: Document, height: nat) returns (r: Result<(), DocumentError>)
    modifies doc
    ensures var p := old(doc.persistent.preserveAspectRatio);
      var e := EditSelectedHitboxes(old(doc.sheet), old(doc.view), HeightSetTo(height, p));
      && (e.Err? ==> r == Err(e.error) && doc.sheet == old(doc.sheet))
      && (e.Ok? ==> r == Ok(()) && doc.sheet == e.value)
    ensures doc.view == old(doc.view) && doc.transient == old(doc.transient)
    ensures doc.persistent == old(doc.persistent) && doc.KeepsHistory()
  {
    var p := doc.persistent.preserveAspectRatio;
    var e := EditSelectedHitboxes(doc.sheet, doc.view, HeightSetTo(height, p));
    if e.Err? {
      return Err(e.error);
    }
    doc.sheet := e.value;
    r := Ok(());
  }
}
