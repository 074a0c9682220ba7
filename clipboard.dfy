/**
 * Copying the selection to the clipboard and pasting clipboard content back
 * into a document: animations under fresh names, keyframes into the current
 * sequence at the clock, hitboxes into the keyframe under the clock. Each
 * paste selects exactly what it inserted.
 */
module Clipboards {
  import opened Wrappers
  import opened Sheets
  import opened Names
  import opened Ordering
  import opened Selections
  import opened Views
  import opened Documents
  import opened Commands
  import Gestures
  import KeyframeEdits
  import DocumentSelection

  // ----- Copy -----

  /** `a` comes before `b` in the order `selected_keyframes` lists keyframes: by direction, then by index. */
  predicate SlotBefore(a: KeyframeSlot, b: KeyframeSlot) {
    DirectionRank(a.0) < DirectionRank(b.0) || (a.0 == b.0 && a.1 < b.1)
  }

  /** The indices from `i` below `n` whose keyframe `(name, d, index)` is selected, ascending. */
  function SelectedIndices(name: string, d: Direction, n: nat, selected: set<KeyframeRef>, i: nat): (r: seq<nat>)
    requires i <= n
    ensures forall j :: j in r <==> i <= j < n && KeyframeRef(name, d, j) in selected
    ensures forall a, b :: 0 <= a < b < |r| ==> r[a] < r[b]
    ensures forall a :: 0 <= a < |r| ==> i <= r[a]
    decreases n - i
  {
    if i == n then []
    else if KeyframeRef(name, d, i) in selected then [i] + SelectedIndices(name, d, n, selected, i + 1)
    else SelectedIndices(name, d, n, selected, i + 1)
  }

  /** The selected keyframes of sequence `d` of animation `name`, by index. */
  function SlotsInDirection(name: string, animation: Animation, selected: set<KeyframeRef>, d: Direction): (r: seq<KeyframeSlot>)
    ensures forall slot: KeyframeSlot :: slot in r <==>
      && slot.0 == d && d in animation.sequences
      && slot.1 < |animation.sequences[d].keyframes| && KeyframeRef(name, d, slot.1) in selected
    ensures forall a, b :: 0 <= a < b < |r| ==> r[a].0 == r[b].0 && r[a].1 < r[b].1
    ensures forall a :: 0 <= a < |r| ==> r[a].0 == d
  {
    if d !in animation.sequences then []
    else
      var indices := SelectedIndices(name, d, |animation.sequences[d].keyframes|, selected, 0);
      var r := Tagged(d, indices);
      TaggedMembers(d, indices);
      r
  }

  /** Each index of `indices` paired with direction `d`. */
  function Tagged(d: Direction, indices: seq<nat>): (r: seq<KeyframeSlot>)
    ensures |r| == |indices| && forall a :: 0 <= a < |r| ==> r[a] == (d, indices[a])
  {
    if indices == [] then [] else [(d, indices[0])] + Tagged(d, indices[1..])
  }

  lemma TaggedMembers(d: Direction, indices: seq<nat>)
    ensures forall slot: KeyframeSlot :: slot in Tagged(d, indices) <==> slot.0 == d && slot.1 in indices
  {
    var r := Tagged(d, indices);
    forall slot: KeyframeSlot | slot.0 == d && slot.1 in indices
      ensures slot in r
    {
      var a :| 0 <= a < |indices| && indices[a] == slot.1;
      assert r[a] == slot;
    }
  }

  /**
   * The selected keyframes of animation `name`, from direction
   * `AllDirections[k]` on, in the order `selected_keyframes` lists them.
   */
  function SelectedSlotsFrom(name: string, animation: Animation, selected: set<KeyframeRef>, k: nat): (r: seq<KeyframeSlot>)
    requires k <= |AllDirections|
    ensures forall slot: KeyframeSlot :: slot in r <==>
      && DirectionRank(slot.0) >= k && slot.0 in animation.sequences
      && slot.1 < |animation.sequences[slot.0].keyframes| && KeyframeRef(name, slot.0, slot.1) in selected
    ensures forall a, b :: 0 <= a < b < |r| ==> SlotBefore(r[a], r[b])
    ensures forall a :: 0 <= a < |r| ==> DirectionRank(r[a].0) >= k
    decreases |AllDirections| - k
  {
    if k == |AllDirections| then []
    else
      var here := SlotsInDirection(name, animation, selected, AllDirections[k]);
      var rest := SelectedSlotsFrom(name, animation, selected, k + 1);
      RankOfAllDirections(k);
      SlotsConcatOrdered(here, rest, k);
      here + rest
  }

  /** `AllDirections` lists each direction at its rank. */
  lemma RankOfAllDirections(k: nat)
    requires k < |AllDirections|
    ensures forall d :: DirectionRank(d) == k <==> d == AllDirections[k]
  {
  }

  /**
   * The slots of the direction of rank `k`, by index, followed by ordered
   * slots of later directions, are ordered.
   */
  lemma SlotsConcatOrdered(here: seq<KeyframeSlot>, rest: seq<KeyframeSlot>, k: nat)
    requires k < |AllDirections|
    requires forall a, b :: 0 <= a < b < |here| ==> here[a].0 == here[b].0 && here[a].1 < here[b].1
    requires forall a :: 0 <= a < |here| ==> here[a].0 == AllDirections[k]
    requires forall a, b :: 0 <= a < b < |rest| ==> SlotBefore(rest[a], rest[b])
    requires forall a :: 0 <= a < |rest| ==> DirectionRank(rest[a].0) >= k + 1
    ensures forall a, b :: 0 <= a < b < |here + rest| ==> SlotBefore((here + rest)[a], (here + rest)[b])
    ensures forall a :: 0 <= a < |here + rest| ==> DirectionRank((here + rest)[a].0) >= k
  {
    RankOfAllDirections(k);
    var r := here + rest;
    forall a, b | 0 <= a < b < |r|
      ensures SlotBefore(r[a], r[b])
    {
      if b < |here| {
        assert r[a] == here[a] && r[b] == here[b];
      } else if a < |here| {
        assert r[a] == here[a] && r[b] == rest[b - |here|];
      } else {
        assert r[a] == rest[a - |here|] && r[b] == rest[b - |here|];
      }
    }
  }

  /** `Document::selected_keyframes`, in the order it lists them; `None` without a current animation. */
  function SelectedSlots(sheet: Sheet, view: View): (r: Option<seq<KeyframeSlot>>)
    ensures r.None? <==> WorkbenchAnimation(sheet, view).Err?
    ensures r.Some? ==> forall a, b :: 0 <= a < b < |r.value| ==> SlotBefore(r.value[a], r.value[b])
  {
    match WorkbenchAnimation(sheet, view)
    case Err(_) => None
    case Ok((name, animation)) => Some(SelectedSlotsFrom(name, animation, view.selection.keyframes.selected, 0))
  }

  /** The listed slots are exactly the selected keyframes of the current animation. */
  lemma SelectedSlotsAreSelectedKeyframes(sheet: Sheet, view: View)
    requires WorkbenchAnimation(sheet, view).Ok?
    ensures forall slot :: slot in SelectedSlots(sheet, view).value <==> slot in SelectedKeyframes(sheet, view).value
  {
    var (name, animation) := WorkbenchAnimation(sheet, view).value;
    assert sheet.animations[name] == animation;
  }

  /** `Document::copy_keyframes`: the listed keyframes themselves. */
  function KeyframesAt(animation: Animation, slots: seq<KeyframeSlot>): (r: seq<Keyframe>)
    requires forall slot :: slot in slots ==> slot.0 in animation.sequences && slot.1 < |animation.sequences[slot.0].keyframes|
    ensures |r| == |slots|
    ensures forall a :: 0 <= a < |r| ==> r[a] == animation.sequences[slots[a].0].keyframes[slots[a].1]
  {
    seq(|slots|, a requires 0 <= a < |slots| => animation.sequences[slots[a].0].keyframes[slots[a].1])
  }

  /**
   * `Document::copy`: the selected animations if any, else the selected
   * keyframes if any, else the selected hitboxes if any, else nothing. The
   * keyframes and hitboxes need a current animation (and, for hitboxes, a
   * keyframe under the clock); without one the copy is empty.
   */
  function Copy(sheet: Sheet, view: View): (r: Option<Clipboard>)
    ensures view.selection.animations.selected != {} ==>
      && r.Some? && r.value.AnimationsClip?
      && r.value.animations.Keys == SelectedAnimations(sheet, view)
      && forall n :: n in r.value.animations ==> r.value.animations[n] == sheet.animations[n]
    ensures view.selection.animations.selected == {} && view.selection.keyframes.selected != {} ==>
      && (WorkbenchAnimation(sheet, view).Err? ==> r.None?)
      && (WorkbenchAnimation(sheet, view).Ok? ==>
            var animation := WorkbenchAnimation(sheet, view).value.1;
            var slots := SelectedSlots(sheet, view).value;
            && r.Some? && r.value.KeyframesClip? && |r.value.keyframes| == |slots|
            && forall a :: 0 <= a < |slots| ==>
                 r.value.keyframes[a] == animation.sequences[slots[a].0].keyframes[slots[a].1])
    ensures (view.selection.animations.selected == {} && view.selection.keyframes.selected == {}
             && view.selection.hitboxes.selected != {}) ==>
      && (WorkbenchKeyframe(sheet, view).Err? ==> r.None?)
      && (WorkbenchKeyframe(sheet, view).Ok? ==>
            var keyframe := WorkbenchKeyframe(sheet, view).value.1;
            && r.Some? && r.value.HitboxesClip?
            && r.value.hitboxes.Keys == SelectedHitboxes(sheet, view).value
            && forall h :: h in r.value.hitboxes ==> r.value.hitboxes[h] == keyframe.hitboxes[h])
    ensures (view.selection.animations.selected == {} && view.selection.keyframes.selected == {}
             && view.selection.hitboxes.selected == {}) ==> r.None?
  {
    if view.selection.animations.selected != {} then
      var names := SelectedAnimations(sheet, view);
      Some(AnimationsClip(map n | n in names :: sheet.animations[n]))
    else if view.selection.keyframes.selected != {} then
      match WorkbenchAnimation(sheet, view)
      case Err(_) => None
      case Ok((name, animation)) =>
        Some(KeyframesClip(KeyframesAt(animation, SelectedSlotsFrom(name, animation, view.selection.keyframes.selected, 0))))
    else if view.selection.hitboxes.selected != {} then
      match WorkbenchKeyframe(sheet, view)
      case Err(_) => None
      case Ok((_, keyframe)) =>
        var names := SelectedHitboxes(sheet, view).value;
        Some(HitboxesClip(map h | h in names :: keyframe.hitboxes[h]))
    else None
  }

  /** What was copied reports the kind the precedence picked. */
  lemma CopyManifest(sheet: Sheet, view: View)
    requires Copy(sheet, view).Some?
    ensures var m := Manifest(Copy(sheet, view).value);
      && (m == AnimationsManifest <==> view.selection.animations.selected != {})
      && (m == KeyframesManifest <==> view.selection.animations.selected == {} && view.selection.keyframes.selected != {})
      && (m == HitboxesManifest <==>
            view.selection.animations.selected == {} && view.selection.keyframes.selected == {})
  {
  }

  // ----- Paste -----

  /**
   * `m` with the entries of `clip` listed in `names` added under the names
   * `created`, the `j`-th clipboard entry under the `j`-th created name.
   */
  function AddedUnder<V>(m: map<string, V>, clip: map<string, V>, names: seq<string>, created: seq<string>): (r: map<string, V>)
    requires |created| == |names| && forall n :: n in names ==> n in clip
    ensures forall n :: n in r <==> n in m || n in created
  {
    if created == [] then m
    else
      var k := |created| - 1;
      assert created == created[..k] + [created[k]];
      AddedUnder(m, clip, names[..k], created[..k])[created[k] := clip[names[k]]]
  }

  /**
   * The names `created` are fresh for `m` and pairwise distinct, and the
   * `j`-th is variant `numbers[j]` of the `j`-th clipboard name, every
   * lower variant of which is taken in `r`.
   */
  ghost predicate FreshlyNamed<V>(m: map<string, V>, names: seq<string>, created: seq<string>, numbers: seq<nat>, r: map<string, V>) {
    && |created| == |names| && |numbers| == |names|
    && (forall j :: 0 <= j < |created| ==> created[j] !in m)
    && (forall a, b :: 0 <= a < b < |created| ==> created[a] != created[b])
    && (forall j :: 0 <= j < |created| ==> 1 <= numbers[j] && created[j] == NumberedName(names[j], numbers[j]))
    && (forall j, l :: 0 <= j < |created| && 1 <= l < numbers[j] ==> NumberedName(names[j], l) in r)
  }

  /**
   * The state of the paste loop once the clipboard names `done` are pasted:
   * the entries sit under the names `created`, numbered by `numbers`.
   */
  ghost predicate PasteProgress<V>(m: map<string, V>, clip: map<string, V>, done: seq<string>, created: seq<string>,
                                   numbers: seq<nat>, r: map<string, V>) {
    && (forall n :: n in done ==> n in clip)
    && |created| == |done|
    && m.Keys <= r.Keys && (forall j :: 0 <= j < |created| ==> created[j] in r)
    && r == AddedUnder(m, clip, done, created)
    && FreshlyNamed(m, done, created, numbers, r)
  }

  /**
   * The paste loop of `paste_animations` and `paste_hitboxes`: for each
   * clipboard entry, in ascending name order, find the first free name
   * among its own name and its numbered variants and insert the entry there.
   */
  method PasteEntries<V>(m: map<string, V>, clip: map<string, V>) returns (created: seq<string>, r: map<string, V>, ghost numbers: seq<nat>)
    ensures var names := Ascending(clip.Keys);
      && |created| == |names|
      && r == AddedUnder(m, clip, names, created)
      && FreshlyNamed(m, names, created, numbers, r)
  {
    var names := Ascending(clip.Keys);
    created, r, numbers := [], m, [];
    var i := 0;
    assert names[..i] == [];
    while i < |names|
      invariant 0 <= i <= |names|
      invariant PasteProgress(m, clip, names[..i], created, numbers, r)
    {
      created, r, numbers := PasteOne(m, clip, names, i, created, r, numbers);
      i := i + 1;
    }
    assert names[..i] == names;
    assert PasteProgress(m, clip, names, created, numbers, r);
  }

  /** One turn of the paste loop: the `i`-th clipboard entry goes under the first free variant of its name. */
  method PasteOne<V>(m: map<string, V>, clip: map<string, V>, names: seq<string>, i: nat, created: seq<string>,
                     r: map<string, V>, ghost numbers: seq<nat>)
    returns (created': seq<string>, r': map<string, V>, ghost numbers': seq<nat>)
    requires names == Ascending(clip.Keys) && i < |names|
    requires PasteProgress(m, clip, names[..i], created, numbers, r)
    ensures PasteProgress(m, clip, names[..i + 1], created', numbers', r')
  {
    var n := names[i];
    var name, k := FreshName(n, r.Keys);
    PasteLoopStep(m, clip, names, i, created, numbers, r, name, k);
    r' := r[name := clip[n]];
    created', numbers' := created + [name], numbers + [k];
  }

  /** The paste loop's invariant holds after its `i`-th turn. */
  lemma PasteLoopStep<V>(m: map<string, V>, clip: map<string, V>, names: seq<string>, i: nat, created: seq<string>,
                         numbers: seq<nat>, r: map<string, V>, name: string, k: nat)
    requires names == Ascending(clip.Keys) && i < |names|
    requires PasteProgress(m, clip, names[..i], created, numbers, r)
    requires 1 <= k && name == NumberedName(names[i], k) && name !in r
    requires forall l :: 1 <= l < k ==> NumberedName(names[i], l) in r
    ensures PasteProgress(m, clip, names[..i + 1], created + [name], numbers + [k], r[name := clip[names[i]]])
  {
    assert names[i] in clip;
    PasteProgressStep(m, clip, names[..i], created, numbers, r, names[i], name, k);
    SliceSnoc(names, i);
  }

  /** One more turn of the paste loop keeps its invariant. */
  lemma PasteProgressStep<V>(m: map<string, V>, clip: map<string, V>, done: seq<string>, created: seq<string>,
                             numbers: seq<nat>, r: map<string, V>, n: string, name: string, k: nat)
    requires PasteProgress(m, clip, done, created, numbers, r) && n in clip
    requires 1 <= k && name == NumberedName(n, k) && name !in r
    requires forall l :: 1 <= l < k ==> NumberedName(n, l) in r
    ensures PasteProgress(m, clip, done + [n], created + [name], numbers + [k], r[name := clip[n]])
  {
    PasteStepAdds(m, clip, done, created, r, n, name);
    FreshlyNamedStep(m, done, created, numbers, r, n, name, k, clip[n]);
    CreatedStillIn(created, name, r, clip[n]);
  }

  /** One more fresh name, variant `k` of `n`, keeps the names fresh, distinct and first free. */
  lemma FreshlyNamedStep<V>(m: map<string, V>, done: seq<string>, created: seq<string>, numbers: seq<nat>,
                            r: map<string, V>, n: string, name: string, k: nat, v: V)
    requires FreshlyNamed(m, done, created, numbers, r)
    requires m.Keys <= r.Keys && forall j :: 0 <= j < |created| ==> created[j] in r
    requires 1 <= k && name == NumberedName(n, k) && name !in r
    requires forall l :: 1 <= l < k ==> NumberedName(n, l) in r
    ensures FreshlyNamed(m, done + [n], created + [name], numbers + [k], r[name := v])
  {
    FreshStep(m.Keys, r.Keys, created, name);
    NumberedStep(done, numbers, created, n, k, name);
    VariantsTaken(done, numbers, r.Keys, r[name := v].Keys, n, k);
  }

  /** The names created so far stay keys when one more entry is added under `name`. */
  lemma CreatedStillIn<V>(created: seq<string>, name: string, r: map<string, V>, v: V)
    requires forall j :: 0 <= j < |created| ==> created[j] in r
    ensures forall j :: 0 <= j < |created| + 1 ==> (created + [name])[j] in r[name := v]
  {
    forall j | 0 <= j < |created| + 1
      ensures (created + [name])[j] in r[name := v]
    {
      if j < |created| {
        assert (created + [name])[j] == created[j];
      }
    }
  }

  /** One more turn of the paste loop adds the entry under the new name. */
  lemma PasteStepAdds<V>(m: map<string, V>, clip: map<string, V>, done: seq<string>, created: seq<string>,
                         r: map<string, V>, n: string, name: string)
    requires |created| == |done| && (forall x :: x in done ==> x in clip) && n in clip
    requires r == AddedUnder(m, clip, done, created)
    ensures forall x :: x in done + [n] ==> x in clip
    ensures r[name := clip[n]] == AddedUnder(m, clip, done + [n], created + [name])
  {
    SnocSlice(done, n);
    SnocSlice(created, name);
  }

  lemma SliceSnoc<T>(s: seq<T>, i: nat)
    requires i < |s|
    ensures s[..i + 1] == s[..i] + [s[i]] && s[..i + 1][..i] == s[..i] && s[..i + 1][i] == s[i]
  {
  }

  lemma SnocSlice<T>(s: seq<T>, x: T)
    ensures (s + [x])[..|s|] == s && (s + [x])[|s|] == x
  {
  }

  /** A name not yet taken extends a list of fresh, distinct, taken names. */
  lemma FreshStep(old': set<string>, taken: set<string>, created: seq<string>, name: string)
    requires old' <= taken && name !in taken
    requires forall j :: 0 <= j < |created| ==> created[j] !in old' && created[j] in taken
    requires forall a, b :: 0 <= a < b < |created| ==> created[a] != created[b]
    ensures forall j :: 0 <= j < |created| + 1 ==> (created + [name])[j] !in old'
    ensures forall a, b :: 0 <= a < b < |created| + 1 ==> (created + [name])[a] != (created + [name])[b]
  {
    forall a, b | 0 <= a < b < |created| + 1
      ensures (created + [name])[a] != (created + [name])[b]
    {
      assert (created + [name])[a] == created[a];
    }
  }

  /** The numbering of the created names extends by the new one. */
  lemma NumberedStep(names: seq<string>, numbers: seq<nat>, created: seq<string>, base: string, k: nat, name: string)
    requires |numbers| == |names| && |created| == |names|
    requires forall j :: 0 <= j < |created| ==> 1 <= numbers[j] && created[j] == NumberedName(names[j], numbers[j])
    requires 1 <= k && name == NumberedName(base, k)
    ensures forall j :: 0 <= j < |created| + 1 ==>
      1 <= (numbers + [k])[j] && (created + [name])[j] == NumberedName((names + [base])[j], (numbers + [k])[j])
  {
    forall j | 0 <= j < |created| + 1
      ensures 1 <= (numbers + [k])[j] && (created + [name])[j] == NumberedName((names + [base])[j], (numbers + [k])[j])
    {
      if j < |created| {
        assert (numbers + [k])[j] == numbers[j] && (names + [base])[j] == names[j] && (created + [name])[j] == created[j];
      }
    }
  }

  /** The lower variants that were taken stay taken as names are added. */
  lemma VariantsTaken(names: seq<string>, numbers: seq<nat>, taken: set<string>, taken': set<string>, base: string, k: nat)
    requires |numbers| == |names| && taken <= taken'
    requires forall j, l :: 0 <= j < |names| && 1 <= l < numbers[j] ==> NumberedName(names[j], l) in taken
    requires forall l :: 1 <= l < k ==> NumberedName(base, l) in taken
    ensures forall j, l :: 0 <= j < |names| + 1 && 1 <= l < (numbers + [k])[j] ==>
      NumberedName((names + [base])[j], l) in taken'
  {
    forall j, l | 0 <= j < |names| + 1 && 1 <= l < (numbers + [k])[j]
      ensures NumberedName((names + [base])[j], l) in taken'
    {
      if j < |names| {
        assert (numbers + [k])[j] == numbers[j] && (names + [base])[j] == names[j];
      } else {
        assert (numbers + [k])[j] == k && (names + [base])[j] == base;
      }
    }
  }

  /** What `AddedUnder` keeps and adds, when the new names are fresh and distinct. */
  lemma {:induction false} AddedUnderEntries<V>(m: map<string, V>, clip: map<string, V>, names: seq<string>, created: seq<string>)
    requires |created| == |names| && forall n :: n in names ==> n in clip
    requires forall j :: 0 <= j < |created| ==> created[j] !in m
    requires forall a, b :: 0 <= a < b < |created| ==> created[a] != created[b]
    ensures var r := AddedUnder(m, clip, names, created);
      && (forall n :: n in m ==> r[n] == m[n])
      && (forall j :: 0 <= j < |created| ==> r[created[j]] == clip[names[j]])
  {
    if created != [] {
      var k := |created| - 1;
      var prefix, names' := created[..k], names[..k];
      AddedUnderEntries(m, clip, names', prefix);
      var before := AddedUnder(m, clip, names', prefix);
      var r := AddedUnder(m, clip, names, created);
      assert r == before[created[k] := clip[names[k]]];
      forall j | 0 <= j < k
        ensures r[created[j]] == clip[names[j]]
      {
        assert prefix[j] == created[j] && names'[j] == names[j];
        assert created[j] != created[k];
      }
    }
  }

  /**
   * `Document::paste_animations`: each clipboard animation is added under the
   * first free name among its own name and its numbered variants, and the
   * new animations become the whole selection.
   */
  method PasteAnimations(doc: Document, clip: map<string, Animation>) returns (created: seq<string>, ghost numbers: seq<nat>)
    modifies doc
    ensures var names := Ascending(clip.Keys);
      && |created| == |names|
      && doc.sheet == old(doc.sheet).(animations := AddedUnder(old(doc.sheet).animations, clip, names, created))
      && FreshlyNamed(old(doc.sheet).animations, names, created, numbers, doc.sheet.animations)
    ensures doc.view == SelectAnimationsOnly(old(doc.view), created)
    ensures doc.transient == old(doc.transient) && doc.persistent == old(doc.persistent) && doc.KeepsHistory()
  {
    var animations;
    created, animations, numbers := PasteEntries(doc.sheet.animations, clip);
    doc.sheet := doc.sheet.(animations := animations);
    doc.view := SelectAnimationsOnly(doc.view, created);
  }

  /** After pasting, the selected animations are exactly the new ones. */
  lemma PastedAnimationsSelected(sheet: Sheet, view: View, clip: map<string, Animation>, created: seq<string>)
    requires |created| == |clip|
    ensures var after := sheet.(animations := AddedUnder(sheet.animations, clip, Ascending(clip.Keys), created));
      SelectedAnimations(after, SelectAnimationsOnly(view, created)) == set n | n in created
  {
  }

  /** Pasting an animation whose name is taken, while its " 2" variant is free, names the copy with " 2". */
  lemma PasteUnderTakenName(sheet: Sheet, name: string, animation: Animation, created: seq<string>, numbers: seq<nat>)
    requires var clip := map[name := animation];
      && |created| == 1
      && FreshlyNamed(sheet.animations, Ascending(clip.Keys), created, numbers,
                      AddedUnder(sheet.animations, clip, Ascending(clip.Keys), created))
    requires name in sheet.animations && name + " 2" !in sheet.animations
    ensures created == [name + " 2"]
  {
    var clip := map[name := animation];
    var names := Ascending(clip.Keys);
    assert name in names;
    assert names == [name];
    var after := AddedUnder(sheet.animations, clip, names, created);
    assert after.Keys == sheet.animations.Keys + {created[0]};
    assert names[0] == name;
    SecondName(name);
    FirstFreeIsSecond(name, sheet.animations.Keys, created[0], numbers[0]);
  }

  /** `s` reversed twice. */
  lemma ReversedTwice<T>(s: seq<T>)
    ensures Gestures.Reversed(Gestures.Reversed(s)) == s
  {
  }

  /**
   * Where `paste_keyframes` inserts: after the last keyframe when the clock
   * is at or past the end of the sequence, otherwise at the keyframe under
   * the clock (index 0 when none can be found).
   */
  function PasteIndex(sheet: Sheet, view: View, sequence: Sequence): (r: nat)
    requires WorkbenchSequence(sheet, view).Ok? && WorkbenchSequence(sheet, view).value.1 == sequence
    ensures r <= |sequence.keyframes|
    ensures view.timelineClock >= DurationMillis(sequence).UnwrapOr(0) ==> r == |sequence.keyframes|
    ensures view.timelineClock < DurationMillis(sequence).UnwrapOr(0) && WorkbenchKeyframe(sheet, view).Ok? ==>
      r == WorkbenchKeyframe(sheet, view).value.0.1
  {
    if view.timelineClock >= DurationMillis(sequence).UnwrapOr(0) then |sequence.keyframes|
    else match WorkbenchKeyframe(sheet, view)
      case Ok(((_, index), _)) => index
      case Err(_) => 0
  }

  /**
   * `Document::paste_keyframes`: the clipboard keyframes go, in clipboard
   * order, into the current sequence at the paste index, and become the
   * whole selection. Fails, changing nothing, without a current sequence.
   */
  function PastedKeyframes(sheet: Sheet, view: View, keyframes: seq<Keyframe>): (r: Outcome)
    ensures WorkbenchSequence(sheet, view).Err? ==> r == Outcome(sheet, view, Err(WorkbenchSequence(sheet, view).error))
    ensures WorkbenchSequence(sheet, view).Ok? ==>
      var (name, animation) := WorkbenchAnimation(sheet, view).value;
      var (direction, sequence) := WorkbenchSequence(sheet, view).value;
      var at := PasteIndex(sheet, view, sequence);
      && r.result == Ok(())
      && name in r.sheet.animations && direction in r.sheet.animations[name].sequences
      && r.sheet.frames == sheet.frames && r.sheet.exportSettings == sheet.exportSettings
      && r.sheet.animations == sheet.animations[name := r.sheet.animations[name]]
      && r.sheet.animations[name] == animation.(sequences := animation.sequences[direction := r.sheet.animations[name].sequences[direction]])
      && Gestures.PlacesBlock(sequence.keyframes, r.sheet.animations[name].sequences[direction].keyframes, at, keyframes)
      && r.view == SelectKeyframesOnly(view, Gestures.BlockRefs(name, direction, at, |keyframes|))
  {
    match WorkbenchSequence(sheet, view)
    case Err(e) => Outcome(sheet, view, Err(e))
    case Ok((direction, sequence)) =>
      var (name, animation) := WorkbenchAnimation(sheet, view).value;
      var at := PasteIndex(sheet, view, sequence);
      var inserted := Gestures.InsertedBlock(sequence, keyframes, at).value;
      Outcome(sheet.(animations := sheet.animations[name := animation.(sequences := animation.sequences[direction := inserted])]),
              SelectKeyframesOnly(view, Gestures.BlockRefs(name, direction, at, |keyframes|)), Ok(()))
  }

  /**
   * After pasting keyframes, the selected keyframes are exactly the pasted
   * block, and the keyframes of the current sequence before the paste index
   * are still where they were.
   */
  lemma PastedKeyframesSelected(sheet: Sheet, view: View, keyframes: seq<Keyframe>)
    requires WorkbenchSequence(sheet, view).Ok?
    ensures var o := PastedKeyframes(sheet, view, keyframes);
      var (direction, sequence) := WorkbenchSequence(sheet, view).value;
      var at := PasteIndex(sheet, view, sequence);
      && WorkbenchAnimation(o.sheet, o.view).Ok?
      && forall slot :: slot in SelectedKeyframes(o.sheet, o.view).value <==>
           slot.0 == direction && at <= slot.1 < at + |keyframes|
  {
    var o := PastedKeyframes(sheet, view, keyframes);
    var (name, animation) := WorkbenchAnimation(sheet, view).value;
    var (direction, sequence) := WorkbenchSequence(sheet, view).value;
    ResolutionDependsOnCurrents(o.sheet, view, o.view);
    assert WorkbenchAnimation(o.sheet, o.view).value.0 == name;
    assert direction in o.sheet.animations[name].sequences;
  }

  /** `Document::paste_keyframes` on the document. */
  method PasteKeyframes(doc: Document, keyframes: seq<Keyframe>) returns (r: Result<(), DocumentError>)
    modifies doc
    ensures Outcome(doc.sheet, doc.view, r) == PastedKeyframes(old(doc.sheet), old(doc.view), keyframes)
    ensures doc.transient == old(doc.transient) && doc.persistent == old(doc.persistent) && doc.KeepsHistory()
  {
    var ws := WorkbenchSequence(doc.sheet, doc.view);
    if ws.Err? {
      return Err(ws.error);
    }
    var (direction, sequence) := ws.value;
    var (name, animation) := WorkbenchAnimation(doc.sheet, doc.view).value;
    var at := PasteIndex(doc.sheet, doc.view, sequence);
    var inserted := Gestures.InsertEach(sequence, Gestures.Reversed(keyframes), at);
    ReversedTwice(keyframes);
    doc.sheet := doc.sheet.(animations := doc.sheet.animations[name :=
                   animation.(sequences := animation.sequences[direction := inserted.value])]);
    doc.view := SelectKeyframesOnly(doc.view, Gestures.BlockRefs(name, direction, at, |keyframes|));
    r := Ok(());
  }

  /**
   * `Document::paste_hitboxes`: each clipboard hitbox is added to the
   * keyframe under the clock under the first free name among its own name
   * and its numbered variants, and the new hitboxes become the whole
   * selection. Fails, changing nothing, without a keyframe under the clock.
   */
  method PasteHitboxes(doc: Document, clip: map<string, Hitbox>)
    returns (created: seq<string>, ghost numbers: seq<nat>, r: Result<(), DocumentError>)
    modifies doc
    ensures var wk := WorkbenchKeyframe(old(doc.sheet), old(doc.view));
      && (wk.Err? ==> r == Err(wk.error) && doc.sheet == old(doc.sheet) && doc.view == old(doc.view))
      && (wk.Ok? ==>
            var name := WorkbenchAnimation(old(doc.sheet), old(doc.view)).value.0;
            var (slot, keyframe) := wk.value;
            var names := Ascending(clip.Keys);
            && |created| == |names|
            && var hitboxes := AddedUnder(keyframe.hitboxes, clip, names, created);
            && r == Ok(())
            && FreshlyNamed(keyframe.hitboxes, names, created, numbers, hitboxes)
            && KeyframeExists(old(doc.sheet), name, slot.0, slot.1)
            && doc.sheet == KeyframeEdits.WithKeyframe(old(doc.sheet), name, slot, keyframe.(hitboxes := hitboxes))
            && doc.view == SelectHitboxesOnly(old(doc.view), DocumentSelection.HitboxRefs(name, slot, created)))
    ensures doc.transient == old(doc.transient) && doc.persistent == old(doc.persistent) && doc.KeepsHistory()
  {
    var wk := WorkbenchKeyframe(doc.sheet, doc.view);
    if wk.Err? {
      return [], [], Err(wk.error);
    }
    var name := WorkbenchAnimation(doc.sheet, doc.view).value.0;
    var (slot, keyframe) := wk.value;
    var hitboxes;
    created, hitboxes, numbers := PasteEntries(keyframe.hitboxes, clip);
    ResolutionChain(doc.sheet, doc.view);
    doc.sheet := KeyframeEdits.WithKeyframe(doc.sheet, name, slot, keyframe.(hitboxes := hitboxes));
    doc.view := SelectHitboxesOnly(doc.view, DocumentSelection.HitboxRefs(name, slot, created));
    r := Ok(());
  }

  /**
   * `paste_animations` took `sheet` and `view` to `sheet'` and `view'`: the
   * clipboard animations sit under the fresh names `created`, numbered by
   * `numbers`, and are the whole selection.
   */
  ghost predicate AnimationsPasted(sheet: Sheet, view: View, clip: map<string, Animation>, sheet': Sheet, view': View,
                                   created: seq<string>, numbers: seq<nat>) {
    var names := Ascending(clip.Keys);
    && |created| == |names|
    && sheet' == sheet.(animations := AddedUnder(sheet.animations, clip, names, created))
    && FreshlyNamed(sheet.animations, names, created, numbers, sheet'.animations)
    && view' == SelectAnimationsOnly(view, created)
  }

  /**
   * `paste_hitboxes` took `sheet` and `view` to `sheet'` and `view'` with
   * result `r`: without a keyframe under the clock nothing changes and the
   * error is returned; otherwise the clipboard hitboxes sit in that keyframe
   * under the fresh names `created` and are the whole selection.
   */
  ghost predicate HitboxesPasted(sheet: Sheet, view: View, clip: map<string, Hitbox>, sheet': Sheet, view': View,
                                 created: seq<string>, numbers: seq<nat>, r: Result<(), DocumentError>) {
    var wk := WorkbenchKeyframe(sheet, view);
    && (wk.Err? ==> r == Err(wk.error) && sheet' == sheet && view' == view)
    && (wk.Ok? ==>
          var name := WorkbenchAnimation(sheet, view).value.0;
          var (slot, keyframe) := wk.value;
          var names := Ascending(clip.Keys);
          && |created| == |names|
          && var hitboxes := AddedUnder(keyframe.hitboxes, clip, names, created);
          && r == Ok(())
          && FreshlyNamed(keyframe.hitboxes, names, created, numbers, hitboxes)
          && KeyframeExists(sheet, name, slot.0, slot.1)
          && sheet' == KeyframeEdits.WithKeyframe(sheet, name, slot, keyframe.(hitboxes := hitboxes))
          && view' == SelectHitboxesOnly(view, DocumentSelection.HitboxRefs(name, slot, created)))
  }

  /** `Document::paste` took `sheet` and `view` to `sheet'` and `view'` with result `r`, by the kind of clipboard content. */
  ghost predicate Pasted(sheet: Sheet, view: View, clipboard: Clipboard, sheet': Sheet, view': View, r: Result<(), DocumentError>) {
    match clipboard
    case AnimationsClip(animations) =>
      r == Ok(()) && exists created, numbers :: AnimationsPasted(sheet, view, animations, sheet', view', created, numbers)
    case KeyframesClip(keyframes) =>
      Outcome(sheet', view', r) == PastedKeyframes(sheet, view, keyframes)
    case HitboxesClip(hitboxes) =>
      exists created, numbers :: HitboxesPasted(sheet, view, hitboxes, sheet', view', created, numbers, r)
  }

  /** `Document::paste`: dispatch on the kind of clipboard content. */
  method Paste(doc: Document, clipboard: Clipboard) returns (r: Result<(), DocumentError>)
    modifies doc
    ensures Pasted(old(doc.sheet), old(doc.view), clipboard, doc.sheet, doc.view, r)
    ensures clipboard.AnimationsClip? ==> r == Ok(())
    ensures clipboard.KeyframesClip? ==>
      (r.Err? <==> WorkbenchSequence(old(doc.sheet), old(doc.view)).Err?)
    ensures clipboard.HitboxesClip? ==>
      (r.Err? <==> WorkbenchKeyframe(old(doc.sheet), old(doc.view)).Err?)
    ensures r.Err? ==> doc.sheet == old(doc.sheet) && doc.view == old(doc.view)
    ensures doc.transient == old(doc.transient) && doc.persistent == old(doc.persistent) && doc.KeepsHistory()
  {
    match clipboard
    case AnimationsClip(animations) =>
      var created, numbers := PasteAnimations(doc, animations);
      r := Ok(());
      assert AnimationsPasted(old(doc.sheet), old(doc.view), animations, doc.sheet, doc.view, created, numbers);
    case KeyframesClip(keyframes) =>
      r := PasteKeyframes(doc, keyframes);
    case HitboxesClip(hitboxes) =>
      var created;
      ghost var numbers;
      created, numbers, r := PasteHitboxes(doc, hitboxes);
      assert HitboxesPasted(old(doc.sheet), old(doc.view), hitboxes, doc.sheet, doc.view, created, numbers, r);
  }
}
