/**
 * Reading a sheet file written by an older version of the editor. Each
 * format version converts the one before it field by field, and reading a
 * file of any version runs the conversions from that version up to the
 * current one (Tiger1 to Tiger2 to Tiger3 to Tiger4).
 *
 * Two conversions are more than a field-for-field copy. Tiger3 moves the
 * hitboxes from the frames onto each keyframe that shows the frame, shifted
 * by the keyframe's offset. Tiger4 turns the list of animations into a map
 * by name and each timeline into a single sequence facing East. Both Tiger2
 * and Tiger4 set the metadata paths root to the metadata destination.
 */
module Migrations {
  import opened Wrappers
  import opened Sheets
  import opened Collect

  // ----- Tiger1 and Tiger2: hitboxes belong to frames -----

  datatype HitboxV2 = HitboxV2(name: string, geometry: Rectangle)
  datatype FrameV2 = FrameV2(source: Path, hitboxes: seq<HitboxV2>)
  /** `duration` is in milliseconds. */
  datatype KeyframeV2 = KeyframeV2(frame: Path, duration: nat, offset: Vec2)
  datatype AnimationV2 = AnimationV2(name: string, timeline: seq<KeyframeV2>, isLooping: bool)

  /** Tiger1 has no metadata paths root; the export format is always a template file. */
  datatype ExportSettingsV1 = ExportSettingsV1(templateFile: Path, textureDestination: Path, metadataDestination: Path)
  datatype ExportSettingsV2 = ExportSettingsV2(
    templateFile: Path, textureDestination: Path, metadataDestination: Path, metadataPathsRoot: Path)

  datatype SheetV1 = SheetV1(frames: seq<FrameV2>, animations: seq<AnimationV2>, exportSettings: Option<ExportSettingsV1>)
  datatype SheetV2 = SheetV2(frames: seq<FrameV2>, animations: seq<AnimationV2>, exportSettings: Option<ExportSettingsV2>)

  /** Tiger2's `ExportSettings::from` a Tiger1 one: the new root is the metadata destination. */
  function SettingsV1ToV2(prev: ExportSettingsV1): (r: ExportSettingsV2)
    ensures r.templateFile == prev.templateFile && r.textureDestination == prev.textureDestination
    ensures r.metadataDestination == r.metadataPathsRoot == prev.metadataDestination
  {
    ExportSettingsV2(prev.templateFile, prev.textureDestination, prev.metadataDestination, prev.metadataDestination)
  }

  /** Tiger2's `Sheet::from` a Tiger1 sheet: frames and animations carry over unchanged. */
  function SheetV1ToV2(prev: SheetV1): (r: SheetV2)
    ensures r.frames == prev.frames && r.animations == prev.animations
    ensures r.exportSettings.Some? <==> prev.exportSettings.Some?
    ensures prev.exportSettings.Some? ==> r.exportSettings.value == SettingsV1ToV2(prev.exportSettings.value)
  {
    SheetV2(prev.frames, prev.animations, if prev.exportSettings.Some? then Some(SettingsV1ToV2(prev.exportSettings.value)) else None)
  }

  // ----- Tiger3: hitboxes belong to keyframes -----

  datatype HitboxV3 = HitboxV3(name: string, geometry: Rectangle, linked: bool, locked: bool)
  datatype FrameV3 = FrameV3(source: Path)
  datatype KeyframeV3 = KeyframeV3(frame: Path, hitboxes: seq<HitboxV3>, duration: nat, offset: Vec2)
  datatype AnimationV3 = AnimationV3(name: string, timeline: seq<KeyframeV3>, isLooping: bool)
  datatype SheetV3 = SheetV3(frames: seq<FrameV3>, animations: seq<AnimationV3>, exportSettings: Option<ExportSettingsV2>)

  /** Tiger3's `ExportSettings::from` a Tiger2 one: the stored root is replaced by the metadata destination. */
  function SettingsV2ToV3(prev: ExportSettingsV2): (r: ExportSettingsV2)
    ensures r.templateFile == prev.templateFile && r.textureDestination == prev.textureDestination
    ensures r.metadataDestination == r.metadataPathsRoot == prev.metadataDestination
  {
    prev.(metadataPathsRoot := prev.metadataDestination)
  }

  /** A keyframe starts Tiger3 with no hitboxes. */
  function KeyframeV2ToV3(prev: KeyframeV2): (r: KeyframeV3)
    ensures r.frame == prev.frame && r.duration == prev.duration && r.offset == prev.offset && r.hitboxes == []
  {
    KeyframeV3(prev.frame, [], prev.duration, prev.offset)
  }

  function AnimationsV2ToV3(prev: seq<AnimationV2>): (r: seq<AnimationV3>)
    ensures |r| == |prev|
    ensures forall a :: 0 <= a < |prev| ==>
      r[a].name == prev[a].name && r[a].isLooping == prev[a].isLooping && |r[a].timeline| == |prev[a].timeline|
      && forall j :: 0 <= j < |prev[a].timeline| ==> r[a].timeline[j] == KeyframeV2ToV3(prev[a].timeline[j])
  {
    seq(|prev|, a requires 0 <= a < |prev| =>
      AnimationV3(prev[a].name, seq(|prev[a].timeline|, j requires 0 <= j < |prev[a].timeline| => KeyframeV2ToV3(prev[a].timeline[j])), prev[a].isLooping))
  }

  /** A frame's hitbox as it lands on a keyframe showing that frame: moved by the keyframe's offset, linked and unlocked. */
  function Moved(h: HitboxV2, offset: Vec2): (r: HitboxV3)
    ensures r.name == h.name && r.geometry.size == h.geometry.size
    ensures r.geometry.topLeft == Vec2(h.geometry.topLeft.x + offset.x, h.geometry.topLeft.y + offset.y)
    ensures r.linked && !r.locked
  {
    HitboxV3(h.name, Rectangle(h.geometry.topLeft.Plus(offset), h.geometry.size), true, false)
  }

  function MovedAll(hs: seq<HitboxV2>, offset: Vec2): (r: seq<HitboxV3>)
    ensures |r| == |hs| && forall i :: 0 <= i < |hs| ==> r[i] == Moved(hs[i], offset)
  {
    seq(|hs|, i requires 0 <= i < |hs| => Moved(hs[i], offset))
  }

  /**
   * The reference for the hitbox migration: the hitboxes of every frame whose
   * source is `source`, in frame order and each frame's hitbox order, moved
   * by `offset`.
   */
  function FrameHitboxes(frames: seq<FrameV2>, source: Path, offset: Vec2): (r: seq<HitboxV3>)
    ensures (forall f :: f in frames ==> f.source != source) ==> r == []
    decreases |frames|
  {
    if frames == [] then []
    else
      var last := frames[|frames| - 1];
      assert forall f :: f in frames[..|frames| - 1] ==> f in frames;
      FrameHitboxes(frames[..|frames| - 1], source, offset) + (if last.source == source then MovedAll(last.hitboxes, offset) else [])
  }

  // The loop nest of the migration, one step at a time: for each frame, for
  // each of its hitboxes, for each animation, for each keyframe.

  /** The innermost step: a keyframe showing `source` gets `h` pushed, moved by its offset. */
  function Pushed(k: KeyframeV3, source: Path, h: HitboxV2): KeyframeV3 {
    if k.frame == source then k.(hitboxes := k.hitboxes + [Moved(h, k.offset)]) else k
  }

  function PushedToTimeline(timeline: seq<KeyframeV3>, source: Path, h: HitboxV2): seq<KeyframeV3> {
    seq(|timeline|, j requires 0 <= j < |timeline| => Pushed(timeline[j], source, h))
  }

  function PushedToAnimations(anims: seq<AnimationV3>, source: Path, h: HitboxV2): seq<AnimationV3> {
    seq(|anims|, a requires 0 <= a < |anims| => anims[a].(timeline := PushedToTimeline(anims[a].timeline, source, h)))
  }

  function HitboxesPushed(anims: seq<AnimationV3>, source: Path, hs: seq<HitboxV2>): seq<AnimationV3>
    decreases |hs|
  {
    if hs == [] then anims
    else PushedToAnimations(HitboxesPushed(anims, source, hs[..|hs| - 1]), source, hs[|hs| - 1])
  }

  function HitboxesMigrated(anims: seq<AnimationV3>, frames: seq<FrameV2>): seq<AnimationV3>
    decreases |frames|
  {
    if frames == [] then anims
    else
      var last := frames[|frames| - 1];
      HitboxesPushed(HitboxesMigrated(anims, frames[..|frames| - 1]), last.source, last.hitboxes)
  }

  /** Same animations, same keyframes; only hitboxes may differ. */
  predicate SameTimelines(before: seq<AnimationV3>, after: seq<AnimationV3>) {
    && |after| == |before|
    && forall a :: 0 <= a < |before| ==>
      && after[a].name == before[a].name
      && after[a].isLooping == before[a].isLooping
      && |after[a].timeline| == |before[a].timeline|
      && forall j :: 0 <= j < |before[a].timeline| ==>
        && after[a].timeline[j].frame == before[a].timeline[j].frame
        && after[a].timeline[j].duration == before[a].timeline[j].duration
        && after[a].timeline[j].offset == before[a].timeline[j].offset
  }

  lemma SameTimelinesTransitive(a: seq<AnimationV3>, b: seq<AnimationV3>, c: seq<AnimationV3>)
    requires SameTimelines(a, b) && SameTimelines(b, c)
    ensures SameTimelines(a, c)
  {
  }

  /** Pushing the hitboxes of one frame appends them, moved, to each keyframe showing it. */
  lemma {:induction false} HitboxesPushedAppends(anims: seq<AnimationV3>, source: Path, hs: seq<HitboxV2>)
    ensures SameTimelines(anims, HitboxesPushed(anims, source, hs))
    ensures forall a, j :: 0 <= a < |anims| && 0 <= j < |anims[a].timeline| ==>
      var k := anims[a].timeline[j];
      HitboxesPushed(anims, source, hs)[a].timeline[j].hitboxes
        == k.hitboxes + (if k.frame == source then MovedAll(hs, k.offset) else [])
    decreases |hs|
  {
    if hs != [] {
      var init := hs[..|hs| - 1];
      HitboxesPushedAppends(anims, source, init);
      var before := HitboxesPushed(anims, source, init);
      forall a, j | 0 <= a < |anims| && 0 <= j < |anims[a].timeline|
        ensures var k := anims[a].timeline[j];
          HitboxesPushed(anims, source, hs)[a].timeline[j].hitboxes
            == k.hitboxes + (if k.frame == source then MovedAll(hs, k.offset) else [])
      {
        var k := anims[a].timeline[j];
        if k.frame == source {
          assert MovedAll(hs, k.offset) == MovedAll(init, k.offset) + [Moved(hs[|hs| - 1], k.offset)];
        }
      }
    }
  }

  /** The migration loop nest computes the reference: each keyframe gains `FrameHitboxes` of its frame. */
  lemma {:induction false} HitboxesMigratedAppends(anims: seq<AnimationV3>, frames: seq<FrameV2>)
    ensures SameTimelines(anims, HitboxesMigrated(anims, frames))
    ensures forall a, j :: 0 <= a < |anims| && 0 <= j < |anims[a].timeline| ==>
      var k := anims[a].timeline[j];
      HitboxesMigrated(anims, frames)[a].timeline[j].hitboxes == k.hitboxes + FrameHitboxes(frames, k.frame, k.offset)
    decreases |frames|
  {
    if frames != [] {
      var init := frames[..|frames| - 1];
      var last := frames[|frames| - 1];
      HitboxesMigratedAppends(anims, init);
      var middle := HitboxesMigrated(anims, init);
      HitboxesPushedAppends(middle, last.source, last.hitboxes);
      var r := HitboxesMigrated(anims, frames);
      assert r == HitboxesPushed(middle, last.source, last.hitboxes);
      SameTimelinesTransitive(anims, middle, r);
      forall a, j | 0 <= a < |anims| && 0 <= j < |anims[a].timeline|
        ensures r[a].timeline[j].hitboxes == anims[a].timeline[j].hitboxes + FrameHitboxes(frames, anims[a].timeline[j].frame, anims[a].timeline[j].offset)
      {
        var k := anims[a].timeline[j];
        var m := middle[a].timeline[j];
        assert m.frame == k.frame && m.offset == k.offset;
        assert m.hitboxes == k.hitboxes + FrameHitboxes(init, k.frame, k.offset);
        assert r[a].timeline[j].hitboxes == m.hitboxes + (if k.frame == last.source then MovedAll(last.hitboxes, k.offset) else []);
      }
    }
  }

  /**
   * Tiger3's `Sheet::from` a Tiger2 sheet: frames keep only their source,
   * animations and keyframes carry over, and each keyframe receives the
   * hitboxes of every frame with its source, moved by its offset.
   */
  function SheetV2ToV3(prev: SheetV2): (r: SheetV3)
    ensures |r.frames| == |prev.frames| && forall i :: 0 <= i < |prev.frames| ==> r.frames[i].source == prev.frames[i].source
    ensures |r.animations| == |prev.animations|
    ensures forall a :: 0 <= a < |prev.animations| ==>
      && r.animations[a].name == prev.animations[a].name
      && r.animations[a].isLooping == prev.animations[a].isLooping
      && |r.animations[a].timeline| == |prev.animations[a].timeline|
    ensures forall a, j :: 0 <= a < |prev.animations| && 0 <= j < |prev.animations[a].timeline| ==>
      var k := prev.animations[a].timeline[j];
      r.animations[a].timeline[j] == KeyframeV3(k.frame, FrameHitboxes(prev.frames, k.frame, k.offset), k.duration, k.offset)
    ensures r.exportSettings.Some? <==> prev.exportSettings.Some?
    ensures prev.exportSettings.Some? ==> r.exportSettings.value == SettingsV2ToV3(prev.exportSettings.value)
  {
    var converted := AnimationsV2ToV3(prev.animations);
    HitboxesMigratedAppends(converted, prev.frames);
    SheetV3(
      seq(|prev.frames|, i requires 0 <= i < |prev.frames| => FrameV3(prev.frames[i].source)),
      HitboxesMigrated(converted, prev.frames),
      if prev.exportSettings.Some? then Some(SettingsV2ToV3(prev.exportSettings.value)) else None)
  }

  /** A frame with no hitboxes contributes nothing to any keyframe. */
  lemma {:induction false} FramesWithoutHitboxesAddNothing(frames: seq<FrameV2>, source: Path, offset: Vec2)
    requires forall f :: f in frames ==> f.hitboxes == []
    ensures FrameHitboxes(frames, source, offset) == []
    decreases |frames|
  {
    if frames != [] {
      assert forall f :: f in frames[..|frames| - 1] ==> f in frames;
      FramesWithoutHitboxesAddNothing(frames[..|frames| - 1], source, offset);
      assert frames[|frames| - 1] in frames;
    }
  }

  /** The innermost loop, over the keyframes of one animation. */
  method PushToTimeline(timeline: seq<KeyframeV3>, source: Path, h: HitboxV2) returns (r: seq<KeyframeV3>)
    ensures r == PushedToTimeline(timeline, source, h)
  {
    r := timeline;
    var j := 0;
    while j < |r|
      invariant 0 <= j <= |r| == |timeline|
      invariant forall i :: 0 <= i < j ==> r[i] == Pushed(timeline[i], source, h)
      invariant forall i :: j <= i < |r| ==> r[i] == timeline[i]
    {
      if r[j].frame == source {
        r := r[j := r[j].(hitboxes := r[j].hitboxes + [Moved(h, r[j].offset)])];
      }
      j := j + 1;
    }
  }

  /** The loop over the animations, for one hitbox of one frame. */
  method PushToAnimations(anims: seq<AnimationV3>, source: Path, h: HitboxV2) returns (r: seq<AnimationV3>)
    ensures r == PushedToAnimations(anims, source, h)
  {
    r := anims;
    var a := 0;
    while a < |r|
      invariant 0 <= a <= |r| == |anims|
      invariant forall i :: 0 <= i < a ==> r[i] == anims[i].(timeline := PushedToTimeline(anims[i].timeline, source, h))
      invariant forall i :: a <= i < |r| ==> r[i] == anims[i]
    {
      var timeline := PushToTimeline(r[a].timeline, source, h);
      r := r[a := r[a].(timeline := timeline)];
      a := a + 1;
    }
  }

  /** The two outer loops of the migration, over the frames and their hitboxes. */
  method MigrateHitboxes(frames: seq<FrameV2>, anims: seq<AnimationV3>) returns (r: seq<AnimationV3>)
    ensures r == HitboxesMigrated(anims, frames)
  {
    r := anims;
    var i := 0;
    while i < |frames|
      invariant 0 <= i <= |frames|
      invariant r == HitboxesMigrated(anims, frames[..i])
    {
      var frame := frames[i];
      ghost var before := r;
      var k := 0;
      while k < |frame.hitboxes|
        invariant 0 <= k <= |frame.hitboxes|
        invariant r == HitboxesPushed(before, frame.source, frame.hitboxes[..k])
      {
        assert frame.hitboxes[..k + 1][..k] == frame.hitboxes[..k];
        r := PushToAnimations(r, frame.source, frame.hitboxes[k]);
        k := k + 1;
      }
      assert frame.hitboxes[..k] == frame.hitboxes;
      assert frames[..i + 1][..i] == frames[..i];
      i := i + 1;
    }
    assert frames[..i] == frames;
  }

  /** Tiger3's `Sheet::from`, with the migration loops of the source. */
  method UpgradeV2ToV3(prev: SheetV2) returns (r: SheetV3)
    ensures r == SheetV2ToV3(prev)
  {
    var animations := MigrateHitboxes(prev.frames, AnimationsV2ToV3(prev.animations));
    var frames := seq(|prev.frames|, i requires 0 <= i < |prev.frames| => FrameV3(prev.frames[i].source));
    var settings := if prev.exportSettings.Some? then Some(SettingsV2ToV3(prev.exportSettings.value)) else None;
    r := SheetV3(frames, animations, settings);
  }

  // ----- Tiger4: animations by name, sequences by direction -----

  function HitboxPairs(hs: seq<HitboxV3>): (r: seq<(string, Hitbox)>)
    ensures |r| == |hs| && forall i :: 0 <= i < |hs| ==> r[i] == (hs[i].name, Hitbox(hs[i].geometry))
  {
    seq(|hs|, i requires 0 <= i < |hs| => (hs[i].name, Hitbox(hs[i].geometry)))
  }

  /** Tiger4's hitbox map: each hitbox by its name, keeping only its geometry. */
  function HitboxesByName(hs: seq<HitboxV3>): (r: map<string, Hitbox>)
    ensures forall n :: n in r <==> exists i :: 0 <= i < |hs| && hs[i].name == n
  {
    Collected(HitboxPairs(hs))
  }

  /** Tiger4's `Keyframe::from`: hitboxes by name, dropping their linked and locked flags. */
  function KeyframeV3ToV4(prev: KeyframeV3): (r: Keyframe)
    ensures r.frame == prev.frame && r.durationMillis == prev.duration && r.offset == prev.offset
    ensures forall n :: n in r.hitboxes <==> exists i :: 0 <= i < |prev.hitboxes| && prev.hitboxes[i].name == n
  {
    Keyframe(prev.frame, HitboxesByName(prev.hitboxes), prev.duration, prev.offset)
  }

  /** Tiger4's `Animation::from`: the timeline becomes the one sequence, facing East. */
  function AnimationV3ToV4(prev: AnimationV3): (r: Animation)
    ensures r.sequences.Keys == {East} && r.isLooping == prev.isLooping
    ensures |r.sequences[East].keyframes| == |prev.timeline|
    ensures forall j :: 0 <= j < |prev.timeline| ==> r.sequences[East].keyframes[j] == KeyframeV3ToV4(prev.timeline[j])
  {
    Animation(map[East := Sequence(seq(|prev.timeline|, j requires 0 <= j < |prev.timeline| => KeyframeV3ToV4(prev.timeline[j])))], prev.isLooping)
  }

  /** Tiger4's `ExportSettings::from`: Liquid settings, with the metadata destination as the root. */
  function SettingsV3ToV4(prev: ExportSettingsV2): (r: ExportSettings)
    ensures r.settings.templateFile == prev.templateFile && r.settings.textureFile == prev.textureDestination
    ensures r.settings.metadataFile == r.settings.metadataPathsRoot == prev.metadataDestination
  {
    Liquid(LiquidExportSettings(prev.templateFile, prev.textureDestination, prev.metadataDestination, prev.metadataDestination))
  }

  function AnimationPairs(anims: seq<AnimationV3>): (r: seq<(string, Animation)>)
    ensures |r| == |anims| && forall i :: 0 <= i < |anims| ==> r[i] == (anims[i].name, AnimationV3ToV4(anims[i]))
  {
    seq(|anims|, i requires 0 <= i < |anims| => (anims[i].name, AnimationV3ToV4(anims[i])))
  }

  /**
   * Tiger4's `Sheet::from` a Tiger3 sheet: frames carry over, animations are
   * collected by name (a later animation replaces an earlier one of the same
   * name), and each faces East only.
   */
  function SheetV3ToV4(prev: SheetV3): (r: Sheet)
    ensures Sources(r.frames) == seq(|prev.frames|, i requires 0 <= i < |prev.frames| => prev.frames[i].source)
    ensures forall n :: n in r.animations <==> exists i :: 0 <= i < |prev.animations| && prev.animations[i].name == n
    ensures forall n :: n in r.animations ==> r.animations[n].sequences.Keys == {East}
    ensures r.exportSettings.Some? <==> prev.exportSettings.Some?
    ensures prev.exportSettings.Some? ==> r.exportSettings.value == SettingsV3ToV4(prev.exportSettings.value)
  {
    var frames := seq(|prev.frames|, i requires 0 <= i < |prev.frames| => Frame(prev.frames[i].source));
    var pairs := AnimationPairs(prev.animations);
    var animations := Collected(pairs);
    forall n | n in animations
      ensures animations[n].sequences.Keys == {East}
    {
      var i :| 0 <= i < |pairs| && pairs[i].0 == n;
      var last := LastWithKey(pairs, i);
      CollectedLastWins(pairs, last);
    }
    assert Sources(frames) == seq(|prev.frames|, i requires 0 <= i < |prev.frames| => prev.frames[i].source);
    Sheet(frames, animations, if prev.exportSettings.Some? then Some(SettingsV3ToV4(prev.exportSettings.value)) else None)
  }

  /** Of several Tiger3 animations sharing a name, the last one is the one Tiger4 keeps. */
  lemma LastAnimationOfANameWins(prev: SheetV3, i: nat)
    requires i < |prev.animations|
    requires forall j :: i < j < |prev.animations| ==> prev.animations[j].name != prev.animations[i].name
    ensures var r := SheetV3ToV4(prev);
      prev.animations[i].name in r.animations && r.animations[prev.animations[i].name] == AnimationV3ToV4(prev.animations[i])
  {
    CollectedLastWins(AnimationPairs(prev.animations), i);
  }

  /** Of several hitboxes of a keyframe sharing a name, the last one is the one Tiger4 keeps. */
  lemma LastHitboxOfANameWins(prev: KeyframeV3, i: nat)
    requires i < |prev.hitboxes|
    requires forall j :: i < j < |prev.hitboxes| ==> prev.hitboxes[j].name != prev.hitboxes[i].name
    ensures var r := KeyframeV3ToV4(prev);
      prev.hitboxes[i].name in r.hitboxes && r.hitboxes[prev.hitboxes[i].name] == Hitbox(prev.hitboxes[i].geometry)
  {
    CollectedLastWins(HitboxPairs(prev.hitboxes), i);
  }

  // ----- Reading any version -----

  /** A sheet file as read from disk, tagged with the version it declares. */
  datatype StoredSheet =
    | Tiger1(v1: SheetV1)
    | Tiger2(v2: SheetV2)
    | Tiger3(v3: SheetV3)
    | Tiger4(v4: Sheet)

  /** Tiger2's `read_file`: a Tiger1 file is converted, a Tiger2 file taken as it is. */
  function ReadAsV2(stored: StoredSheet): (r: SheetV2)
    requires stored.Tiger1? || stored.Tiger2?
    ensures stored.Tiger2? ==> r == stored.v2
    ensures stored.Tiger1? ==> r.frames == stored.v1.frames && r.animations == stored.v1.animations
  {
    if stored.Tiger2? then stored.v2 else SheetV1ToV2(stored.v1)
  }

  /** Tiger3's `read_file`. */
  function ReadAsV3(stored: StoredSheet): (r: SheetV3)
    requires !stored.Tiger4?
    ensures stored.Tiger3? ==> r == stored.v3
    ensures !stored.Tiger3? ==> r == SheetV2ToV3(ReadAsV2(stored))
  {
    if stored.Tiger3? then stored.v3 else SheetV2ToV3(ReadAsV2(stored))
  }

  /** Tiger4's `read_file`: a current file is taken as it is, an older one upgraded step by step. */
  function ReadSheet(stored: StoredSheet): (r: Sheet)
    ensures stored.Tiger4? ==> r == stored.v4
    ensures !stored.Tiger4? ==> forall n :: n in r.animations ==> r.animations[n].sequences.Keys == {East}
    ensures !stored.Tiger4? ==> r == SheetV3ToV4(ReadAsV3(stored))
  {
    if stored.Tiger4? then stored.v4 else SheetV3ToV4(ReadAsV3(stored))
  }

  /**
   * Whatever root an older file stored, reading it sets the metadata paths
   * root to the metadata destination.
   */
  lemma ReadingOlderFileResetsPathsRoot(stored: StoredSheet)
    requires !stored.Tiger4?
    requires ReadSheet(stored).exportSettings.Some?
    ensures var s := ReadSheet(stored).exportSettings.value.settings;
      s.metadataPathsRoot == s.metadataFile
  {
  }

  /** A Tiger2 file's animation names survive the reading, and its frames stay in order. */
  lemma ReadingTiger2KeepsNamesAndFrames(prev: SheetV2)
    ensures var r := ReadSheet(Tiger2(prev));
      && (forall n :: n in r.animations <==> exists i :: 0 <= i < |prev.animations| && prev.animations[i].name == n)
      && Sources(r.frames) == seq(|prev.frames|, i requires 0 <= i < |prev.frames| => prev.frames[i].source)
  {
    var v3 := SheetV2ToV3(prev);
    assert forall i :: 0 <= i < |prev.animations| ==> v3.animations[i].name == prev.animations[i].name;
    assert seq(|v3.frames|, i requires 0 <= i < |v3.frames| => v3.frames[i].source)
      == seq(|prev.frames|, i requires 0 <= i < |prev.frames| => prev.frames[i].source);
  }

  // ----- The 0.5.0 to 1.0.0 conversion -----

  datatype TemplateExportSettings = TemplateExportSettings(
    templateFile: Path, atlasImageFile: Path, metadataFile: Path, metadataPathsRoot: Path)

  /** The 0.5.0 and 1.0.0 formats share this shape. */
  datatype TemplateSheet = TemplateSheet(
    frames: seq<Frame>, animations: map<string, Animation>, exportSettings: Option<TemplateExportSettings>)

  function KeyframeFrom050(prev: Keyframe): Keyframe {
    Keyframe(prev.frame, map n | n in prev.hitboxes :: Hitbox(prev.hitboxes[n].geometry), prev.durationMillis, prev.offset)
  }

  function SequenceFrom050(prev: Sequence): Sequence {
    Sequence(seq(|prev.keyframes|, k requires 0 <= k < |prev.keyframes| => KeyframeFrom050(prev.keyframes[k])))
  }

  function AnimationFrom050(prev: Animation): Animation {
    Animation(map d | d in prev.sequences :: SequenceFrom050(prev.sequences[d]), prev.isLooping)
  }

  /**
   * 1.0.0's `Sheet::from` a 0.5.0 sheet, field by field: frames, animations
   * and their sequences, keyframes and hitboxes, and the template export
   * settings, root included. Nothing is lost or changed.
   */
  function SheetFrom050(prev: TemplateSheet): (r: TemplateSheet)
    ensures r == prev
  {
    var frames := seq(|prev.frames|, i requires 0 <= i < |prev.frames| => Frame(prev.frames[i].source));
    var animations := map n | n in prev.animations :: AnimationFrom050(prev.animations[n]);
    var settings :=
      if prev.exportSettings.Some? then
        var s := prev.exportSettings.value;
        Some(TemplateExportSettings(s.templateFile, s.atlasImageFile, s.metadataFile, s.metadataPathsRoot))
      else None;
    AnimationsFrom050Unchanged(prev.animations);
    assert frames == prev.frames;
    TemplateSheet(frames, animations, settings)
  }

  lemma AnimationsFrom050Unchanged(animations: map<string, Animation>)
    ensures (map n | n in animations :: AnimationFrom050(animations[n])) == animations
  {
    forall n | n in animations
      ensures AnimationFrom050(animations[n]) == animations[n]
    {
      var a := animations[n];
      forall d | d in a.sequences
        ensures SequenceFrom050(a.sequences[d]) == a.sequences[d]
      {
        var s := a.sequences[d];
        forall k | 0 <= k < |s.keyframes|
          ensures KeyframeFrom050(s.keyframes[k]) == s.keyframes[k]
        {
          var kf := s.keyframes[k];
          assert (map h | h in kf.hitboxes :: Hitbox(kf.hitboxes[h].geometry)) == kf.hitboxes;
        }
      }
    }
  }
}
