/**
 * The sprite sheet being edited: a list of frames (image files, unique by
 * path), animations keyed by name, each holding one sequence of keyframes per
 * direction, and optional export settings.
 *
 * A sheet is a value: the editor clones it into every undo entry and compares
 * whole sheets for equality, so each in-place mutator of the source is a
 * function here that returns the updated sheet.
 */
module Sheets {
  import opened Wrappers
  import opened Names

  type Path = string

  datatype Vec2 = Vec2(x: int, y: int) {
    function Plus(other: Vec2): Vec2 {
      Vec2(x + other.x, y + other.y)
    }
  }

  datatype Size = Size(width: nat, height: nat)

  datatype Direction = East | NorthEast | North | NorthWest | West | SouthWest | South | SouthEast

  /** Declaration order, which is also the derived `Ord` and the enum iteration order. */
  const AllDirections: seq<Direction> :=
    [East, NorthEast, North, NorthWest, West, SouthWest, South, SouthEast]

  function DirectionRank(d: Direction): (r: nat)
    ensures r < |AllDirections| && AllDirections[r] == d
  {
    match d
    case East => 0
    case NorthEast => 1
    case North => 2
    case NorthWest => 3
    case West => 4
    case SouthWest => 5
    case South => 6
    case SouthEast => 7
  }

  predicate DirectionLe(a: Direction, b: Direction) {
    DirectionRank(a) <= DirectionRank(b)
  }

  datatype DirectionPreset = FourDirections | EightDirections | LeftRight | UpDown | Isometric | FixedAngle

  const AllPresets: seq<DirectionPreset> :=
    [FourDirections, EightDirections, LeftRight, UpDown, Isometric, FixedAngle]

  function PresetDirections(preset: DirectionPreset): set<Direction> {
    match preset
    case FourDirections => {North, South, East, West}
    case EightDirections => {East, NorthEast, North, NorthWest, West, SouthWest, South, SouthEast}
    case LeftRight => {East, West}
    case UpDown => {North, South}
    case Isometric => {NorthEast, NorthWest, SouthWest, SouthEast}
    case FixedAngle => {North}
  }

  /** The first preset, in declaration order from `from`, whose directions are exactly `directions`. */
  function PresetFrom(directions: set<Direction>, from: nat): (r: Option<DirectionPreset>)
    requires from <= |AllPresets|
    ensures r.Some? ==> PresetDirections(r.value) == directions
    ensures r.None? ==> forall k :: from <= k < |AllPresets| ==> PresetDirections(AllPresets[k]) != directions
    decreases |AllPresets| - from
  {
    if from == |AllPresets| then None
    else if PresetDirections(AllPresets[from]) == directions then Some(AllPresets[from])
    else PresetFrom(directions, from + 1)
  }

  /** `DirectionPreset::from_directions`: recognise a set of directions as a preset. */
  function FromDirections(directions: set<Direction>): (r: Option<DirectionPreset>)
    ensures r.Some? ==> PresetDirections(r.value) == directions
    ensures r.None? ==> forall p: DirectionPreset :: PresetDirections(p) != directions
  {
    var r := PresetFrom(directions, 0);
    if r.None? then
      assert forall p: DirectionPreset :: p == AllPresets[PresetIndex(p)];
      r
    else r
  }

  function PresetIndex(p: DirectionPreset): (k: nat)
    ensures k < |AllPresets| && AllPresets[k] == p
  {
    match p
    case FourDirections => 0
    case EightDirections => 1
    case LeftRight => 2
    case UpDown => 3
    case Isometric => 4
    case FixedAngle => 5
  }

  /** No two presets cover the same directions, so recognition is unambiguous. */
  lemma PresetDirectionsInjective(p: DirectionPreset, q: DirectionPreset)
    requires PresetDirections(p) == PresetDirections(q)
    ensures p == q
  {
    var dp, dq := PresetDirections(p), PresetDirections(q);
    assert (North in dp) == (North in dq);
    assert (East in dp) == (East in dq);
    assert (NorthEast in dp) == (NorthEast in dq);
    assert (South in dp) == (South in dq);
  }

  lemma FromPresetDirections(p: DirectionPreset)
    ensures FromDirections(PresetDirections(p)) == Some(p)
  {
    var r := FromDirections(PresetDirections(p));
    PresetDirectionsInjective(r.value, p);
  }

  // ----- Entities -----

  datatype Rectangle = Rectangle(topLeft: Vec2, size: Size)

  /** A named rectangle attached to a keyframe (the source's only `Shape` is a rectangle). */
  datatype Hitbox = Hitbox(geometry: Rectangle) {
    function Position(): Vec2 {
      geometry.topLeft
    }

    function Extent(): Size {
      geometry.size
    }

    /** `Hitbox::set_position`. */
    function SetPosition(p: Vec2): (h: Hitbox)
      ensures h.Position() == p && h.Extent() == Extent()
    {
      Hitbox(Rectangle(p, geometry.size))
    }

    /** `Hitbox::set_size`. */
    function SetSize(s: Size): (h: Hitbox)
      ensures h.Extent() == s && h.Position() == Position()
    {
      Hitbox(Rectangle(geometry.topLeft, s))
    }
  }

  /** `Hitbox::new`: a 20 by 20 square centred on the origin. */
  function NewHitbox(): (h: Hitbox)
    ensures h.Position().x + h.Extent().width as int == -h.Position().x
    ensures h.Position().y + h.Extent().height as int == -h.Position().y
    ensures h.Extent() == Size(20, 20)
  {
    Hitbox(Rectangle(Vec2(-10, -10), Size(20, 20)))
  }

  datatype Keyframe = Keyframe(frame: Path, hitboxes: map<string, Hitbox>, durationMillis: nat, offset: Vec2)

  const DefaultKeyframeDurationMillis: nat := 100

  /** `Keyframe::new`. */
  function NewKeyframe(frame: Path): (k: Keyframe)
    ensures k.frame == frame && k.hitboxes == map[]
    ensures k.durationMillis == DefaultKeyframeDurationMillis && k.offset == Vec2(0, 0)
  {
    Keyframe(frame, map[], DefaultKeyframeDurationMillis, Vec2(0, 0))
  }

  datatype Sequence = Sequence(keyframes: seq<Keyframe>)

  datatype Animation = Animation(sequences: map<Direction, Sequence>, isLooping: bool)

  /** `Animation::default()`: no sequences, not looping. */
  const EmptyAnimation: Animation := Animation(map[], false)

  datatype Frame = Frame(source: Path)

  datatype LiquidExportSettings = LiquidExportSettings(
    templateFile: Path, textureFile: Path, metadataFile: Path, metadataPathsRoot: Path)

  datatype ExportSettings = Liquid(settings: LiquidExportSettings)

  /** `ExportSettings::new`: Liquid settings with every path empty. */
  const DefaultExportSettings: ExportSettings := Liquid(LiquidExportSettings("", "", "", ""))

  datatype Sheet = Sheet(frames: seq<Frame>, animations: map<string, Animation>, exportSettings: Option<ExportSettings>)

  const EmptySheet: Sheet := Sheet([], map[], None)

  datatype SheetError =
    | AnimationNotFound(name: string)
    | AnimationNameAlreadyExists(name: string)
    | HitboxNotFound(name: string)
    | HitboxNameAlreadyExists(name: string)
    | InvalidFrameIndex(index: nat)
    | RelativePath(path: Path)

  // ----- Frames -----

  function Sources(frames: seq<Frame>): (r: seq<Path>)
    ensures |r| == |frames| && forall i :: 0 <= i < |frames| ==> r[i] == frames[i].source
  {
    if frames == [] then [] else Sources(frames[..|frames| - 1]) + [frames[|frames| - 1].source]
  }

  predicate HasFrame(sheet: Sheet, path: Path) {
    path in Sources(sheet.frames)
  }

  /** No two frames of the list share a source. */
  predicate UniqueSources(frames: seq<Frame>) {
    forall i, j :: 0 <= i < j < |frames| ==> frames[i].source != frames[j].source
  }

  /** `Sheet::add_frame`: append a frame for `path` unless one is already there. */
  function AddFrame(sheet: Sheet, path: Path): (r: Sheet)
    ensures HasFrame(r, path)
    ensures r.animations == sheet.animations && r.exportSettings == sheet.exportSettings
    ensures HasFrame(sheet, path) ==> r == sheet
    ensures !HasFrame(sheet, path) ==> r.frames == sheet.frames + [Frame(path)]
  {
    if HasFrame(sheet, path) then sheet else sheet.(frames := sheet.frames + [Frame(path)])
  }

  lemma AddFrameIdempotent(sheet: Sheet, path: Path)
    ensures AddFrame(AddFrame(sheet, path), path) == AddFrame(sheet, path)
  {
  }

  lemma AddFrameKeepsSourcesUnique(sheet: Sheet, path: Path)
    requires UniqueSources(sheet.frames)
    ensures UniqueSources(AddFrame(sheet, path).frames)
  {
    if !HasFrame(sheet, path) {
      var fs := AddFrame(sheet, path).frames;
      forall i | 0 <= i < |sheet.frames|
        ensures fs[i].source != path
      {
        assert Sources(sheet.frames)[i] == sheet.frames[i].source;
      }
    }
  }

  /** `add_frame` for each path in turn, as a fold over the paths. */
  function FramesAdded(sheet: Sheet, paths: seq<Path>): Sheet {
    if paths == [] then sheet
    else AddFrame(FramesAdded(sheet, paths[..|paths| - 1]), paths[|paths| - 1])
  }

  /** `Sheet::add_frames`: `add_frame` for each path in turn. */
  method AddFrames(sheet: Sheet, paths: seq<Path>) returns (r: Sheet)
    ensures r == FramesAdded(sheet, paths)
    ensures r.animations == sheet.animations && r.exportSettings == sheet.exportSettings
    ensures |sheet.frames| <= |r.frames| && r.frames[..|sheet.frames|] == sheet.frames
    ensures forall p :: p in paths ==> HasFrame(r, p)
    ensures forall i :: |sheet.frames| <= i < |r.frames| ==> r.frames[i].source in paths
    ensures UniqueSources(sheet.frames) ==> UniqueSources(r.frames)
  {
    r := sheet;
    for n := 0 to |paths|
      invariant AddingFrames(sheet, paths, n, r)
    {
      AddingFramesStep(sheet, paths, n, r);
      r := AddFrame(r, paths[n]);
    }
    assert paths[..|paths|] == paths;
  }

  /** The state of the `add_frames` loop once the first `n` paths are added. */
  ghost predicate AddingFrames(sheet: Sheet, paths: seq<Path>, n: nat, r: Sheet) {
    && n <= |paths|
    && r == FramesAdded(sheet, paths[..n])
    && r.animations == sheet.animations && r.exportSettings == sheet.exportSettings
    && |sheet.frames| <= |r.frames| && r.frames[..|sheet.frames|] == sheet.frames
    && (forall p :: p in paths[..n] ==> HasFrame(r, p))
    && (forall i :: |sheet.frames| <= i < |r.frames| ==> r.frames[i].source in paths)
    && (UniqueSources(sheet.frames) ==> UniqueSources(r.frames))
  }

  /** One turn of the `add_frames` loop. */
  lemma AddingFramesStep(sheet: Sheet, paths: seq<Path>, n: nat, r: Sheet)
    requires n < |paths| && AddingFrames(sheet, paths, n, r)
    ensures AddingFrames(sheet, paths, n + 1, AddFrame(r, paths[n]))
  {
    if UniqueSources(sheet.frames) {
      AddFrameKeepsSourcesUnique(r, paths[n]);
    }
    var next := AddFrame(r, paths[n]);
    AddFrameGrows(r, paths[n]);
    assert next.frames[..|sheet.frames|] == r.frames[..|sheet.frames|];
    assert paths[..n + 1] == paths[..n] + [paths[n]];
    assert FramesAdded(sheet, paths[..n + 1]) == AddFrame(FramesAdded(sheet, paths[..n]), paths[n]) by {
      assert paths[..n + 1][..n] == paths[..n];
    }
  }

  /** Adding a frame keeps every frame there was, in place, and may only append one for `path`. */
  lemma AddFrameGrows(sheet: Sheet, path: Path)
    ensures var next := AddFrame(sheet, path);
      && |sheet.frames| <= |next.frames|
      && next.frames[..|sheet.frames|] == sheet.frames
      && (forall i :: |sheet.frames| <= i < |next.frames| ==> next.frames[i].source == path)
      && forall p :: HasFrame(sheet, p) ==> HasFrame(next, p)
  {
    var next := AddFrame(sheet, path);
    forall p | HasFrame(sheet, p)
      ensures HasFrame(next, p)
    {
      var i :| 0 <= i < |sheet.frames| && Sources(sheet.frames)[i] == p;
      assert Sources(next.frames)[i] == p;
    }
  }

  // ----- Animations -----

  predicate HasAnimation(sheet: Sheet, name: string) {
    name in sheet.animations
  }

  const NewAnimationBaseName: string := "New Animation"

  /**
   * `Sheet::create_animation`: insert an empty animation under the first free
   * name among "New Animation", "New Animation 2", "New Animation 3", ...
   */
  method CreateAnimation(sheet: Sheet) returns (name: string, r: Sheet)
    ensures name !in sheet.animations && name in r.animations
    ensures r.animations == sheet.animations[name := EmptyAnimation]
    ensures r.frames == sheet.frames && r.exportSettings == sheet.exportSettings
    ensures exists n :: 1 <= n && name == NumberedName(NewAnimationBaseName, n)
                        && forall j :: 1 <= j < n ==> NumberedName(NewAnimationBaseName, j) in sheet.animations
  {
    ghost var n;
    name, n := FreshName(NewAnimationBaseName, sheet.animations.Keys);
    r := sheet.(animations := sheet.animations[name := EmptyAnimation]);
  }

  /** Why a map entry could not be renamed. */
  datatype RenameFailure = TargetTaken | SourceMissing

  /**
   * The rename rule shared by animations (keyed by name in the sheet) and
   * hitboxes (keyed by name in a keyframe).
   */
  function RenameEntry<V>(m: map<string, V>, oldName: string, newName: string): (r: Result<map<string, V>, RenameFailure>)
    ensures oldName == newName ==> r == Ok(m)
    ensures oldName != newName && newName in m ==> r == Err(TargetTaken)
    ensures oldName != newName && newName !in m && oldName !in m ==> r == Err(SourceMissing)
    ensures oldName != newName && newName !in m && oldName in m ==> r.Ok?
    ensures r.Ok? && oldName != newName ==>
      && r.value.Keys == m.Keys - {oldName} + {newName}
      && oldName in m && r.value[newName] == m[oldName]
      && forall k :: k in m && k != oldName ==> r.value[k] == m[k]
  {
    if oldName == newName then Ok(m)
    else if newName in m then Err(TargetTaken)
    else if oldName !in m then Err(SourceMissing)
    else Ok((m - {oldName})[newName := m[oldName]])
  }

  /** Renaming there and back again restores the map. */
  lemma RenameEntryRoundTrip<V>(m: map<string, V>, a: string, b: string)
    requires RenameEntry(m, a, b).Ok?
    ensures RenameEntry(RenameEntry(m, a, b).value, b, a) == Ok(m)
  {
    if a != b {
      var m2 := RenameEntry(m, a, b).value;
      assert RenameEntry(m2, b, a).value == m;
    }
  }

  /** `Sheet::rename_animation`. */
  function RenameAnimation(sheet: Sheet, oldName: string, newName: string): (r: Result<Sheet, SheetError>)
    ensures oldName == newName ==> r == Ok(sheet)
    ensures oldName != newName && HasAnimation(sheet, newName) ==> r == Err(AnimationNameAlreadyExists(newName))
    ensures oldName != newName && !HasAnimation(sheet, newName) && !HasAnimation(sheet, oldName) ==>
      r == Err(AnimationNotFound(oldName))
    ensures oldName != newName && !HasAnimation(sheet, newName) && HasAnimation(sheet, oldName) ==> r.Ok?
    ensures r.Ok? ==> r.value.frames == sheet.frames && r.value.exportSettings == sheet.exportSettings
    ensures r.Ok? && oldName != newName ==>
      && HasAnimation(sheet, oldName) && !HasAnimation(r.value, oldName)
      && newName in r.value.animations && r.value.animations[newName] == sheet.animations[oldName]
      && forall n :: n != oldName && n != newName ==>
           (n in r.value.animations <==> n in sheet.animations)
           && (n in sheet.animations ==> r.value.animations[n] == sheet.animations[n])
  {
    match RenameEntry(sheet.animations, oldName, newName)
    case Ok(m) => Ok(sheet.(animations := m))
    case Err(TargetTaken) => Err(AnimationNameAlreadyExists(newName))
    case Err(SourceMissing) => Err(AnimationNotFound(oldName))
  }

  /** `Sheet::delete_animation`. */
  function DeleteAnimation(sheet: Sheet, name: string): (r: Sheet)
    ensures !HasAnimation(r, name)
    ensures r.frames == sheet.frames && r.exportSettings == sheet.exportSettings
    ensures forall n :: n != name ==> (n in r.animations <==> n in sheet.animations)
    ensures forall n :: n in r.animations ==> r.animations[n] == sheet.animations[n]
  {
    sheet.(animations := sheet.animations - {name})
  }

  // ----- Deleting a frame -----

  /** The frames not showing `path`, in their order: the reference for deleting a frame. */
  function FramesKept(frames: seq<Frame>, path: Path): seq<Frame> {
    if frames == [] then []
    else (if frames[0].source == path then [] else [frames[0]]) + FramesKept(frames[1..], path)
  }

  /** Keeping frames distributes over appending one more frame. */
  lemma {:induction false} FramesKeptAppend(frames: seq<Frame>, last: Frame, path: Path)
    ensures FramesKept(frames + [last], path) == FramesKept(frames, path) + (if last.source == path then [] else [last])
  {
    if frames != [] {
      assert (frames + [last])[1..] == frames[1..] + [last];
      FramesKeptAppend(frames[1..], last, path);
    }
  }

  function WithoutFrame(frames: seq<Frame>, path: Path): (r: seq<Frame>)
    ensures forall f :: f in r <==> f in frames && f.source != path
    ensures |r| <= |frames|
    ensures r == FramesKept(frames, path)
  {
    if frames == [] then []
    else
      var rest := WithoutFrame(frames[..|frames| - 1], path);
      var last := frames[|frames| - 1];
      assert forall f :: f in frames <==> f in frames[..|frames| - 1] || f == last;
      assert frames == frames[..|frames| - 1] + [last];
      FramesKeptAppend(frames[..|frames| - 1], last, path);
      if last.source == path then rest else rest + [last]
  }

  /** The keyframes that do not show `path`, in their original order. */
  function KeyframesKept(keyframes: seq<Keyframe>, path: Path): seq<Keyframe> {
    if keyframes == [] then []
    else (if keyframes[0].frame == path then [] else [keyframes[0]]) + KeyframesKept(keyframes[1..], path)
  }

  /** Keeping keyframes distributes over appending one more keyframe. */
  lemma {:induction false} KeyframesKeptAppend(keyframes: seq<Keyframe>, last: Keyframe, path: Path)
    ensures KeyframesKept(keyframes + [last], path)
         == KeyframesKept(keyframes, path) + (if last.frame == path then [] else [last])
  {
    if keyframes != [] {
      assert (keyframes + [last])[1..] == keyframes[1..] + [last];
      KeyframesKeptAppend(keyframes[1..], last, path);
    }
  }

  /** `r` is `s` with some elements left out and the others in the same order. */
  predicate IsSubsequence<T(==)>(r: seq<T>, s: seq<T>)
    decreases |s|
  {
    if r == [] then true
    else if s == [] then false
    else if r[0] == s[0] then IsSubsequence(r[1..], s[1..])
    else IsSubsequence(r, s[1..])
  }

  /** The kept keyframes are a subsequence of the original ones: the survivors keep their relative order. */
  lemma {:induction false} KeyframesKeptInOrder(keyframes: seq<Keyframe>, path: Path)
    ensures IsSubsequence(KeyframesKept(keyframes, path), keyframes)
    ensures forall k :: k in KeyframesKept(keyframes, path) ==> k.frame != path
  {
    if keyframes != [] {
      KeyframesKeptInOrder(keyframes[1..], path);
      var r := KeyframesKept(keyframes, path);
      if keyframes[0].frame != path {
        assert r[0] == keyframes[0] && r[1..] == KeyframesKept(keyframes[1..], path);
      } else {
        assert r == KeyframesKept(keyframes[1..], path);
        assert r != [] ==> r[0] in r;
      }
    }
  }

  function KeyframesWithout(keyframes: seq<Keyframe>, path: Path): (r: seq<Keyframe>)
    ensures forall k :: k in r <==> k in keyframes && k.frame != path
    ensures |r| <= |keyframes|
    ensures r == KeyframesKept(keyframes, path)
  {
    if keyframes == [] then []
    else
      var rest := KeyframesWithout(keyframes[..|keyframes| - 1], path);
      var last := keyframes[|keyframes| - 1];
      assert forall k :: k in keyframes <==> k in keyframes[..|keyframes| - 1] || k == last;
      assert keyframes == keyframes[..|keyframes| - 1] + [last];
      KeyframesKeptAppend(keyframes[..|keyframes| - 1], last, path);
      if last.frame == path then rest else rest + [last]
  }

  function AnimationWithoutFrame(animation: Animation, path: Path): Animation {
    animation.(sequences := map d | d in animation.sequences
                 :: Sequence(KeyframesWithout(animation.sequences[d].keyframes, path)))
  }

  /**
   * `Sheet::delete_frame`: drop the frame and, in every sequence of every
   * animation, every keyframe that shows it.
   */
  function DeleteFrame(sheet: Sheet, path: Path): (r: Sheet)
    ensures !HasFrame(r, path)
    ensures forall f :: f in r.frames <==> f in sheet.frames && f.source != path
    ensures r.frames == FramesKept(sheet.frames, path)
    ensures r.exportSettings == sheet.exportSettings
    ensures r.animations.Keys == sheet.animations.Keys
    ensures forall n :: n in r.animations ==>
      && r.animations[n].isLooping == sheet.animations[n].isLooping
      && r.animations[n].sequences.Keys == sheet.animations[n].sequences.Keys
      && forall d, k :: d in r.animations[n].sequences ==>
           (k in r.animations[n].sequences[d].keyframes <==>
              k in sheet.animations[n].sequences[d].keyframes && k.frame != path)
    ensures forall n, d :: n in r.animations && d in r.animations[n].sequences ==>
      r.animations[n].sequences[d].keyframes == KeyframesKept(sheet.animations[n].sequences[d].keyframes, path)
  {
    var r := Sheet(WithoutFrame(sheet.frames, path),
                   map n | n in sheet.animations :: AnimationWithoutFrame(sheet.animations[n], path),
                   sheet.exportSettings);
    assert forall i :: 0 <= i < |r.frames| ==> r.frames[i] in r.frames;
    r
  }

  // ----- Direction presets -----

  /** `Animation::direction_preset`. */
  function DirectionPresetOf(animation: Animation): Option<DirectionPreset> {
    FromDirections(animation.sequences.Keys)
  }

  /**
   * `Animation::apply_direction_preset`: keep the sequences of the preset's
   * directions, drop the others, and add an empty sequence for each missing one.
   */
  function ApplyDirectionPreset(animation: Animation, preset: DirectionPreset): (r: Animation)
    ensures r.sequences.Keys == PresetDirections(preset)
    ensures forall d :: d in r.sequences && d in animation.sequences ==> r.sequences[d] == animation.sequences[d]
    ensures forall d :: d in r.sequences && d !in animation.sequences ==> r.sequences[d] == Sequence([])
    ensures r.isLooping == animation.isLooping
  {
    animation.(sequences := map d | d in PresetDirections(preset)
                 :: if d in animation.sequences then animation.sequences[d] else Sequence([]))
  }

  lemma ApplyThenRecognisePreset(animation: Animation, preset: DirectionPreset)
    ensures DirectionPresetOf(ApplyDirectionPreset(animation, preset)) == Some(preset)
  {
    FromPresetDirections(preset);
  }

  // ----- Keyframe timing -----

  /** The half-open interval `start..end` of milliseconds. */
  datatype TimeRange = TimeRange(start: nat, end: nat)

  function RangesFrom(keyframes: seq<Keyframe>, start: nat): (r: seq<TimeRange>)
    ensures |r| == |keyframes|
    decreases |keyframes|
  {
    if keyframes == [] then []
    else [TimeRange(start, start + keyframes[0].durationMillis)]
         + RangesFrom(keyframes[1..], start + keyframes[0].durationMillis)
  }

  /** `Sequence::keyframe_time_ranges`. */
  function TimeRanges(sequence: Sequence): seq<TimeRange> {
    RangesFrom(sequence.keyframes, 0)
  }

  /** Sum of the keyframe durations. */
  function TotalMillis(keyframes: seq<Keyframe>): nat {
    if keyframes == [] then 0 else keyframes[0].durationMillis + TotalMillis(keyframes[1..])
  }

  /** Each range is as long as its keyframe. */
  lemma {:induction false} RangesFromDurations(keyframes: seq<Keyframe>, start: nat)
    ensures var r := RangesFrom(keyframes, start);
      forall i :: 0 <= i < |r| ==> r[i].end == r[i].start + keyframes[i].durationMillis
    decreases |keyframes|
  {
    if keyframes != [] {
      var d := keyframes[0].durationMillis;
      var r := RangesFrom(keyframes, start);
      var tail := RangesFrom(keyframes[1..], start + d);
      RangesFromDurations(keyframes[1..], start + d);
      assert r == [TimeRange(start, start + d)] + tail;
      forall i | 0 <= i < |r| ensures r[i].end == r[i].start + keyframes[i].durationMillis {
        if i > 0 {
          assert r[i] == tail[i - 1];
          assert keyframes[i] == keyframes[1..][i - 1];
        }
      }
    }
  }

  /** Range `i` ends where range `i + 1` starts. */
  lemma {:induction false} RangesFromAdjacent(keyframes: seq<Keyframe>, start: nat, i: nat)
    requires i + 1 < |keyframes|
    ensures RangesFrom(keyframes, start)[i].end == RangesFrom(keyframes, start)[i + 1].start
    decreases i
  {
    var d := keyframes[0].durationMillis;
    var r := RangesFrom(keyframes, start);
    var k := keyframes[1..];
    var tail := RangesFrom(k, start + d);
    assert r == [TimeRange(start, start + d)] + tail;
    if i == 0 {
      assert tail[0] == TimeRange(start + d, start + d + k[0].durationMillis);
    } else {
      RangesFromAdjacent(k, start + d, i - 1);
      assert r[i] == tail[i - 1] && r[i + 1] == tail[i];
    }
  }

  /** The first range starts at `start` and the last ends after the total duration. */
  lemma {:induction false} RangesFromEnds(keyframes: seq<Keyframe>, start: nat)
    ensures var r := RangesFrom(keyframes, start);
      |r| > 0 ==> r[0].start == start && r[|r| - 1].end == start + TotalMillis(keyframes)
    decreases |keyframes|
  {
    if keyframes != [] {
      var d := keyframes[0].durationMillis;
      var r := RangesFrom(keyframes, start);
      var tail := RangesFrom(keyframes[1..], start + d);
      assert r == [TimeRange(start, start + d)] + tail;
      assert TotalMillis(keyframes) == d + TotalMillis(keyframes[1..]);
      if tail == [] {
        assert keyframes[1..] == [];
      } else {
        RangesFromEnds(keyframes[1..], start + d);
        assert r[|r| - 1] == tail[|tail| - 1];
      }
    }
  }

  lemma RangesFromShape(keyframes: seq<Keyframe>, start: nat)
    ensures var r := RangesFrom(keyframes, start);
      && (forall i :: 0 <= i < |r| ==> r[i].end == r[i].start + keyframes[i].durationMillis)
      && (forall i :: 0 <= i < |r| - 1 ==> r[i].end == r[i + 1].start)
      && (|r| > 0 ==> r[0].start == start && r[|r| - 1].end == start + TotalMillis(keyframes))
  {
    RangesFromDurations(keyframes, start);
    RangesFromEnds(keyframes, start);
    var r := RangesFrom(keyframes, start);
    forall i | 0 <= i < |r| - 1 ensures r[i].end == r[i + 1].start {
      RangesFromAdjacent(keyframes, start, i);
    }
  }

  /**
   * The keyframe time ranges are contiguous from 0, each as long as its
   * keyframe, and the last ends at the sequence's total duration.
   */
  lemma TimeRangesContiguous(sequence: Sequence)
    ensures var r := TimeRanges(sequence);
      && |r| == |sequence.keyframes|
      && (forall i :: 0 <= i < |r| ==> r[i].end - r[i].start == sequence.keyframes[i].durationMillis)
      && (forall i :: 0 <= i < |r| - 1 ==> r[i].end == r[i + 1].start)
      && (|r| > 0 ==> r[0].start == 0 && r[|r| - 1].end == TotalMillis(sequence.keyframes))
  {
    RangesFromShape(sequence.keyframes, 0);
  }

  /** `Sequence::keyframe_times`: the start of each keyframe. */
  function KeyframeTimes(sequence: Sequence): (r: seq<nat>)
    ensures |r| == |sequence.keyframes|
    ensures forall i :: 0 <= i < |r| ==> r[i] == TimeRanges(sequence)[i].start
  {
    var ranges := TimeRanges(sequence);
    seq(|ranges|, i requires 0 <= i < |ranges| => ranges[i].start)
  }

  /** `Sequence::duration_millis`: nothing for an empty sequence, the sum of durations otherwise. */
  function DurationMillis(sequence: Sequence): (r: Option<nat>)
    ensures r.None? <==> sequence.keyframes == []
    ensures r.Some? ==> r.value == TotalMillis(sequence.keyframes)
  {
    if sequence.keyframes == [] then None else Some(TotalMillis(sequence.keyframes))
  }

  /** The first index, from `i`, whose range ends after `time`; the last index when there is none. */
  function IndexEndingAfter(ranges: seq<TimeRange>, time: nat, i: nat): (r: nat)
    requires i < |ranges|
    ensures i <= r < |ranges|
    ensures forall j :: i <= j < r ==> ranges[j].end <= time
    ensures time < ranges[r].end || r == |ranges| - 1
    decreases |ranges| - i
  {
    if time < ranges[i].end || i == |ranges| - 1 then i else IndexEndingAfter(ranges, time, i + 1)
  }

  /**
   * `Sequence::keyframe_index_at`: nothing for an empty sequence; otherwise the
   * first keyframe whose range ends after `time`, or the last keyframe when
   * `time` is at or past the end.
   */
  function KeyframeIndexAt(sequence: Sequence, time: nat): Option<nat> {
    var ranges := TimeRanges(sequence);
    if ranges == [] then None else Some(IndexEndingAfter(ranges, time, 0))
  }

  lemma KeyframeIndexAtSpec(sequence: Sequence, time: nat)
    ensures var r := KeyframeIndexAt(sequence, time);
      var ranges := TimeRanges(sequence);
      && (r.None? <==> sequence.keyframes == [])
      && (r.Some? ==>
            && r.value < |sequence.keyframes|
            && (forall j :: 0 <= j < r.value ==> ranges[j].end <= time)
            && (time < ranges[r.value].end || r.value == |sequence.keyframes| - 1))
  {
  }

  /** Within the sequence, the keyframe found is the one whose range contains `time`. */
  lemma {:induction false} KeyframeIndexAtContains(sequence: Sequence, time: nat)
    requires sequence.keyframes != []
    requires time < TotalMillis(sequence.keyframes)
    ensures var i := KeyframeIndexAt(sequence, time).value;
      TimeRanges(sequence)[i].start <= time < TimeRanges(sequence)[i].end
  {
    TimeRangesContiguous(sequence);
    var ranges := TimeRanges(sequence);
    var i := KeyframeIndexAt(sequence, time).value;
    if i > 0 {
      assert ranges[i - 1].end <= time;
    }
  }

  /** The loop of `Sequence::keyframe_index_at`, which accumulates durations into a cursor. */
  method FindKeyframeIndexAt(sequence: Sequence, time: nat) returns (r: Option<nat>)
    ensures r == KeyframeIndexAt(sequence, time)
  {
    var keyframes := sequence.keyframes;
    if |keyframes| == 0 {
      return None;
    }
    ghost var ranges := TimeRanges(sequence);
    RangesFromShape(keyframes, 0);
    var cursor := 0;
    var index := 0;
    while index < |keyframes|
      invariant 0 <= index <= |keyframes|
      invariant index == 0 ==> cursor == 0
      invariant 0 < index ==> cursor == ranges[index - 1].end
      invariant forall j :: 0 <= j < index ==> ranges[j].end <= time
    {
      cursor := cursor + keyframes[index].durationMillis;
      if time < cursor {
        return Some(index);
      }
      index := index + 1;
    }
    return Some(|keyframes| - 1);
  }

  /** `Sequence::keyframe_at`: the index and keyframe under `time`. */
  function KeyframeAt(sequence: Sequence, time: nat): (r: Option<(nat, Keyframe)>)
    ensures r.None? <==> sequence.keyframes == []
    ensures r.Some? ==> r.value.0 < |sequence.keyframes| && r.value.1 == sequence.keyframes[r.value.0]
  {
    match KeyframeIndexAt(sequence, time)
    case None => None
    case Some(i) => Some((i, sequence.keyframes[i]))
  }

  // ----- Keyframe insertion and deletion -----

  /** `Sequence::insert_keyframe`. */
  function InsertKeyframe(sequence: Sequence, keyframe: Keyframe, index: nat): (r: Result<Sequence, SheetError>)
    ensures r.Err? <==> index > |sequence.keyframes|
    ensures r.Err? ==> r.error == InvalidFrameIndex(index)
    ensures r.Ok? ==>
      var ks := r.value.keyframes;
      && |ks| == |sequence.keyframes| + 1
      && ks[index] == keyframe
      && (forall j :: 0 <= j < index ==> ks[j] == sequence.keyframes[j])
      && (forall j :: index < j < |ks| ==> ks[j] == sequence.keyframes[j - 1])
  {
    if index > |sequence.keyframes| then Err(InvalidFrameIndex(index))
    else Ok(Sequence(sequence.keyframes[..index] + [keyframe] + sequence.keyframes[index..]))
  }

  /** `Sequence::delete_keyframe`: the shortened sequence and the keyframe taken out. */
  function DeleteKeyframe(sequence: Sequence, index: nat): (r: Result<(Sequence, Keyframe), SheetError>)
    ensures r.Err? <==> index >= |sequence.keyframes|
    ensures r.Err? ==> r.error == InvalidFrameIndex(index)
    ensures r.Ok? ==>
      var ks := r.value.0.keyframes;
      && |ks| == |sequence.keyframes| - 1
      && r.value.1 == sequence.keyframes[index]
      && (forall j :: 0 <= j < index ==> ks[j] == sequence.keyframes[j])
      && (forall j :: index <= j < |ks| ==> ks[j] == sequence.keyframes[j + 1])
  {
    if index >= |sequence.keyframes| then Err(InvalidFrameIndex(index))
    else Ok((Sequence(sequence.keyframes[..index] + sequence.keyframes[index + 1..]), sequence.keyframes[index]))
  }

  /** Deleting the keyframe just inserted gives back the sequence and the keyframe. */
  lemma InsertThenDelete(sequence: Sequence, keyframe: Keyframe, index: nat)
    requires index <= |sequence.keyframes|
    ensures DeleteKeyframe(InsertKeyframe(sequence, keyframe, index).value, index) == Ok((sequence, keyframe))
  {
    var s2 := InsertKeyframe(sequence, keyframe, index).value;
    assert DeleteKeyframe(s2, index).value.0.keyframes == sequence.keyframes;
  }

  /** Re-inserting a deleted keyframe where it was gives back the sequence. */
  lemma DeleteThenInsert(sequence: Sequence, index: nat)
    requires index < |sequence.keyframes|
    ensures var d := DeleteKeyframe(sequence, index).value;
      InsertKeyframe(d.0, d.1, index) == Ok(sequence)
  {
    var d := DeleteKeyframe(sequence, index).value;
    assert InsertKeyframe(d.0, d.1, index).value.keyframes == sequence.keyframes;
  }

  // ----- Hitboxes of a keyframe -----

  const NewHitboxBaseName: string := "New Hitbox"

  /** `Keyframe::create_hitbox`: add a default hitbox under the first free "New Hitbox" name. */
  method CreateHitbox(keyframe: Keyframe) returns (name: string, r: Keyframe)
    ensures name !in keyframe.hitboxes
    ensures r == keyframe.(hitboxes := keyframe.hitboxes[name := NewHitbox()])
    ensures exists n :: 1 <= n && name == NumberedName(NewHitboxBaseName, n)
                        && forall j :: 1 <= j < n ==> NumberedName(NewHitboxBaseName, j) in keyframe.hitboxes
  {
    ghost var n;
    name, n := FreshName(NewHitboxBaseName, keyframe.hitboxes.Keys);
    r := keyframe.(hitboxes := keyframe.hitboxes[name := NewHitbox()]);
  }

  /** `Keyframe::rename_hitbox`. */
  function RenameHitbox(keyframe: Keyframe, oldName: string, newName: string): (r: Result<Keyframe, SheetError>)
    ensures oldName == newName ==> r == Ok(keyframe)
    ensures oldName != newName && newName in keyframe.hitboxes ==> r == Err(HitboxNameAlreadyExists(newName))
    ensures oldName != newName && newName !in keyframe.hitboxes && oldName !in keyframe.hitboxes ==>
      r == Err(HitboxNotFound(oldName))
    ensures oldName != newName && newName !in keyframe.hitboxes && oldName in keyframe.hitboxes ==> r.Ok?
    ensures r.Ok? ==> r.value.frame == keyframe.frame && r.value.durationMillis == keyframe.durationMillis
                      && r.value.offset == keyframe.offset
    ensures r.Ok? && oldName != newName ==>
      && oldName in keyframe.hitboxes && oldName !in r.value.hitboxes
      && newName in r.value.hitboxes && r.value.hitboxes[newName] == keyframe.hitboxes[oldName]
      && forall n :: n != oldName && n != newName ==>
           (n in r.value.hitboxes <==> n in keyframe.hitboxes)
           && (n in keyframe.hitboxes ==> r.value.hitboxes[n] == keyframe.hitboxes[n])
  {
    match RenameEntry(keyframe.hitboxes, oldName, newName)
    case Ok(m) => Ok(keyframe.(hitboxes := m))
    case Err(TargetTaken) => Err(HitboxNameAlreadyExists(newName))
    case Err(SourceMissing) => Err(HitboxNotFound(oldName))
  }

  /** `Keyframe::delete_hitbox`. */
  function DeleteHitbox(keyframe: Keyframe, name: string): (r: Keyframe)
    ensures name !in r.hitboxes
    ensures forall n :: n != name ==> (n in r.hitboxes <==> n in keyframe.hitboxes)
    ensures forall n :: n in r.hitboxes ==> r.hitboxes[n] == keyframe.hitboxes[n]
    ensures r.frame == keyframe.frame && r.durationMillis == keyframe.durationMillis && r.offset == keyframe.offset
  {
    keyframe.(hitboxes := keyframe.hitboxes - {name})
  }
}
