/**
 * The data an export hands to the metadata template: every frame with its
 * place in the packed texture, and every animation with its sequences,
 * keyframes and hitboxes, each list in a fixed order. Building it fails on
 * the first keyframe or frame that was not packed, on a keyframe showing a
 * frame the sheet does not have, and when the texture path cannot be made
 * relative to the metadata root.
 */
module Metadata {
  import opened Wrappers
  import opened Sheets
  import Ordering
  import Selections
  import opened Collect

  /** Where the packer put a texture, and its size there. */
  datatype PackedFrame = PackedFrame(x: nat, y: nat, width: nat, height: nat)

  type TextureLayout = map<Path, PackedFrame>

  datatype MetadataError =
    | InvalidFrameReference
    | FrameWasNotPacked
    | AbsoluteToRelativePath(path: Path, root: Path)

  datatype FrameData = FrameData(index: nat, x: nat, y: nat, width: nat, height: nat)

  datatype HitboxData = HitboxData(name: string, x: int, y: int, width: nat, height: nat)

  datatype KeyframeData = KeyframeData(duration: nat, x: int, y: int, frame: FrameData, hitboxes: seq<HitboxData>)

  datatype SequenceData = SequenceData(direction: Direction, keyframes: seq<KeyframeData>)

  datatype AnimationData = AnimationData(name: string, isLooping: bool, sequences: seq<SequenceData>)

  datatype SheetData = SheetData(frames: seq<FrameData>, animations: seq<AnimationData>, sheetImage: Path)

  // ----- Paths written into the metadata -----

  /** `with_forward_slashes`: every backslash becomes a forward slash. */
  function WithForwardSlashes(p: Path): (r: Path)
    ensures |r| == |p|
    ensures forall i :: 0 <= i < |p| ==> r[i] == (if p[i] == '\\' then '/' else p[i])
    ensures '\\' !in r
  {
    if p == [] then []
    else [if p[0] == '\\' then '/' else p[0]] + WithForwardSlashes(p[1..])
  }

  lemma ForwardSlashesIdempotent(p: Path)
    ensures WithForwardSlashes(WithForwardSlashes(p)) == WithForwardSlashes(p)
  {
    var once := WithForwardSlashes(p);
    var twice := WithForwardSlashes(once);
    assert forall i :: 0 <= i < |once| ==> once[i] != '\\' by {
      forall i | 0 <= i < |once|
        ensures once[i] != '\\'
      {
        assert once[i] in once;
      }
    }
    assert twice == once;
  }

  // ----- The template data of each item -----

  /** The order frames are listed in: by source path, each source once. */
  function SortedSources(sheet: Sheet): (r: seq<Path>)
    ensures forall p :: p in r <==> HasFrame(sheet, p)
    ensures Ordering.StrictlyAscending(r)
  {
    Ordering.Ascending(set f | f in sheet.frames :: f.source)
  }

  /**
   * `Frame::new`: the frame's position among the sorted frames, with its
   * place in the packed texture.
   */
  function FrameMetadata(sheet: Sheet, source: Path, layout: TextureLayout): (r: Result<FrameData, MetadataError>)
    ensures !HasFrame(sheet, source) ==> r == Err(InvalidFrameReference)
    ensures HasFrame(sheet, source) && source !in layout ==> r == Err(FrameWasNotPacked)
    ensures r.Ok? <==> HasFrame(sheet, source) && source in layout
    ensures r.Ok? ==> && r.value.index < |SortedSources(sheet)| && SortedSources(sheet)[r.value.index] == source
                      && var packed := layout[source];
                         r.value == FrameData(r.value.index, packed.x, packed.y, packed.width, packed.height)
  {
    match Selections.IndexOf(SortedSources(sheet), source)
    case None => Err(InvalidFrameReference)
    case Some(index) =>
      if source !in layout then Err(FrameWasNotPacked)
      else
        var packed := layout[source];
        Ok(FrameData(index, packed.x, packed.y, packed.width, packed.height))
  }

  /** `Hitbox::new` of the metadata: the name, the top-left corner and the size. */
  function HitboxMetadata(name: string, hitbox: Hitbox): (r: HitboxData)
    ensures r.name == name
    ensures r.x == hitbox.Position().x && r.y == hitbox.Position().y
    ensures r.width == hitbox.Extent().width && r.height == hitbox.Extent().height
  {
    HitboxData(name, hitbox.Position().x, hitbox.Position().y, hitbox.Extent().width, hitbox.Extent().height)
  }

  /** The hitboxes of a keyframe in name order. */
  function HitboxesMetadata(keyframe: Keyframe): (r: seq<HitboxData>)
    ensures var names := Ordering.Ascending(keyframe.hitboxes.Keys);
            |r| == |names| && forall i :: 0 <= i < |r| ==> r[i] == HitboxMetadata(names[i], keyframe.hitboxes[names[i]])
  {
    var names := Ordering.Ascending(keyframe.hitboxes.Keys);
    seq(|names|, i requires 0 <= i < |names| => HitboxMetadata(names[i], keyframe.hitboxes[names[i]]))
  }

  /**
   * `Keyframe::new` of the metadata: the packed size of the keyframe's frame
   * places its top-left corner half that size (rounded down) before the
   * keyframe's offset. A frame that was not packed is reported before a frame
   * the sheet does not have.
   */
  function KeyframeMetadata(sheet: Sheet, keyframe: Keyframe, layout: TextureLayout): (r: Result<KeyframeData, MetadataError>)
    ensures keyframe.frame !in layout ==> r == Err(FrameWasNotPacked)
    ensures keyframe.frame in layout && !HasFrame(sheet, keyframe.frame) ==> r == Err(InvalidFrameReference)
    ensures r.Ok? <==> keyframe.frame in layout && HasFrame(sheet, keyframe.frame)
    ensures r.Ok? ==>
      && r.value.x == keyframe.offset.x - layout[keyframe.frame].width / 2
      && r.value.y == keyframe.offset.y - layout[keyframe.frame].height / 2
      && r.value.duration == keyframe.durationMillis
      && Ok(r.value.frame) == FrameMetadata(sheet, keyframe.frame, layout)
      && r.value.hitboxes == HitboxesMetadata(keyframe)
  {
    if keyframe.frame !in layout then Err(FrameWasNotPacked)
    else
      var packed := layout[keyframe.frame];
      var x := keyframe.offset.x - packed.width / 2;
      var y := keyframe.offset.y - packed.height / 2;
      if !HasFrame(sheet, keyframe.frame) then Err(InvalidFrameReference)
      else
        match FrameMetadata(sheet, keyframe.frame, layout)
        case Err(e) => Err(e)
        case Ok(frame) => Ok(KeyframeData(keyframe.durationMillis, x, y, frame, HitboxesMetadata(keyframe)))
  }

  /** The keyframe of a metadata entry is centred on its offset, to within half a pixel. */
  lemma KeyframeCentredOnOffset(sheet: Sheet, keyframe: Keyframe, layout: TextureLayout)
    requires KeyframeMetadata(sheet, keyframe, layout).Ok?
    ensures var k := KeyframeMetadata(sheet, keyframe, layout).value;
            && 0 <= k.frame.width - 2 * (keyframe.offset.x - k.x) <= 1
            && 0 <= k.frame.height - 2 * (keyframe.offset.y - k.y) <= 1
  {
    var k := KeyframeMetadata(sheet, keyframe, layout).value;
    var packed := layout[keyframe.frame];
    assert k.frame.width == packed.width && k.frame.height == packed.height;
    assert keyframe.offset.x - k.x == packed.width / 2;
    assert keyframe.offset.y - k.y == packed.height / 2;
  }

  function KeyframeResults(sheet: Sheet, keyframes: seq<Keyframe>, layout: TextureLayout): (rs: seq<Result<KeyframeData, MetadataError>>)
    ensures |rs| == |keyframes| && forall i :: 0 <= i < |rs| ==> rs[i] == KeyframeMetadata(sheet, keyframes[i], layout)
  {
    seq(|keyframes|, i requires 0 <= i < |keyframes| => KeyframeMetadata(sheet, keyframes[i], layout))
  }

  /** `Sequence::new` of the metadata: the keyframes in timeline order. */
  function SequenceMetadata(sheet: Sheet, direction: Direction, sequence: Sequence, layout: TextureLayout): (r: Result<SequenceData, MetadataError>)
    ensures r.Ok? <==> AllOk(KeyframeResults(sheet, sequence.keyframes, layout)).Ok?
    ensures r.Ok? ==> && r.value.direction == direction
                      && Ok(r.value.keyframes) == AllOk(KeyframeResults(sheet, sequence.keyframes, layout))
  {
    match AllOk(KeyframeResults(sheet, sequence.keyframes, layout))
    case Err(e) => Err(e)
    case Ok(ks) => Ok(SequenceData(direction, ks))
  }

  /** A sequence converts exactly when each of its keyframes shows a packed frame of the sheet. */
  lemma SequenceMetadataSucceeds(sheet: Sheet, direction: Direction, sequence: Sequence, layout: TextureLayout)
    ensures SequenceMetadata(sheet, direction, sequence, layout).Ok? <==>
      forall k :: k in sequence.keyframes ==> k.frame in layout && HasFrame(sheet, k.frame)
  {
    var rs := KeyframeResults(sheet, sequence.keyframes, layout);
    AllOkIff(rs);
    if SequenceMetadata(sheet, direction, sequence, layout).Ok? {
      forall k | k in sequence.keyframes
        ensures k.frame in layout && HasFrame(sheet, k.frame)
      {
        var i :| 0 <= i < |sequence.keyframes| && sequence.keyframes[i] == k;
        assert rs[i].Ok?;
      }
    }
  }

  /** `Keyframe::new`: the loop over the hitboxes in name order around the lookups. */
  method KeyframeToMetadata(sheet: Sheet, keyframe: Keyframe, layout: TextureLayout) returns (r: Result<KeyframeData, MetadataError>)
    ensures r == KeyframeMetadata(sheet, keyframe, layout)
  {
    if keyframe.frame !in layout {
      return Err(FrameWasNotPacked);
    }
    var packed := layout[keyframe.frame];
    var x := keyframe.offset.x - packed.width / 2;
    var y := keyframe.offset.y - packed.height / 2;
    if !HasFrame(sheet, keyframe.frame) {
      return Err(InvalidFrameReference);
    }
    // The frame was found and packed, so `Frame::new` cannot fail here.
    var frame := FrameMetadata(sheet, keyframe.frame, layout);
    assert frame.Ok?;
    var hitboxes := HitboxesToMetadata(keyframe);
    return Ok(KeyframeData(keyframe.durationMillis, x, y, frame.value, hitboxes));
  }

  /** The hitbox loop of `Keyframe::new`, in name order. */
  method HitboxesToMetadata(keyframe: Keyframe) returns (hitboxes: seq<HitboxData>)
    ensures hitboxes == HitboxesMetadata(keyframe)
  {
    var names := Ordering.Ascending(keyframe.hitboxes.Keys);
    hitboxes := HitboxesNamed(names, keyframe.hitboxes);
  }

  /** The entries of `names` in `hitboxes`, in the order of `names`. */
  method HitboxesNamed(names: seq<string>, hitboxes: map<string, Hitbox>) returns (r: seq<HitboxData>)
    requires forall n :: n in names ==> n in hitboxes
    ensures |r| == |names| && forall i :: 0 <= i < |r| ==> r[i] == HitboxMetadata(names[i], hitboxes[names[i]])
  {
    r := [];
    for i := 0 to |names|
      invariant |r| == i && forall j :: 0 <= j < i ==> r[j] == HitboxMetadata(names[j], hitboxes[names[j]])
    {
      r := r + [HitboxMetadata(names[i], hitboxes[names[i]])];
    }
  }

  /** `Sequence::new`: the loop over the keyframes, returning on the first failure. */
  method SequenceToMetadata(sheet: Sheet, direction: Direction, sequence: Sequence, layout: TextureLayout)
    returns (r: Result<SequenceData, MetadataError>)
    ensures r == SequenceMetadata(sheet, direction, sequence, layout)
  {
    ghost var rs := KeyframeResults(sheet, sequence.keyframes, layout);
    var keyframes: seq<KeyframeData> := [];
    for i := 0 to |sequence.keyframes|
      invariant AllOk(rs[..i]) == Ok(keyframes)
    {
      var keyframe := KeyframeToMetadata(sheet, sequence.keyframes[i], layout);
      AllOkStep(rs, i, keyframes);
      if keyframe.Err? {
        return Err(keyframe.error);
      }
      keyframes := keyframes + [keyframe.value];
    }
    AllOkWhole(rs);
    return Ok(SequenceData(direction, keyframes));
  }

  /** The directions in `ds` that are in `keep`, in the order of `ds`. */
  function Kept(ds: seq<Direction>, keep: set<Direction>): (r: seq<Direction>)
    requires forall i, j :: 0 <= i < j < |ds| ==> DirectionRank(ds[i]) < DirectionRank(ds[j])
    ensures forall d :: d in r <==> d in ds && d in keep
    ensures forall i, j :: 0 <= i < j < |r| ==> DirectionRank(r[i]) < DirectionRank(r[j])
  {
    if ds == [] then []
    else
      var rest := Kept(ds[1..], keep);
      assert forall i :: 0 <= i < |rest| ==> DirectionRank(ds[0]) < DirectionRank(rest[i]) by {
        forall i | 0 <= i < |rest|
          ensures DirectionRank(ds[0]) < DirectionRank(rest[i])
        {
          assert rest[i] in ds[1..];
          var j :| 0 <= j < |ds[1..]| && ds[1..][j] == rest[i];
          assert ds[j + 1] == rest[i];
        }
      }
      if ds[0] in keep then [ds[0]] + rest else rest
  }

  /** The directions of an animation in `Direction` order, as its ordered map iterates them. */
  function SortedDirections(sequences: set<Direction>): (r: seq<Direction>)
    ensures forall d :: d in r <==> d in sequences
    ensures forall i, j :: 0 <= i < j < |r| ==> DirectionRank(r[i]) < DirectionRank(r[j])
  {
    assert forall d :: d in AllDirections by {
      forall d
        ensures d in AllDirections
      {
        assert AllDirections[DirectionRank(d)] == d;
      }
    }
    Kept(AllDirections, sequences)
  }

  function SequenceResults(sheet: Sheet, animation: Animation, layout: TextureLayout): (rs: seq<Result<SequenceData, MetadataError>>)
    ensures var ds := SortedDirections(animation.sequences.Keys);
            |rs| == |ds| && forall i :: 0 <= i < |rs| ==> rs[i] == SequenceMetadata(sheet, ds[i], animation.sequences[ds[i]], layout)
  {
    var ds := SortedDirections(animation.sequences.Keys);
    seq(|ds|, i requires 0 <= i < |ds| => SequenceMetadata(sheet, ds[i], animation.sequences[ds[i]], layout))
  }

  /** `Animation::new` of the metadata: the sequences in direction order. */
  function AnimationMetadata(sheet: Sheet, name: string, animation: Animation, layout: TextureLayout): (r: Result<AnimationData, MetadataError>)
    ensures r.Ok? ==> r.value.name == name && r.value.isLooping == animation.isLooping
    ensures r.Ok? <==> AllOk(SequenceResults(sheet, animation, layout)).Ok?
    ensures r.Ok? ==> Ok(r.value.sequences) == AllOk(SequenceResults(sheet, animation, layout))
  {
    match AllOk(SequenceResults(sheet, animation, layout))
    case Err(e) => Err(e)
    case Ok(ss) => Ok(AnimationData(name, animation.isLooping, ss))
  }

  /** An animation converts exactly when each of its sequences does. */
  lemma AnimationMetadataSucceeds(sheet: Sheet, name: string, animation: Animation, layout: TextureLayout)
    ensures AnimationMetadata(sheet, name, animation, layout).Ok? <==>
      forall d :: d in animation.sequences ==> SequenceMetadata(sheet, d, animation.sequences[d], layout).Ok?
  {
    var ds := SortedDirections(animation.sequences.Keys);
    var rs := SequenceResults(sheet, animation, layout);
    AllOkIff(rs);
    if AnimationMetadata(sheet, name, animation, layout).Ok? {
      forall d | d in animation.sequences
        ensures SequenceMetadata(sheet, d, animation.sequences[d], layout).Ok?
      {
        var i :| 0 <= i < |ds| && ds[i] == d;
        assert rs[i].Ok?;
      }
    } else {
      var k := FirstErr(rs);
      assert ds[k] in animation.sequences && rs[k].Err?;
    }
  }

  /** `Animation::new`: the loop over the sequences, returning on the first failure. */
  method AnimationToMetadata(sheet: Sheet, name: string, animation: Animation, layout: TextureLayout)
    returns (r: Result<AnimationData, MetadataError>)
    ensures r == AnimationMetadata(sheet, name, animation, layout)
  {
    ghost var rs := SequenceResults(sheet, animation, layout);
    var ds := SortedDirections(animation.sequences.Keys);
    var sequences: seq<SequenceData> := [];
    for i := 0 to |ds|
      invariant AllOk(rs[..i]) == Ok(sequences)
    {
      var sequence := SequenceToMetadata(sheet, ds[i], animation.sequences[ds[i]], layout);
      AllOkStep(rs, i, sequences);
      if sequence.Err? {
        return Err(sequence.error);
      }
      sequences := sequences + [sequence.value];
    }
    AllOkWhole(rs);
    return Ok(AnimationData(name, animation.isLooping, sequences));
  }

  function FrameResults(sheet: Sheet, layout: TextureLayout): (rs: seq<Result<FrameData, MetadataError>>)
    ensures var sources := SortedSources(sheet);
            |rs| == |sources| && forall i :: 0 <= i < |rs| ==> rs[i] == FrameMetadata(sheet, sources[i], layout)
  {
    var sources := SortedSources(sheet);
    seq(|sources|, i requires 0 <= i < |sources| => FrameMetadata(sheet, sources[i], layout))
  }

  /** The frame list of the sheet data: a failure can only be a frame of the sheet that was not packed. */
  function FramesMetadata(sheet: Sheet, layout: TextureLayout): (r: Result<seq<FrameData>, MetadataError>)
    ensures r.Err? ==> r.error == FrameWasNotPacked && exists p :: HasFrame(sheet, p) && p !in layout
    ensures r.Ok? ==> var sources := SortedSources(sheet);
      |r.value| == |sources| && forall i :: 0 <= i < |sources| ==> FrameMetadata(sheet, sources[i], layout) == Ok(r.value[i])
  {
    var rs := FrameResults(sheet, layout);
    var r := AllOk(rs);
    if r.Err? then
      var k := FirstErr(rs);
      assert HasFrame(sheet, SortedSources(sheet)[k]);
      r
    else r
  }

  /** The frame list is built exactly when every frame of the sheet was packed. */
  lemma FramesMetadataSucceeds(sheet: Sheet, layout: TextureLayout)
    ensures FramesMetadata(sheet, layout).Ok? <==> forall p :: HasFrame(sheet, p) ==> p in layout
  {
    var sources := SortedSources(sheet);
    var rs := FrameResults(sheet, layout);
    if FramesMetadata(sheet, layout).Ok? {
      forall p | HasFrame(sheet, p)
        ensures p in layout
      {
        var i :| 0 <= i < |sources| && sources[i] == p;
        assert rs[i].Ok?;
      }
    }
  }

  function AnimationResults(sheet: Sheet, layout: TextureLayout): (rs: seq<Result<AnimationData, MetadataError>>)
    ensures var names := Ordering.Ascending(sheet.animations.Keys);
            |rs| == |names| && forall i :: 0 <= i < |rs| ==> rs[i] == AnimationMetadata(sheet, names[i], sheet.animations[names[i]], layout)
  {
    var names := Ordering.Ascending(sheet.animations.Keys);
    seq(|names|, i requires 0 <= i < |names| => AnimationMetadata(sheet, names[i], sheet.animations[names[i]], layout))
  }

  /** The animation list of the sheet data, in name order. */
  function AnimationsMetadata(sheet: Sheet, layout: TextureLayout): (r: Result<seq<AnimationData>, MetadataError>)
    ensures r.Ok? ==> var names := Ordering.Ascending(sheet.animations.Keys);
      |r.value| == |names| && forall i :: 0 <= i < |names| ==>
        AnimationMetadata(sheet, names[i], sheet.animations[names[i]], layout) == Ok(r.value[i])
  {
    AllOk(AnimationResults(sheet, layout))
  }

  /** The animation list is built exactly when every animation converts. */
  lemma AnimationsMetadataSucceeds(sheet: Sheet, layout: TextureLayout)
    ensures AnimationsMetadata(sheet, layout).Ok? <==>
      forall n :: n in sheet.animations ==> AnimationMetadata(sheet, n, sheet.animations[n], layout).Ok?
  {
    var names := Ordering.Ascending(sheet.animations.Keys);
    var rs := AnimationResults(sheet, layout);
    AllOkIff(rs);
    if AnimationsMetadata(sheet, layout).Ok? {
      forall n | n in sheet.animations
        ensures AnimationMetadata(sheet, n, sheet.animations[n], layout).Ok?
      {
        var i :| 0 <= i < |names| && names[i] == n;
        assert rs[i].Ok?;
      }
    } else {
      var k := FirstErr(rs);
      assert names[k] in sheet.animations && rs[k].Err?;
    }
  }

  /**
   * `Sheet::new` of the metadata: the frames in path order, the animations
   * in name order, and the texture path relative to the metadata root with
   * forward slashes. `diffPaths` stands for the path-relativising library.
   * `generate_sheet_metadata` hands this to the template of the only kind of
   * export settings there is.
   */
  function SheetMetadata(sheet: Sheet, settings: LiquidExportSettings, layout: TextureLayout, diffPaths: (Path, Path) -> Option<Path>)
    : (r: Result<SheetData, MetadataError>)
    ensures FramesMetadata(sheet, layout).Err? ==> r == Err(FrameWasNotPacked)
    ensures FramesMetadata(sheet, layout).Ok? && AnimationsMetadata(sheet, layout).Err? ==> r == Err(AnimationsMetadata(sheet, layout).error)
    ensures FramesMetadata(sheet, layout).Ok? && AnimationsMetadata(sheet, layout).Ok?
            && diffPaths(settings.textureFile, settings.metadataPathsRoot).None? ==>
      r == Err(AbsoluteToRelativePath(settings.textureFile, settings.metadataPathsRoot))
    ensures r.Ok? <==> FramesMetadata(sheet, layout).Ok? && AnimationsMetadata(sheet, layout).Ok?
                       && diffPaths(settings.textureFile, settings.metadataPathsRoot).Some?
    ensures r.Ok? ==> && Ok(r.value.frames) == FramesMetadata(sheet, layout)
                      && Ok(r.value.animations) == AnimationsMetadata(sheet, layout)
                      && r.value.sheetImage == WithForwardSlashes(diffPaths(settings.textureFile, settings.metadataPathsRoot).value)
  {
    var frames := FramesMetadata(sheet, layout);
    if frames.Err? then Err(frames.error)
    else
      var animations := AnimationsMetadata(sheet, layout);
      if animations.Err? then Err(animations.error)
      else
        match diffPaths(settings.textureFile, settings.metadataPathsRoot)
        case None => Err(AbsoluteToRelativePath(settings.textureFile, settings.metadataPathsRoot))
        case Some(p) => Ok(SheetData(frames.value, animations.value, WithForwardSlashes(p)))
  }

  /**
   * The metadata of a sheet is built exactly when every frame of the sheet
   * was packed, every keyframe shows a packed frame of the sheet, and the
   * texture path can be made relative to the metadata root.
   */
  lemma SheetMetadataSucceeds(sheet: Sheet, settings: LiquidExportSettings, layout: TextureLayout, diffPaths: (Path, Path) -> Option<Path>)
    ensures SheetMetadata(sheet, settings, layout, diffPaths).Ok? <==>
      && (forall p :: HasFrame(sheet, p) ==> p in layout)
      && (forall n, d, k ::
            n in sheet.animations && d in sheet.animations[n].sequences && k in sheet.animations[n].sequences[d].keyframes
            ==> k.frame in layout && HasFrame(sheet, k.frame))
      && diffPaths(settings.textureFile, settings.metadataPathsRoot).Some?
  {
    FramesMetadataSucceeds(sheet, layout);
    AnimationsKeyframesSucceed(sheet, layout);
  }

  /** The animation list is built exactly when every keyframe of every sequence shows a packed frame of the sheet. */
  lemma AnimationsKeyframesSucceed(sheet: Sheet, layout: TextureLayout)
    ensures AnimationsMetadata(sheet, layout).Ok? <==>
      forall n, d, k ::
        n in sheet.animations && d in sheet.animations[n].sequences && k in sheet.animations[n].sequences[d].keyframes
        ==> k.frame in layout && HasFrame(sheet, k.frame)
  {
    AnimationsMetadataSucceeds(sheet, layout);
    forall n | n in sheet.animations {
      AnimationKeyframesSucceed(sheet, n, sheet.animations[n], layout);
    }
  }

  /** An animation converts exactly when each keyframe of each of its sequences shows a packed frame of the sheet. */
  lemma AnimationKeyframesSucceed(sheet: Sheet, name: string, animation: Animation, layout: TextureLayout)
    ensures AnimationMetadata(sheet, name, animation, layout).Ok? <==>
      forall d, k :: d in animation.sequences && k in animation.sequences[d].keyframes ==> k.frame in layout && HasFrame(sheet, k.frame)
  {
    AnimationMetadataSucceeds(sheet, name, animation, layout);
    forall d | d in animation.sequences {
      SequenceMetadataSucceeds(sheet, d, animation.sequences[d], layout);
    }
  }

  /** The frame loop of `Sheet::new`, returning on the first failure. */
  method FramesToMetadata(sheet: Sheet, layout: TextureLayout) returns (r: Result<seq<FrameData>, MetadataError>)
    ensures r == FramesMetadata(sheet, layout)
  {
    ghost var rs := FrameResults(sheet, layout);
    var sources := SortedSources(sheet);
    var frames: seq<FrameData> := [];
    for i := 0 to |sources|
      invariant AllOk(rs[..i]) == Ok(frames)
    {
      var frame := FrameMetadata(sheet, sources[i], layout);
      AllOkStep(rs, i, frames);
      if frame.Err? {
        return Err(frame.error);
      }
      frames := frames + [frame.value];
    }
    AllOkWhole(rs);
    return Ok(frames);
  }

  /** The animation loop of `Sheet::new`, returning on the first failure. */
  method AnimationsToMetadata(sheet: Sheet, layout: TextureLayout) returns (r: Result<seq<AnimationData>, MetadataError>)
    ensures r == AnimationsMetadata(sheet, layout)
  {
    ghost var rs := AnimationResults(sheet, layout);
    var names := Ordering.Ascending(sheet.animations.Keys);
    var animations: seq<AnimationData> := [];
    for i := 0 to |names|
      invariant AllOk(rs[..i]) == Ok(animations)
    {
      var animation := AnimationToMetadata(sheet, names[i], sheet.animations[names[i]], layout);
      AllOkStep(rs, i, animations);
      if animation.Err? {
        return Err(animation.error);
      }
      animations := animations + [animation.value];
    }
    AllOkWhole(rs);
    return Ok(animations);
  }

  /** `Sheet::new`: the frames, then the animations, then the texture path. */
  method SheetToMetadata(sheet: Sheet, settings: LiquidExportSettings, layout: TextureLayout, diffPaths: (Path, Path) -> Option<Path>)
    returns (r: Result<SheetData, MetadataError>)
    ensures r == SheetMetadata(sheet, settings, layout, diffPaths)
  {
    var frames := FramesToMetadata(sheet, layout);
    if frames.Err? {
      return Err(frames.error);
    }
    var animations := AnimationsToMetadata(sheet, layout);
    if animations.Err? {
      return Err(animations.error);
    }
    var relative := diffPaths(settings.textureFile, settings.metadataPathsRoot);
    if relative.None? {
      return Err(AbsoluteToRelativePath(settings.textureFile, settings.metadataPathsRoot));
    }
    return Ok(SheetData(frames.value, animations.value, WithForwardSlashes(relative.value)));
  }

  /** The frames of the sheet data are numbered by their own position in the list. */
  lemma FramesNumberedInOrder(sheet: Sheet, layout: TextureLayout)
    requires FramesMetadata(sheet, layout).Ok?
    ensures var frames := FramesMetadata(sheet, layout).value;
            forall i :: 0 <= i < |frames| ==> frames[i].index == i
  {
    var frames := FramesMetadata(sheet, layout).value;
    var sources := SortedSources(sheet);
    forall i | 0 <= i < |frames|
      ensures frames[i].index == i
    {
      assert FrameMetadata(sheet, sources[i], layout) == Ok(frames[i]);
      var k := frames[i].index;
      assert sources[k] == sources[i];
      if k < i {
        assert false;
      } else if k > i {
        assert false;
      }
    }
  }

  /** The frame a keyframe entry refers to is the entry of the frame list at its index. */
  lemma KeyframeFrameListed(sheet: Sheet, layout: TextureLayout, keyframe: Keyframe)
    requires FramesMetadata(sheet, layout).Ok?
    requires KeyframeMetadata(sheet, keyframe, layout).Ok?
    ensures var frames := FramesMetadata(sheet, layout).value;
            var k := KeyframeMetadata(sheet, keyframe, layout).value;
            k.frame.index < |frames| && frames[k.frame.index] == k.frame
  {
    var frames := FramesMetadata(sheet, layout).value;
    var k := KeyframeMetadata(sheet, keyframe, layout).value;
    var sources := SortedSources(sheet);
    assert FrameMetadata(sheet, sources[k.frame.index], layout) == Ok(frames[k.frame.index]);
  }
}
