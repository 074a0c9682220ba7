/**
 * The data the older exporter hands to a Liquid template: every frame of a
 * Tiger3 sheet with its place in the packed texture, in sheet order, and
 * every animation with its keyframes in timeline order. Building it fails
 * on the first frame that was not packed, on a keyframe showing a frame the
 * sheet does not have, and when the texture path cannot be made relative
 * to the metadata root.
 */
module LiquidExport {
  import opened Wrappers
  import opened Sheets
  import opened Collect
  import Migrations
  import Metadata
  import Selections

  type Layout = Metadata.TextureLayout

  datatype ExportError =
    | TemplateParsingError
    | TemplateRenderingError
    | InvalidFrameReference
    | FrameWasNotPacked
    | AbsoluteToRelativePath

  datatype LiquidHitbox = LiquidHitbox(name: string, left: int, right: int, top: int, bottom: int, width: int, height: int)

  datatype LiquidFrame = LiquidFrame(source: Path, index: nat, x: nat, y: nat, width: nat, height: nat)

  datatype LiquidKeyframe = LiquidKeyframe(
    duration: nat, centerOffsetX: int, centerOffsetY: int, topLeftOffsetX: int, topLeftOffsetY: int,
    frame: LiquidFrame, hitboxes: seq<LiquidHitbox>)

  datatype LiquidAnimation = LiquidAnimation(name: string, isLooping: bool, keyframes: seq<LiquidKeyframe>)

  datatype LiquidSheet = LiquidSheet(frames: seq<LiquidFrame>, animations: seq<LiquidAnimation>, sheetImage: Path)

  /** `liquid_data_from_hitbox`: the rectangle's edges, the far ones one size away from the near ones. */
  function HitboxData(hitbox: Migrations.HitboxV3): (r: LiquidHitbox)
    ensures r.name == hitbox.name
    ensures r.left == hitbox.geometry.topLeft.x && r.top == hitbox.geometry.topLeft.y
    ensures r.width == hitbox.geometry.size.width && r.height == hitbox.geometry.size.height
    ensures r.right - r.left == r.width && r.bottom - r.top == r.height
  {
    var position := hitbox.geometry.topLeft;
    var size := hitbox.geometry.size;
    LiquidHitbox(hitbox.name, position.x, position.x + size.width, position.y, position.y + size.height, size.width, size.height)
  }

  /**
   * `liquid_data_from_frame`: the frame's position in the sheet's frame list
   * and its place in the packed texture. A frame that is not in the sheet is
   * reported before a frame that was not packed.
   */
  function FrameData(sheet: Migrations.SheetV3, frame: Migrations.FrameV3, layout: Layout): (r: Result<LiquidFrame, ExportError>)
    ensures frame !in sheet.frames ==> r == Err(InvalidFrameReference)
    ensures frame in sheet.frames && frame.source !in layout ==> r == Err(FrameWasNotPacked)
    ensures r.Ok? <==> frame in sheet.frames && frame.source in layout
    ensures r.Ok? ==>
      && r.value.index < |sheet.frames| && sheet.frames[r.value.index] == frame
      && (forall j :: 0 <= j < r.value.index ==> sheet.frames[j] != frame)
      && var packed := layout[frame.source];
         r.value == LiquidFrame(frame.source, r.value.index, packed.x, packed.y, packed.width, packed.height)
  {
    match Selections.IndexOf(sheet.frames, frame)
    case None => Err(InvalidFrameReference)
    case Some(index) =>
      if frame.source !in layout then Err(FrameWasNotPacked)
      else
        var packed := layout[frame.source];
        Ok(LiquidFrame(frame.source, index, packed.x, packed.y, packed.width, packed.height))
  }

  /** The first frame whose source is the given path, as `Sheet::get_frame` finds it. */
  function GetFrame(sheet: Migrations.SheetV3, source: Path): (r: Option<Migrations.FrameV3>)
    ensures r.None? <==> forall f :: f in sheet.frames ==> f.source != source
    ensures r.Some? ==> r.value in sheet.frames && r.value.source == source
  {
    match Selections.IndexOf(sheet.frames, Migrations.FrameV3(source))
    case None => None
    case Some(i) => Some(sheet.frames[i])
  }

  /** The hitboxes of a keyframe in the keyframe's own order. */
  function HitboxesData(keyframe: Migrations.KeyframeV3): (r: seq<LiquidHitbox>)
    ensures |r| == |keyframe.hitboxes|
    ensures forall i :: 0 <= i < |r| ==> r[i] == HitboxData(keyframe.hitboxes[i])
  {
    seq(|keyframe.hitboxes|, i requires 0 <= i < |keyframe.hitboxes| => HitboxData(keyframe.hitboxes[i]))
  }

  /**
   * `liquid_data_from_keyframe`: the top-left corner lies half the packed
   * size (rounded down) before the keyframe's centre offset. A frame that
   * was not packed is reported before a frame the sheet does not have.
   */
  function KeyframeData(sheet: Migrations.SheetV3, keyframe: Migrations.KeyframeV3, layout: Layout)
    : (r: Result<LiquidKeyframe, ExportError>)
    ensures keyframe.frame !in layout ==> r == Err(FrameWasNotPacked)
    ensures keyframe.frame in layout && GetFrame(sheet, keyframe.frame).None? ==> r == Err(InvalidFrameReference)
    ensures r.Ok? <==> keyframe.frame in layout && GetFrame(sheet, keyframe.frame).Some?
    ensures r.Ok? ==>
      && r.value.duration == keyframe.duration
      && r.value.centerOffsetX == keyframe.offset.x && r.value.centerOffsetY == keyframe.offset.y
      && r.value.topLeftOffsetX == keyframe.offset.x - layout[keyframe.frame].width / 2
      && r.value.topLeftOffsetY == keyframe.offset.y - layout[keyframe.frame].height / 2
      && r.value.frame.source == keyframe.frame
      && Ok(r.value.frame) == FrameData(sheet, GetFrame(sheet, keyframe.frame).value, layout)
      && r.value.hitboxes == HitboxesData(keyframe)
  {
    if keyframe.frame !in layout then Err(FrameWasNotPacked)
    else
      var packed := layout[keyframe.frame];
      match GetFrame(sheet, keyframe.frame)
      case None => Err(InvalidFrameReference)
      case Some(frame) =>
        match FrameData(sheet, frame, layout)
        case Err(e) => Err(e)
        case Ok(frameData) =>
          Ok(LiquidKeyframe(keyframe.duration, keyframe.offset.x, keyframe.offset.y,
                            keyframe.offset.x - packed.width / 2, keyframe.offset.y - packed.height / 2,
                            frameData, HitboxesData(keyframe)))
  }

  /** The keyframe's frame is centred on its offset, to within half a pixel. */
  lemma KeyframeCentred(sheet: Migrations.SheetV3, keyframe: Migrations.KeyframeV3, layout: Layout)
    requires KeyframeData(sheet, keyframe, layout).Ok?
    ensures var k := KeyframeData(sheet, keyframe, layout).value;
      && 0 <= k.frame.width - 2 * (k.centerOffsetX - k.topLeftOffsetX) <= 1
      && 0 <= k.frame.height - 2 * (k.centerOffsetY - k.topLeftOffsetY) <= 1
  {
    var k := KeyframeData(sheet, keyframe, layout).value;
    var packed := layout[keyframe.frame];
    assert k.frame.width == packed.width && k.frame.height == packed.height;
  }

  /** The hitbox loop of `liquid_data_from_keyframe`, pushing each hitbox in turn. */
  method BuildKeyframe(sheet: Migrations.SheetV3, keyframe: Migrations.KeyframeV3, layout: Layout)
    returns (r: Result<LiquidKeyframe, ExportError>)
    ensures r == KeyframeData(sheet, keyframe, layout)
  {
    if keyframe.frame !in layout {
      return Err(FrameWasNotPacked);
    }
    var packed := layout[keyframe.frame];
    var frame := GetFrame(sheet, keyframe.frame);
    if frame.None? {
      return Err(InvalidFrameReference);
    }
    // The frame found is in the sheet and packed, so its data is built.
    var frameData := FrameData(sheet, frame.value, layout);
    var hitboxes: seq<LiquidHitbox> := [];
    for i := 0 to |keyframe.hitboxes|
      invariant hitboxes == HitboxesData(keyframe)[..i]
    {
      hitboxes := hitboxes + [HitboxData(keyframe.hitboxes[i])];
    }
    assert HitboxesData(keyframe)[..|keyframe.hitboxes|] == HitboxesData(keyframe);
    return Ok(LiquidKeyframe(keyframe.duration, keyframe.offset.x, keyframe.offset.y,
                             keyframe.offset.x - packed.width / 2, keyframe.offset.y - packed.height / 2,
                             frameData.value, hitboxes));
  }

  function KeyframeResults(sheet: Migrations.SheetV3, animation: Migrations.AnimationV3, layout: Layout)
    : (rs: seq<Result<LiquidKeyframe, ExportError>>)
    ensures |rs| == |animation.timeline|
    ensures forall i :: 0 <= i < |rs| ==> rs[i] == KeyframeData(sheet, animation.timeline[i], layout)
  {
    seq(|animation.timeline|, i requires 0 <= i < |animation.timeline| => KeyframeData(sheet, animation.timeline[i], layout))
  }

  /** `liquid_data_from_animation`: the name, the looping flag and the keyframes in timeline order. */
  function AnimationData(sheet: Migrations.SheetV3, animation: Migrations.AnimationV3, layout: Layout)
    : (r: Result<LiquidAnimation, ExportError>)
    ensures r.Ok? <==> AllOk(KeyframeResults(sheet, animation, layout)).Ok?
    ensures r.Err? ==> r.error == AllOk(KeyframeResults(sheet, animation, layout)).error
    ensures r.Ok? ==> r.value.name == animation.name && r.value.isLooping == animation.isLooping
    ensures r.Ok? ==> |r.value.keyframes| == |animation.timeline| && forall i :: 0 <= i < |animation.timeline| ==>
      KeyframeData(sheet, animation.timeline[i], layout) == Ok(r.value.keyframes[i])
  {
    match AllOk(KeyframeResults(sheet, animation, layout))
    case Err(e) => Err(e)
    case Ok(ks) => Ok(LiquidAnimation(animation.name, animation.isLooping, ks))
  }

  /** An animation converts exactly when each keyframe shows a packed frame of the sheet. */
  lemma AnimationDataSucceeds(sheet: Migrations.SheetV3, animation: Migrations.AnimationV3, layout: Layout)
    ensures AnimationData(sheet, animation, layout).Ok? <==>
      forall k :: k in animation.timeline ==> k.frame in layout && GetFrame(sheet, k.frame).Some?
  {
    var rs := KeyframeResults(sheet, animation, layout);
    AllOkIff(rs);
    if AnimationData(sheet, animation, layout).Ok? {
      forall k | k in animation.timeline
        ensures k.frame in layout && GetFrame(sheet, k.frame).Some?
      {
        var i :| 0 <= i < |animation.timeline| && animation.timeline[i] == k;
        assert rs[i].Ok?;
      }
    } else {
      var i := FirstErr(rs);
      assert animation.timeline[i] in animation.timeline && rs[i].Err?;
    }
  }

  /** The keyframe loop of `liquid_data_from_animation`, returning on the first failure. */
  method BuildAnimation(sheet: Migrations.SheetV3, animation: Migrations.AnimationV3, layout: Layout)
    returns (r: Result<LiquidAnimation, ExportError>)
    ensures r == AnimationData(sheet, animation, layout)
  {
    ghost var rs := KeyframeResults(sheet, animation, layout);
    var keyframes: seq<LiquidKeyframe> := [];
    for i := 0 to |animation.timeline|
      invariant AllOk(rs[..i]) == Ok(keyframes)
    {
      var keyframe := BuildKeyframe(sheet, animation.timeline[i], layout);
      AllOkStep(rs, i, keyframes);
      if keyframe.Err? {
        return Err(keyframe.error);
      }
      keyframes := keyframes + [keyframe.value];
    }
    AllOkWhole(rs);
    return Ok(LiquidAnimation(animation.name, animation.isLooping, keyframes));
  }

  function FrameResults(sheet: Migrations.SheetV3, layout: Layout): (rs: seq<Result<LiquidFrame, ExportError>>)
    ensures |rs| == |sheet.frames|
    ensures forall i :: 0 <= i < |rs| ==> rs[i] == FrameData(sheet, sheet.frames[i], layout)
  {
    seq(|sheet.frames|, i requires 0 <= i < |sheet.frames| => FrameData(sheet, sheet.frames[i], layout))
  }

  function AnimationResults(sheet: Migrations.SheetV3, layout: Layout): (rs: seq<Result<LiquidAnimation, ExportError>>)
    ensures |rs| == |sheet.animations|
    ensures forall i :: 0 <= i < |rs| ==> rs[i] == AnimationData(sheet, sheet.animations[i], layout)
  {
    seq(|sheet.animations|, i requires 0 <= i < |sheet.animations| => AnimationData(sheet, sheet.animations[i], layout))
  }

  /**
   * `liquid_data_from_sheet`: the frames, then the animations, each in sheet
   * order, then the texture path relative to the metadata root.
   * `diffPaths` stands for the path-relativising library.
   */
  function SheetData(sheet: Migrations.SheetV3, settings: Migrations.ExportSettingsV2, layout: Layout,
                     diffPaths: (Path, Path) -> Option<Path>)
    : (r: Result<LiquidSheet, ExportError>)
    ensures AllOk(FrameResults(sheet, layout)).Err? ==> r == Err(AllOk(FrameResults(sheet, layout)).error)
    ensures AllOk(FrameResults(sheet, layout)).Ok? && AllOk(AnimationResults(sheet, layout)).Err? ==>
      r == Err(AllOk(AnimationResults(sheet, layout)).error)
    ensures r.Ok? <==> && AllOk(FrameResults(sheet, layout)).Ok? && AllOk(AnimationResults(sheet, layout)).Ok?
                       && diffPaths(settings.textureDestination, settings.metadataPathsRoot).Some?
    ensures r.Err? && AllOk(FrameResults(sheet, layout)).Ok? && AllOk(AnimationResults(sheet, layout)).Ok? ==>
      r == Err(AbsoluteToRelativePath)
    ensures r.Ok? ==> && Ok(r.value.frames) == AllOk(FrameResults(sheet, layout))
                      && Ok(r.value.animations) == AllOk(AnimationResults(sheet, layout))
                      && Some(r.value.sheetImage) == diffPaths(settings.textureDestination, settings.metadataPathsRoot)
  {
    var frames := AllOk(FrameResults(sheet, layout));
    if frames.Err? then Err(frames.error)
    else
      var animations := AllOk(AnimationResults(sheet, layout));
      if animations.Err? then Err(animations.error)
      else
        match diffPaths(settings.textureDestination, settings.metadataPathsRoot)
        case None => Err(AbsoluteToRelativePath)
        case Some(image) => Ok(LiquidSheet(frames.value, animations.value, image))
  }

  /**
   * The template data is built exactly when every frame of the sheet was
   * packed, every keyframe shows a packed frame of the sheet, and the
   * texture path can be made relative to the metadata root.
   */
  lemma SheetDataSucceeds(sheet: Migrations.SheetV3, settings: Migrations.ExportSettingsV2, layout: Layout,
                          diffPaths: (Path, Path) -> Option<Path>)
    ensures SheetData(sheet, settings, layout, diffPaths).Ok? <==>
      && (forall f :: f in sheet.frames ==> f.source in layout)
      && (forall a, k :: a in sheet.animations && k in a.timeline ==> k.frame in layout && GetFrame(sheet, k.frame).Some?)
      && diffPaths(settings.textureDestination, settings.metadataPathsRoot).Some?
  {
    FramesDataSucceed(sheet, layout);
    AnimationsDataSucceed(sheet, layout);
  }

  /** The frame list is built exactly when every frame of the sheet was packed. */
  lemma FramesDataSucceed(sheet: Migrations.SheetV3, layout: Layout)
    ensures AllOk(FrameResults(sheet, layout)).Ok? <==> forall f :: f in sheet.frames ==> f.source in layout
  {
    var frs := FrameResults(sheet, layout);
    AllOkIff(frs);
    if AllOk(frs).Ok? {
      forall f | f in sheet.frames
        ensures f.source in layout
      {
        var i :| 0 <= i < |sheet.frames| && sheet.frames[i] == f;
        assert frs[i].Ok?;
      }
    }
  }

  /** The animation list is built exactly when every keyframe shows a packed frame of the sheet. */
  lemma AnimationsDataSucceed(sheet: Migrations.SheetV3, layout: Layout)
    ensures AllOk(AnimationResults(sheet, layout)).Ok? <==>
      forall a, k :: a in sheet.animations && k in a.timeline ==> k.frame in layout && GetFrame(sheet, k.frame).Some?
  {
    var ars := AnimationResults(sheet, layout);
    AllOkIff(ars);
    forall a | a in sheet.animations {
      AnimationDataSucceeds(sheet, a, layout);
    }
    if AllOk(ars).Ok? {
      forall a | a in sheet.animations
        ensures AnimationData(sheet, a, layout).Ok?
      {
        var i :| 0 <= i < |sheet.animations| && sheet.animations[i] == a;
        assert ars[i].Ok?;
      }
    } else {
      var i := FirstErr(ars);
      assert sheet.animations[i] in sheet.animations && ars[i].Err?;
    }
  }

  /**
   * The frames of the template data follow the sheet's frame list, and
   * when no two frames share a source each one is numbered by its place in
   * that list.
   */
  lemma FramesInSheetOrder(sheet: Migrations.SheetV3, settings: Migrations.ExportSettingsV2, layout: Layout,
                           diffPaths: (Path, Path) -> Option<Path>)
    requires SheetData(sheet, settings, layout, diffPaths).Ok?
    ensures var frames := SheetData(sheet, settings, layout, diffPaths).value.frames;
      && |frames| == |sheet.frames|
      && (forall i :: 0 <= i < |frames| ==> frames[i].source == sheet.frames[i].source)
      && ((forall i, j :: 0 <= i < j < |sheet.frames| ==> sheet.frames[i] != sheet.frames[j]) ==>
            forall i :: 0 <= i < |frames| ==> frames[i].index == i)
  {
    var frames := SheetData(sheet, settings, layout, diffPaths).value.frames;
    var frs := FrameResults(sheet, layout);
    forall i | 0 <= i < |frames|
      ensures frames[i].source == sheet.frames[i].source
      ensures (forall i, j :: 0 <= i < j < |sheet.frames| ==> sheet.frames[i] != sheet.frames[j]) ==> frames[i].index == i
    {
      assert frs[i] == Ok(frames[i]);
    }
  }

  /** The frame and animation loops of `liquid_data_from_sheet`, each returning on the first failure. */
  method BuildSheet(sheet: Migrations.SheetV3, settings: Migrations.ExportSettingsV2, layout: Layout,
                    diffPaths: (Path, Path) -> Option<Path>)
    returns (r: Result<LiquidSheet, ExportError>)
    ensures r == SheetData(sheet, settings, layout, diffPaths)
  {
    ghost var frs := FrameResults(sheet, layout);
    var frames: seq<LiquidFrame> := [];
    for i := 0 to |sheet.frames|
      invariant AllOk(frs[..i]) == Ok(frames)
    {
      var frame := FrameData(sheet, sheet.frames[i], layout);
      AllOkStep(frs, i, frames);
      if frame.Err? {
        return Err(frame.error);
      }
      frames := frames + [frame.value];
    }
    AllOkWhole(frs);
    ghost var ars := AnimationResults(sheet, layout);
    var animations: seq<LiquidAnimation> := [];
    for i := 0 to |sheet.animations|
      invariant AllOk(ars[..i]) == Ok(animations)
    {
      var animation := BuildAnimation(sheet, sheet.animations[i], layout);
      AllOkStep(ars, i, animations);
      if animation.Err? {
        return Err(animation.error);
      }
      animations := animations + [animation.value];
    }
    AllOkWhole(ars);
    var image := diffPaths(settings.textureDestination, settings.metadataPathsRoot);
    if image.None? {
      return Err(AbsoluteToRelativePath);
    }
    return Ok(LiquidSheet(frames, animations, image.value));
  }
}
