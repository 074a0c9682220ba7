/**
 * The front-end's replica of the backend state and the getters its views
 * read: the current document, animation, sequence and keyframe, the
 * selected items of each kind, and the flags that enable cut, copy and
 * paste. The replica is written in the shape the backend sends, with
 * JavaScript's `null` and `undefined` kept apart where a getter can return
 * either.
 */
module FrontEndState {
  import opened Wrappers

  /** A JavaScript value that may be `null`, `undefined` or an object. */
  datatype Js<T> = Null | Undefined | Object(value: T)

  datatype FrameDto = FrameDto(path: string, selected: bool, missingOnDisk: bool)
  datatype HitboxDto = HitboxDto(name: string, selected: bool)
  datatype KeyframeDto = KeyframeDto(frame: string, selected: bool, hitboxes: seq<HitboxDto>)
  datatype SequenceDto = SequenceDto(keyframes: seq<KeyframeDto>)

  /**
   * `sequences` is a record keyed by direction name; the pairs are kept in
   * the order the record's keys were inserted, which is the order
   * `Object.values` visits them.
   */
  datatype AnimationDto = AnimationDto(name: string, selected: bool, sequences: seq<(string, SequenceDto)>)
  datatype SheetDto = SheetDto(frames: seq<FrameDto>, animations: seq<AnimationDto>)
  datatype DocumentDto = DocumentDto(
    path: string,
    wasCloseRequested: bool,
    sheet: SheetDto,
    currentAnimationName: Option<string>,
    currentSequenceDirection: Option<string>,
    currentKeyframeIndex: Option<int>,
    timelineIsPlaying: bool)

  datatype ClipboardManifest = Animations | Keyframes | Hitboxes
  datatype OnboardingStep = NotStarted | ImportFrame | CreateAnimation | PlaceFrameOnTimeline | Completed
  datatype UserFacingError = UserFacingError(key: string)

  datatype State = State(
    documents: seq<DocumentDto>,
    currentDocumentPath: Option<string>,
    clipboardManifest: Option<ClipboardManifest>,
    error: Option<UserFacingError>,
    onboardingStep: OnboardingStep)

  // ----- Lookups -----

  /** The first document whose path is `path`. */
  function FirstDocumentAt(documents: seq<DocumentDto>, path: string): (r: Option<nat>)
    ensures r.Some? ==> r.value < |documents| && documents[r.value].path == path
    ensures r.Some? ==> forall j :: 0 <= j < r.value ==> documents[j].path != path
    ensures r.None? ==> forall j :: 0 <= j < |documents| ==> documents[j].path != path
    decreases |documents|
  {
    if documents == [] then None
    else if documents[0].path == path then Some(0)
    else
      match FirstDocumentAt(documents[1..], path)
      case None => None
      case Some(i) => Some(i + 1)
  }

  /** The first animation named `name`. */
  function FirstAnimationNamed(animations: seq<AnimationDto>, name: string): (r: Option<AnimationDto>)
    ensures r.Some? ==> r.value in animations && r.value.name == name
    ensures r.None? <==> forall a :: a in animations ==> a.name != name
    decreases |animations|
  {
    if animations == [] then None
    else if animations[0].name == name then Some(animations[0])
    else FirstAnimationNamed(animations[1..], name)
  }

  /** A record's value under `key`, or `undefined` when the key is absent. */
  function RecordLookup(record: seq<(string, SequenceDto)>, key: string): (r: Js<SequenceDto>)
    ensures !r.Null?
    ensures r.Object? ==> (key, r.value) in record
    ensures r.Undefined? <==> forall entry :: entry in record ==> entry.0 != key
    decreases |record|
  {
    if record == [] then Undefined
    else if record[0].0 == key then Object(record[0].1)
    else RecordLookup(record[1..], key)
  }

  /** The items of `xs` that `keep` accepts, in order. */
  function Filter<T(!new)>(xs: seq<T>, keep: T -> bool): (r: seq<T>)
    ensures |r| <= |xs|
    ensures forall x :: x in r <==> x in xs && keep(x)
    decreases |xs|
  {
    if xs == [] then []
    else (if keep(xs[0]) then [xs[0]] else []) + Filter(xs[1..], keep)
  }

  // ----- The getters -----

  /** `currentDocument`: the first document at the current path, else null. */
  function CurrentDocument(state: State): (r: Option<DocumentDto>)
    ensures r.Some? <==> state.currentDocumentPath.Some? && exists d :: d in state.documents && d.path == state.currentDocumentPath.value
    ensures r.Some? ==> r.value in state.documents && r.value.path == state.currentDocumentPath.value
  {
    if state.currentDocumentPath.None? then None
    else
      match FirstDocumentAt(state.documents, state.currentDocumentPath.value)
      case None => None
      case Some(i) => Some(state.documents[i])
  }

  /**
   * `currentAnimation`: null without a current document, without a name or
   * with an empty one, or when no animation of the sheet has that name.
   */
  function CurrentAnimation(state: State): (r: Option<AnimationDto>)
    ensures r.Some? ==>
      && CurrentDocument(state).Some?
      && CurrentDocument(state).value.currentAnimationName == Some(r.value.name)
      && r.value.name != ""
      && r.value in CurrentDocument(state).value.sheet.animations
    ensures CurrentDocument(state).Some? && CurrentDocument(state).value.currentAnimationName.Some? ==>
      var name := CurrentDocument(state).value.currentAnimationName.value;
      (r.None? <==> name == "" || forall a :: a in CurrentDocument(state).value.sheet.animations ==> a.name != name)
  {
    match CurrentDocument(state)
    case None => None
    case Some(document) =>
      match document.currentAnimationName
      case None => None
      case Some(name) => if name == "" then None else FirstAnimationNamed(document.sheet.animations, name)
  }

  /**
   * `currentSequence`: null unless there is a current animation and a
   * direction; then the animation's sequence under that direction, which is
   * `undefined` when the animation has none there.
   */
  function CurrentSequence(state: State): (r: Js<SequenceDto>)
    ensures !r.Null? <==>
      && CurrentAnimation(state).Some?
      && CurrentDocument(state).value.currentSequenceDirection.Some?
      && CurrentDocument(state).value.currentSequenceDirection.value != ""
    ensures r.Object? ==>
      (CurrentDocument(state).value.currentSequenceDirection.value, r.value) in CurrentAnimation(state).value.sequences
  {
    match CurrentAnimation(state)
    case None => Null
    case Some(animation) =>
      match CurrentDocument(state).value.currentSequenceDirection
      case None => Null
      case Some(direction) => if direction == "" then Null else RecordLookup(animation.sequences, direction)
  }

  /**
   * `currentKeyframe`: null unless there is a current sequence and a
   * keyframe index; then the keyframe at that index, which is `undefined`
   * when the index is out of range. It never fails.
   */
  function CurrentKeyframe(state: State): (r: Js<KeyframeDto>)
    ensures !r.Null? <==> CurrentSequence(state).Object? && CurrentDocument(state).value.currentKeyframeIndex.Some?
    ensures r.Object? ==>
      var index := CurrentDocument(state).value.currentKeyframeIndex.value;
      var keyframes := CurrentSequence(state).value.keyframes;
      0 <= index < |keyframes| && r.value == keyframes[index]
    ensures r.Undefined? ==>
      var index := CurrentDocument(state).value.currentKeyframeIndex.value;
      index < 0 || index >= |CurrentSequence(state).value.keyframes|
  {
    match CurrentSequence(state)
    case Object(sequence) =>
      (match CurrentDocument(state).value.currentKeyframeIndex
       case None => Null
       case Some(index) => if 0 <= index < |sequence.keyframes| then Object(sequence.keyframes[index]) else Undefined)
    case _ => Null
  }

  predicate FrameSelected(f: FrameDto) { f.selected }
  predicate AnimationSelected(a: AnimationDto) { a.selected }
  predicate HitboxSelected(h: HitboxDto) { h.selected }
  predicate KeyframeSelected(k: KeyframeDto) { k.selected }

  /** `selectedFrames`: null without a current document, else its selected frames. */
  function SelectedFrames(state: State): (r: Option<seq<FrameDto>>)
    ensures r.Some? <==> CurrentDocument(state).Some?
    ensures r.Some? ==> forall f :: f in r.value <==> f in CurrentDocument(state).value.sheet.frames && f.selected
  {
    match CurrentDocument(state)
    case None => None
    case Some(document) => Some(Filter(document.sheet.frames, FrameSelected))
  }

  /** `selectedAnimations`: null without a current document, else its selected animations. */
  function SelectedAnimations(state: State): (r: Option<seq<AnimationDto>>)
    ensures r.Some? <==> CurrentDocument(state).Some?
    ensures r.Some? ==> forall a :: a in r.value <==> a in CurrentDocument(state).value.sheet.animations && a.selected
  {
    match CurrentDocument(state)
    case None => None
    case Some(document) => Some(Filter(document.sheet.animations, AnimationSelected))
  }

  /** `selectedHitboxes`: null without a current keyframe, else its selected hitboxes. */
  function SelectedHitboxes(state: State): (r: Option<seq<HitboxDto>>)
    ensures r.Some? <==> CurrentKeyframe(state).Object?
    ensures r.Some? ==> forall h :: h in r.value <==> h in CurrentKeyframe(state).value.hitboxes && h.selected
  {
    match CurrentKeyframe(state)
    case Object(keyframe) => Some(Filter(keyframe.hitboxes, HitboxSelected))
    case _ => None
  }

  /** The selected keyframes of every sequence of a record, sequence after sequence. */
  function SelectedInSequences(record: seq<(string, SequenceDto)>): (r: seq<KeyframeDto>)
    ensures forall k :: k in r <==> k.selected && exists entry :: entry in record && k in entry.1.keyframes
    decreases |record|
  {
    if record == [] then []
    else
      var rest := SelectedInSequences(record[1..]);
      assert forall entry :: entry in record <==> entry == record[0] || entry in record[1..];
      Filter(record[0].1.keyframes, KeyframeSelected) + rest
  }

  /** `selectedKeyframes`: null without a current animation, else the selected keyframes of all its sequences. */
  function SelectedKeyframes(state: State): (r: Option<seq<KeyframeDto>>)
    ensures r.Some? <==> CurrentAnimation(state).Some?
    ensures r.Some? ==> forall k :: k in r.value <==>
      k.selected && exists entry :: entry in CurrentAnimation(state).value.sequences && k in entry.1.keyframes
  {
    match CurrentAnimation(state)
    case None => None
    case Some(animation) => Some(SelectedInSequences(animation.sequences))
  }

  /** `!!xs?.length`: present and non-empty. */
  predicate NonEmpty<T>(xs: Option<seq<T>>) {
    xs.Some? && |xs.value| > 0
  }

  /** `anyFramesMissing`: some frame of the current document is missing on disk. */
  function AnyFramesMissing(state: State): (r: bool)
    ensures r <==> CurrentDocument(state).Some? && exists f :: f in CurrentDocument(state).value.sheet.frames && f.missingOnDisk
  {
    CurrentDocument(state).Some? && exists f :: f in CurrentDocument(state).value.sheet.frames && f.missingOnDisk
  }

  /** `canCut`: something other than a frame is selected. */
  function CanCut(state: State): bool {
    NonEmpty(SelectedAnimations(state)) || NonEmpty(SelectedKeyframes(state)) || NonEmpty(SelectedHitboxes(state))
  }

  /** `canCopy`: something, frames included, is selected. */
  function CanCopy(state: State): bool {
    NonEmpty(SelectedFrames(state)) || NonEmpty(SelectedAnimations(state))
    || NonEmpty(SelectedKeyframes(state)) || NonEmpty(SelectedHitboxes(state))
  }

  /** A list is non-empty exactly when it has a member. */
  lemma NonEmptyHasMember<T(!new)>(xs: Option<seq<T>>)
    ensures NonEmpty(xs) <==> xs.Some? && exists x :: x in xs.value
  {
    if NonEmpty(xs) {
      assert xs.value[0] in xs.value;
    }
  }

  /**
   * Cutting is possible exactly when an animation of the current document,
   * a keyframe of the current animation or a hitbox of the current keyframe
   * is selected; copying also when a frame is.
   */
  lemma CutAndCopyNeedASelection(state: State)
    ensures CanCut(state) <==>
      || (CurrentDocument(state).Some? && exists a :: a in CurrentDocument(state).value.sheet.animations && a.selected)
      || (CurrentAnimation(state).Some? && exists entry, k :: entry in CurrentAnimation(state).value.sequences && k in entry.1.keyframes && k.selected)
      || (CurrentKeyframe(state).Object? && exists h :: h in CurrentKeyframe(state).value.hitboxes && h.selected)
    ensures CanCopy(state) <==> CanCut(state) || (CurrentDocument(state).Some? && exists f :: f in CurrentDocument(state).value.sheet.frames && f.selected)
  {
    NonEmptyHasMember(SelectedFrames(state));
    NonEmptyHasMember(SelectedAnimations(state));
    NonEmptyHasMember(SelectedKeyframes(state));
    NonEmptyHasMember(SelectedHitboxes(state));
  }

  /** `canPaste`: there is something on the clipboard and a document to paste into. */
  function CanPaste(state: State): (r: bool)
    ensures r ==> state.currentDocumentPath.Some?
  {
    state.clipboardManifest.Some? && CurrentDocument(state).Some?
  }

  /** `onboardingInProgress`: the onboarding has started and is not completed. */
  function OnboardingInProgress(state: State): (r: bool)
    ensures r <==> state.onboardingStep in {ImportFrame, CreateAnimation, PlaceFrameOnTimeline}
  {
    state.onboardingStep != NotStarted && state.onboardingStep != Completed
  }

  /**
   * `activeModalId`: the error dialog first, then the close confirmation of
   * the current document, else none.
   */
  function ActiveModalId(state: State): (r: Option<string>)
    ensures state.error.Some? ==> r == Some(state.error.value.key)
    ensures r.None? <==> state.error.None? && (CurrentDocument(state).None? || !CurrentDocument(state).value.wasCloseRequested)
  {
    if state.error.Some? then Some(state.error.value.key)
    else match CurrentDocument(state)
      case Some(document) => if document.wasCloseRequested then Some("closing_" + document.path) else None
      case None => None
  }

  /**
   * The getters fail closed along the chain: a keyframe object needs a
   * sequence object, which needs an animation, which needs a document; the
   * selection getters follow the same links.
   */
  lemma SelectorsFailClosed(state: State)
    ensures CurrentKeyframe(state).Object? ==> CurrentSequence(state).Object?
    ensures !CurrentSequence(state).Null? ==> CurrentAnimation(state).Some?
    ensures CurrentAnimation(state).Some? ==> CurrentDocument(state).Some?
    ensures SelectedHitboxes(state).Some? ==> SelectedKeyframes(state).Some? && SelectedFrames(state).Some?
  {
  }

  /**
   * A close confirmation names the document it belongs to: its id is
   * "closing_" followed by the current document's path.
   */
  lemma ClosingModalNamesDocument(state: State)
    requires state.error.None? && ActiveModalId(state).Some?
    ensures CurrentDocument(state).Some? && CurrentDocument(state).value.wasCloseRequested
    ensures ActiveModalId(state).value == "closing_" + CurrentDocument(state).value.path
    ensures ActiveModalId(state).value[8..] == state.currentDocumentPath.value
  {
  }
}
