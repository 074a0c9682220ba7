/**
 * The view state of the older engine. Zoom is an integer level rather than
 * a factor: a positive level magnifies by that much, and a negative level
 * -n shrinks to 1/n. Zooming in doubles a positive level and halves a
 * negative one, jumping from -2 straight to 1; zooming out mirrors this.
 * The older document view keeps an unsigned workbench level instead.
 */
module LegacyViews {
  import opened Wrappers
  import opened Sheets
  import Views

  /** Rust's `/ 2` on `i32`, which rounds toward zero. */
  function HalfTowardZero(x: int): (r: int)
    ensures x >= 0 ==> r == x / 2
    ensures x < 0 ==> r == -((-x) / 2)
  {
    if x >= 0 then x / 2 else -((-x) / 2)
  }

  /** One zoom-in step on a signed level, capped at `cap`. */
  function ZoomInLevel(level: int, cap: int): (r: int)
    ensures r <= cap
  {
    var stepped := if level >= 1 then level * 2 else if level == -2 then 1 else HalfTowardZero(level);
    if stepped < cap then stepped else cap
  }

  /** One zoom-out step on a signed level, floored at `floor`. */
  function ZoomOutLevel(level: int, floor: int): (r: int)
    ensures r >= floor
  {
    var stepped := if level > 1 then HalfTowardZero(level) else if level == 1 then -2 else level * 2;
    if stepped > floor then stepped else floor
  }

  /** The levels the workbench can reach from the default 1: magnifications up to 32, reductions down to 1/4. */
  predicate WorkbenchLevel(level: int) {
    level == 1 || level == 2 || level == 4 || level == 8 || level == 16 || level == 32 || level == -2 || level == -4
  }

  /** The levels the timeline can reach from the default 1. */
  predicate TimelineLevel(level: int) {
    level == 1 || level == 2 || level == 4 || level == -2 || level == -4
  }

  /**
   * Zooming the workbench in or out keeps it on a reachable level, so the
   * level is never 0, -1 or -3: the factor is never zero and never 1/1 or
   * 1/3.
   */
  lemma WorkbenchZoomKeepsLevels(level: int)
    requires WorkbenchLevel(level)
    ensures WorkbenchLevel(ZoomInLevel(level, 32)) && WorkbenchLevel(ZoomOutLevel(level, -4))
    ensures level != 0 && level != -1 && level != -3
  {
  }

  /** The same holds for the timeline, with a cap of 4 and a floor of -4. */
  lemma TimelineZoomKeepsLevels(level: int)
    requires TimelineLevel(level)
    ensures TimelineLevel(ZoomInLevel(level, 4)) && TimelineLevel(ZoomOutLevel(level, -4))
  {
  }

  /** Zooming out and back in returns to the level, everywhere but at the floor. */
  lemma ZoomOutThenIn(level: int)
    requires WorkbenchLevel(level) && level != -4
    ensures ZoomInLevel(ZoomOutLevel(level, -4), 32) == level
  {
  }

  datatype ZoomStep = ZoomIn | ZoomOut | ResetZoom

  /** The workbench level after a series of zoom steps. */
  function WorkbenchLevelAfter(level: int, steps: seq<ZoomStep>): int
    decreases |steps|
  {
    if steps == [] then level
    else
      var next := match steps[0]
        case ZoomIn => ZoomInLevel(level, 32)
        case ZoomOut => ZoomOutLevel(level, -4)
        case ResetZoom => 1;
      WorkbenchLevelAfter(next, steps[1..])
  }

  /** From the default level, no series of zoom steps reaches 0, -1 or -3. */
  lemma {:induction false} ZoomNeverReachesForbiddenLevels(level: int, steps: seq<ZoomStep>)
    requires WorkbenchLevel(level)
    ensures WorkbenchLevel(WorkbenchLevelAfter(level, steps))
    ensures WorkbenchLevelAfter(level, steps) !in {0, -1, -3}
    decreases |steps|
  {
    if steps != [] {
      WorkbenchZoomKeepsLevels(level);
      var next := match steps[0]
        case ZoomIn => ZoomInLevel(level, 32)
        case ZoomOut => ZoomOutLevel(level, -4)
        case ResetZoom => 1;
      ZoomNeverReachesForbiddenLevels(next, steps[1..]);
    }
  }

  datatype ContentTab = Frames | Animations

  /**
   * The view of the oldest Rust engine. It is a value: the document clones it
   * into its history and compares it with `==`. The selection type is a
   * parameter, because the document holding this view drives a selection of
   * its own revision. The workbench offset is kept as integers.
   */
  datatype View<S> = View(
    contentTab: ContentTab,
    selection: S,
    currentAnimation: Option<string>,
    currentSequence: Option<Direction>,
    workbenchOffset: (int, int),
    timelineClock: nat,
    workbenchZoomLevel: int,
    timelineZoomLevel: int)
  {
    /** Both zoom levels are ones the zoom steps can reach from the default. */
    predicate Valid() {
      WorkbenchLevel(workbenchZoomLevel) && TimelineLevel(timelineZoomLevel)
    }
  }

  /** `View::default`: the frames tab, nothing edited, no offset, the clock at 0, both zoom levels at 1. */
  function DefaultView<S>(selection: S): (r: View<S>)
    ensures r.Valid() && r.workbenchZoomLevel == 1 && r.timelineZoomLevel == 1
    ensures r.currentAnimation.None? && r.currentSequence.None? && r.timelineClock == 0 && r.workbenchOffset == (0, 0)
  {
    View(Frames, selection, None, None, (0, 0), 0, 1, 1)
  }

  function ZoomInWorkbench<S>(v: View<S>): View<S> {
    v.(workbenchZoomLevel := ZoomInLevel(v.workbenchZoomLevel, 32))
  }

  function ZoomOutWorkbench<S>(v: View<S>): View<S> {
    v.(workbenchZoomLevel := ZoomOutLevel(v.workbenchZoomLevel, -4))
  }

  function ResetWorkbenchZoom<S>(v: View<S>): View<S> {
    v.(workbenchZoomLevel := 1)
  }

  function ZoomInTimeline<S>(v: View<S>): View<S> {
    v.(timelineZoomLevel := ZoomInLevel(v.timelineZoomLevel, 4))
  }

  function ZoomOutTimeline<S>(v: View<S>): View<S> {
    v.(timelineZoomLevel := ZoomOutLevel(v.timelineZoomLevel, -4))
  }

  function ResetTimelineZoom<S>(v: View<S>): View<S> {
    v.(timelineZoomLevel := 1)
  }

  /** `pan`: the offset moves by the delta. */
  function Pan<S>(v: View<S>, delta: (int, int)): View<S> {
    v.(workbenchOffset := (v.workbenchOffset.0 + delta.0, v.workbenchOffset.1 + delta.1))
  }

  function CenterWorkbench<S>(v: View<S>): View<S> {
    v.(workbenchOffset := (0, 0))
  }

  function SkipToTimelineStart<S>(v: View<S>): View<S> {
    v.(timelineClock := 0)
  }

  /**
   * Every zoom step and reset keeps a valid view valid, so its zoom levels
   * stay among the reachable ones; each step touches only its own level,
   * and panning by a delta and back returns the offset.
   */
  lemma ZoomingKeepsViewValid<S>(v: View<S>, delta: (int, int))
    requires v.Valid()
    ensures ZoomInWorkbench(v).Valid() && ZoomOutWorkbench(v).Valid() && ResetWorkbenchZoom(v).Valid()
    ensures ZoomInTimeline(v).Valid() && ZoomOutTimeline(v).Valid() && ResetTimelineZoom(v).Valid()
    ensures ZoomInWorkbench(v).timelineZoomLevel == v.timelineZoomLevel
    ensures ZoomInTimeline(v).workbenchZoomLevel == v.workbenchZoomLevel
    ensures Pan(Pan(v, delta), (-delta.0, -delta.1)) == v
  {
    WorkbenchZoomKeepsLevels(v.workbenchZoomLevel);
    TimelineZoomKeepsLevels(v.timelineZoomLevel);
  }

  // ----- The older document view: an unsigned workbench level -----

  /** `zoom_in_workbench` on the unsigned level: double, at most 32. */
  function ZoomInUnsigned(level: nat): (r: nat)
    ensures r <= 32
    ensures level <= 16 ==> r == 2 * level
    ensures level >= 16 ==> r == 32
  {
    if level * 2 < 32 then level * 2 else 32
  }

  /** `zoom_out_workbench` on the unsigned level: halve, at least 1. */
  function ZoomOutUnsigned(level: nat): (r: nat)
    ensures r >= 1
    ensures level >= 2 ==> r == level / 2
    ensures level <= 1 ==> r == 1
  {
    if level / 2 > 1 then level / 2 else 1
  }

  /** On the levels between 1 and 32 the unsigned steps stay between 1 and 32, and zooming in undoes zooming out on even levels. */
  lemma UnsignedZoomStaysInRange(level: nat)
    requires 1 <= level <= 32
    ensures 1 <= ZoomInUnsigned(level) <= 32 && 1 <= ZoomOutUnsigned(level) <= 32
    ensures level % 2 == 0 ==> ZoomInUnsigned(ZoomOutUnsigned(level)) == level
  {
  }

  /** The older filters: like the newer ones, but the terms are matched case-sensitively. */
  predicate IsFilteredOutCaseSensitive(filter: string, name: string) {
    !forall t :: t in Views.Terms(filter) ==> Views.IsSubstring(t, name)
  }

  /** A blank filter hides nothing, and a name typed as the filter is never hidden. */
  lemma CaseSensitiveFilterKeeps(filter: string, name: string)
    ensures (forall i :: 0 <= i < |filter| ==> Views.IsAsciiWhitespace(filter[i])) ==> !IsFilteredOutCaseSensitive(filter, name)
    ensures !IsFilteredOutCaseSensitive(name, name)
  {
    if forall i :: 0 <= i < |filter| ==> Views.IsAsciiWhitespace(filter[i]) {
      Views.BlankHasNoTerms(filter);
    }
    Views.TermsAreSubstrings(name);
  }
}
