/**
 * The view state of a document: what is being edited, where the workbench and
 * the lists are scrolled, the timeline clock and the selection. It is recorded
 * in history entries and compared there, so it is a value.
 */
module Views {
  import opened Wrappers
  import opened Sheets
  import opened Selections

  const MinWorkbenchZoom: nat := 1
  const MaxWorkbenchZoom: nat := 32
  const DefaultSnappingBaseMillis: nat := 100

  /**
   * List offsets and the workbench offset are floating point in the editor;
   * here they are integers. The timeline zoom amount is not modelled.
   */
  datatype View = View(
    animationsFilter: string,
    animationsListOffset: int,
    currentAnimation: Option<string>,
    currentSequence: Option<Direction>,
    darkenSprites: bool,
    framesFilter: string,
    framesGridOffset: int,
    framesListMode: ListMode,
    framesListOffset: int,
    hideHitboxes: bool,
    hideOrigin: bool,
    hideSprite: bool,
    hitboxesListOffset: int,
    keyframeSnappingBaseMillis: nat,
    lockHitboxes: bool,
    selection: SelectionState,
    snapKeyframeDurations: bool,
    snapKeyframesToMultiplesOfDuration: bool,
    snapKeyframesToOtherKeyframes: bool,
    timelineClock: nat,
    timelineOffset: nat,
    workbenchOffset: Vec2,
    workbenchZoomFactor: nat)

  const DefaultView: View := View(
    animationsFilter := "",
    animationsListOffset := 0,
    currentAnimation := None,
    currentSequence := None,
    darkenSprites := true,
    framesFilter := "",
    framesGridOffset := 0,
    framesListMode := Grid4xN,
    framesListOffset := 0,
    hideHitboxes := false,
    hideOrigin := false,
    hideSprite := false,
    hitboxesListOffset := 0,
    keyframeSnappingBaseMillis := DefaultSnappingBaseMillis,
    lockHitboxes := false,
    selection := EmptySelectionState,
    snapKeyframeDurations := true,
    snapKeyframesToMultiplesOfDuration := false,
    snapKeyframesToOtherKeyframes := true,
    timelineClock := 0,
    timelineOffset := 0,
    workbenchOffset := Vec2(0, 0),
    workbenchZoomFactor := 8)

  /** The zoom factor always stays within its bounds. */
  predicate ZoomInBounds(v: View) {
    MinWorkbenchZoom <= v.workbenchZoomFactor <= MaxWorkbenchZoom
  }

  function Clamp(x: nat, lo: nat, hi: nat): nat
    requires lo <= hi
  {
    if x < lo then lo else if x > hi then hi else x
  }

  /** `set_workbench_zoom_factor`: the factor clamped to [1, 32]. */
  function SetWorkbenchZoomFactor(v: View, factor: nat): (r: View)
    ensures ZoomInBounds(r)
    ensures MinWorkbenchZoom <= factor <= MaxWorkbenchZoom ==> r.workbenchZoomFactor == factor
    ensures factor < MinWorkbenchZoom ==> r.workbenchZoomFactor == MinWorkbenchZoom
    ensures factor > MaxWorkbenchZoom ==> r.workbenchZoomFactor == MaxWorkbenchZoom
    ensures r.(workbenchZoomFactor := v.workbenchZoomFactor) == v
  {
    v.(workbenchZoomFactor := Clamp(factor, MinWorkbenchZoom, MaxWorkbenchZoom))
  }

  /** `zoom_in_workbench`: double the factor, up to 32. */
  function ZoomInWorkbench(v: View): (r: View)
    ensures ZoomInBounds(r)
    ensures r.workbenchZoomFactor == if 2 * v.workbenchZoomFactor > MaxWorkbenchZoom then MaxWorkbenchZoom
                                     else if v.workbenchZoomFactor == 0 then MinWorkbenchZoom
                                     else 2 * v.workbenchZoomFactor
    ensures r.(workbenchZoomFactor := v.workbenchZoomFactor) == v
  {
    SetWorkbenchZoomFactor(v, v.workbenchZoomFactor * 2)
  }

  /** `zoom_out_workbench`: halve the factor (rounding down), down to 1. */
  function ZoomOutWorkbench(v: View): (r: View)
    ensures ZoomInBounds(r)
    ensures ZoomInBounds(v) ==> r.workbenchZoomFactor <= v.workbenchZoomFactor
    ensures v.workbenchZoomFactor >= 2 ==> r.workbenchZoomFactor == Clamp(v.workbenchZoomFactor / 2, MinWorkbenchZoom, MaxWorkbenchZoom)
    ensures v.workbenchZoomFactor <= 1 ==> r.workbenchZoomFactor == MinWorkbenchZoom
    ensures r.(workbenchZoomFactor := v.workbenchZoomFactor) == v
  {
    SetWorkbenchZoomFactor(v, v.workbenchZoomFactor / 2)
  }

  /** Zooming in then out restores the factor whenever zooming in was not capped. */
  lemma ZoomInThenOut(v: View)
    requires MinWorkbenchZoom <= v.workbenchZoomFactor <= MaxWorkbenchZoom / 2
    ensures ZoomOutWorkbench(ZoomInWorkbench(v)) == v
  {
  }

  /** `reset_workbench_zoom`. */
  function ResetWorkbenchZoom(v: View): (r: View)
    ensures r.workbenchZoomFactor == 1 && ZoomInBounds(r)
    ensures r.(workbenchZoomFactor := v.workbenchZoomFactor) == v
  {
    v.(workbenchZoomFactor := 1)
  }

  /** `center_workbench`. */
  function CenterWorkbench(v: View): (r: View)
    ensures r.workbenchOffset == Vec2(0, 0)
    ensures r.(workbenchOffset := v.workbenchOffset) == v
  {
    v.(workbenchOffset := Vec2(0, 0))
  }

  /** `skip_to_timeline_start`. */
  function SkipToTimelineStart(v: View): (r: View)
    ensures r.timelineClock == 0
    ensures r.(timelineClock := v.timelineClock) == v
  {
    v.(timelineClock := 0)
  }

  /** `reset_timeline_offset`. */
  function ResetTimelineOffset(v: View): (r: View)
    ensures r.timelineOffset == 0
    ensures r.(timelineOffset := v.timelineOffset) == v
  {
    v.(timelineOffset := 0)
  }

  /** `Document::frames_list_offset`: the offset of the active list mode. */
  function FramesListOffset(v: View): int {
    match v.framesListMode
    case Linear => v.framesListOffset
    case Grid4xN => v.framesGridOffset
  }

  /** `set_frames_list_offset`: writes the slot of the active list mode only. */
  function SetFramesListOffset(v: View, offset: int): (r: View)
    ensures FramesListOffset(r) == offset
    ensures r.framesListMode == v.framesListMode
    ensures v.framesListMode == Linear ==> r.framesGridOffset == v.framesGridOffset
    ensures v.framesListMode == Grid4xN ==> r.framesListOffset == v.framesListOffset
    ensures r.(framesListOffset := v.framesListOffset, framesGridOffset := v.framesGridOffset) == v
  {
    match v.framesListMode
    case Linear => v.(framesListOffset := offset)
    case Grid4xN => v.(framesGridOffset := offset)
  }

  /** Each list mode keeps its own offset: switching away and back gives back what was set. */
  lemma ListOffsetsPerMode(v: View, a: int, b: int)
    ensures var linear := SetFramesListOffset(v.(framesListMode := Linear), a);
            var grid := SetFramesListOffset(linear.(framesListMode := Grid4xN), b);
            FramesListOffset(grid.(framesListMode := Linear)) == a
            && FramesListOffset(grid) == b
  {
  }

  // ----- Filters -----

  /** Rust's `to_lowercase` restricted to ASCII letters. */
  function LowerChar(c: char): char {
    if 'A' <= c <= 'Z' then (c as int + 32) as char else c
  }

  function Lower(s: string): (r: string)
    ensures |r| == |s| && forall i :: 0 <= i < |s| ==> r[i] == LowerChar(s[i])
  {
    seq(|s|, i requires 0 <= i < |s| => LowerChar(s[i]))
  }

  /** The characters `split_ascii_whitespace` splits on. */
  predicate IsAsciiWhitespace(c: char) {
    c == ' ' || c == '\t' || c == '\n' || c == '\r' || c == '\U{C}'
  }

  /** The length of the leading run of non-whitespace characters. */
  function WordLength(s: string): (n: nat)
    ensures n <= |s|
    ensures forall i :: 0 <= i < n ==> !IsAsciiWhitespace(s[i])
    ensures n < |s| ==> IsAsciiWhitespace(s[n])
  {
    if s == [] || IsAsciiWhitespace(s[0]) then 0 else 1 + WordLength(s[1..])
  }

  /** `split_ascii_whitespace`: the non-empty runs of non-whitespace characters. */
  function Terms(s: string): (r: seq<string>)
    ensures forall t :: t in r ==> t != [] && forall c :: c in t ==> !IsAsciiWhitespace(c)
    decreases |s|
  {
    if s == [] then []
    else if IsAsciiWhitespace(s[0]) then Terms(s[1..])
    else
      var n := WordLength(s);
      [s[..n]] + Terms(s[n..])
  }

  predicate IsSubstring(needle: string, haystack: string) {
    exists i, j {:trigger haystack[i..j]} :: 0 <= i <= j <= |haystack| && haystack[i..j] == needle
  }

  /** Every term of a string occurs in it. */
  lemma {:induction false} TermsAreSubstrings(s: string)
    ensures forall t :: t in Terms(s) ==> IsSubstring(t, s)
    decreases |s|
  {
    if s == [] {
    } else if IsAsciiWhitespace(s[0]) {
      TermsAreSubstrings(s[1..]);
      assert Terms(s) == Terms(s[1..]);
      forall t | t in Terms(s) ensures IsSubstring(t, s) {
        SubstringOfSuffix(t, s, 1);
      }
    } else {
      var n := WordLength(s);
      TermsAreSubstrings(s[n..]);
      assert Terms(s) == [s[..n]] + Terms(s[n..]);
      forall t | t in Terms(s) ensures IsSubstring(t, s) {
        if t == s[..n] {
          assert s[0..n] == t;
        } else {
          SubstringOfSuffix(t, s, n);
        }
      }
    }
  }

  /** What occurs in a suffix of a string occurs in the string. */
  lemma SubstringOfSuffix(t: string, s: string, k: nat)
    requires k <= |s| && IsSubstring(t, s[k..])
    ensures IsSubstring(t, s)
  {
    var i, j :| 0 <= i <= j <= |s[k..]| && s[k..][i..j] == t;
    assert s[i + k..j + k] == t;
  }

  /** A string made only of whitespace has no terms. */
  lemma {:induction false} BlankHasNoTerms(s: string)
    requires forall i :: 0 <= i < |s| ==> IsAsciiWhitespace(s[i])
    ensures Terms(s) == []
    decreases |s|
  {
    if s != [] {
      BlankHasNoTerms(s[1..]);
    }
  }

  /** Whether `filter` hides `name`: some term of the lowercased filter is not in the lowercased name. */
  predicate IsFilteredOut(filter: string, name: string) {
    !forall t :: t in Terms(Lower(filter)) ==> IsSubstring(t, Lower(name))
  }

  /** `is_frame_filtered_out`. */
  predicate IsFrameFilteredOut(v: View, frame: Path) {
    IsFilteredOut(v.framesFilter, frame)
  }

  /** `is_animation_filtered_out`. */
  predicate IsAnimationFilteredOut(v: View, animation: string) {
    IsFilteredOut(v.animationsFilter, animation)
  }

  /** A blank filter hides nothing, and a filter never hides the name it was typed from. */
  lemma FilterKeeps(filter: string, name: string)
    ensures (forall i :: 0 <= i < |filter| ==> IsAsciiWhitespace(filter[i])) ==> !IsFilteredOut(filter, name)
    ensures !IsFilteredOut(name, name)
  {
    if forall i :: 0 <= i < |filter| ==> IsAsciiWhitespace(filter[i]) {
      var lowered := Lower(filter);
      assert forall i :: 0 <= i < |lowered| ==> IsAsciiWhitespace(lowered[i]);
      BlankHasNoTerms(lowered);
    }
    TermsAreSubstrings(Lower(name));
  }

  /** Lowercasing leaves a string without capital letters unchanged. */
  lemma LowerOfLowercase(s: string)
    requires forall i :: 0 <= i < |s| ==> !('A' <= s[i] <= 'Z')
    ensures Lower(s) == s
  {
  }

  /** The filter "a ack" has the two terms "a" and "ack". */
  lemma TermsOfScenarioFilter()
    ensures Terms(Lower("a ack")) == ["a", "ack"]
  {
    LowerOfLowercase("a ack");
    var s := "a ack";
    assert WordLength(s[1..]) == 0;
    assert WordLength(s) == 1;
    assert s[..1] == "a" && s[1..] == " ack";
    assert " ack"[1..] == "ack";
    assert WordLength("ack"[3..]) == 0;
    assert WordLength("ack") == 3;
    assert "ack"[..3] == "ack" && "ack"[3..] == [];
    assert Terms("ack") == ["ack"];
    assert Terms(" ack") == ["ack"];
  }

  /** The filter "a ack" keeps "attack-west". */
  lemma FilterKeepsMatchingFrame()
    ensures !IsFilteredOut("a ack", "attack-west")
  {
    TermsOfScenarioFilter();
    LowerOfLowercase("attack-west");
    var name := "attack-west";
    assert name[0..1] == "a";
    assert IsSubstring("a", name);
    assert name[3..6] == "ack";
    assert IsSubstring("ack", name);
    forall t | t in Terms(Lower("a ack")) ensures IsSubstring(t, Lower(name)) {
      assert t == "a" || t == "ack";
    }
  }

  /** Every character of a substring occurs in the enclosing string. */
  lemma SubstringCharacters(needle: string, haystack: string)
    requires IsSubstring(needle, haystack)
    ensures forall c :: c in needle ==> c in haystack
  {
    var i, j :| 0 <= i <= j <= |haystack| && haystack[i..j] == needle;
    forall c | c in needle ensures c in haystack {
      var k :| 0 <= k < |needle| && needle[k] == c;
      assert haystack[i + k] == c;
    }
  }

  /** The filter "a ack" hides "dead-all", which does not contain "ack". */
  lemma FilterHidesOtherFrame()
    ensures IsFilteredOut("a ack", "dead-all")
  {
    TermsOfScenarioFilter();
    LowerOfLowercase("dead-all");
    var name := "dead-all";
    assert 'c' in "ack" && 'c' !in name;
    if IsSubstring("ack", name) {
      SubstringCharacters("ack", name);
    }
  }
}
