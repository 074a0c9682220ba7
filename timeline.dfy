/**
 * The timeline of a document: playback, scrubbing, jumping between keyframes,
 * cycling through directions, and the operations on the current animation
 * that the timeline exposes.
 */
module Timeline {
  import opened Wrappers
  import opened Sheets
  import opened Selections
  import opened Views
  import opened Documents

  /**
   * The view and the playing flag after `advance_timeline`: while playing the
   * clock moves forward; a looping animation wraps around its duration, a
   * non-looping one stops at its end (where a selection of at most one
   * keyframe follows the clock), and an empty sequence stops playback at 0.
   */
  function Advance(sheet: Sheet, view: View, playing: bool, deltaMillis: nat): (r: (View, bool))
  {
    if !playing then (view, false)
    else Ticked(sheet, view.(timelineClock := view.timelineClock + deltaMillis))
  }

  /** What a playing timeline becomes once its clock has moved forward to where `advanced` holds it. */
  function Ticked(sheet: Sheet, advanced: View): (View, bool)
  {
    var animation := WorkbenchAnimation(sheet, advanced);
    var sequence := WorkbenchSequence(sheet, advanced);
    if animation.Ok? && sequence.Ok? then
      match DurationMillis(sequence.value.1)
      case Some(d) =>
        if d == 0 then (SkipToTimelineStart(advanced), false)
        else if animation.value.1.isLooping then (advanced.(timelineClock := advanced.timelineClock % d), true)
        else if advanced.timelineClock >= d then
          var atEnd := advanced.(timelineClock := d);
          (if |atEnd.selection.keyframes.selected| <= 1 then TrySelectCurrentKeyframe(sheet, atEnd) else atEnd, false)
        else (advanced, true)
      case None => (SkipToTimelineStart(advanced), false)
    else (advanced, true)
  }

  /** `Document::advance_timeline`. */
  method AdvanceTimeline(doc: Document, deltaMillis: nat)
    modifies doc
    ensures doc.sheet == old(doc.sheet) && doc.transient == old(doc.transient) && doc.KeepsHistory()
    ensures doc.persistent == old(doc.persistent).(timelineIsPlaying := doc.persistent.timelineIsPlaying)
    ensures (doc.view, doc.persistent.timelineIsPlaying)
            == Advance(old(doc.sheet), old(doc.view), old(doc.persistent.timelineIsPlaying), deltaMillis)
  {
    if !doc.persistent.timelineIsPlaying {
      return;
    }
    var view, playing := Tick(doc.sheet, doc.view.(timelineClock := doc.view.timelineClock + deltaMillis));
    doc.view := view;
    doc.persistent := doc.persistent.(timelineIsPlaying := playing);
  }

  /** The body of `advance_timeline` once the clock has moved forward. */
  method Tick(sheet: Sheet, advanced: View) returns (view: View, playing: bool)
    ensures (view, playing) == Ticked(sheet, advanced)
  {
    view, playing := advanced, true;
    var animation := WorkbenchAnimation(sheet, view);
    var sequence := WorkbenchSequence(sheet, view);
    if animation.Ok? && sequence.Ok? {
      var duration := DurationMillis(sequence.value.1);
      if duration.Some? && duration.value > 0 {
        var d := duration.value;
        if animation.value.1.isLooping {
          view := view.(timelineClock := view.timelineClock % d);
        } else if view.timelineClock >= d {
          playing := false;
          view := view.(timelineClock := d);
          if |view.selection.keyframes.selected| <= 1 {
            view := TrySelectCurrentKeyframe(sheet, view);
          }
        }
      } else {
        playing := false;
        view := SkipToTimelineStart(view);
      }
    }
  }

  /** Advancing a paused timeline changes nothing. */
  lemma AdvanceWhilePaused(sheet: Sheet, view: View, deltaMillis: nat)
    ensures Advance(sheet, view, false, deltaMillis) == (view, false)
  {
  }

  /** A looping animation keeps playing, its clock strictly before the end of the sequence. */
  lemma AdvanceLoopingStaysInSequence(sheet: Sheet, view: View, deltaMillis: nat)
    requires WorkbenchSequence(sheet, view).Ok?
    requires TotalMillis(WorkbenchSequence(sheet, view).value.1.keyframes) > 0
    requires WorkbenchAnimation(sheet, view).value.1.isLooping
    ensures var r := Advance(sheet, view, true, deltaMillis);
      && r.1
      && r.0 == view.(timelineClock := r.0.timelineClock)
      && r.0.timelineClock == (view.timelineClock + deltaMillis) % TotalMillis(WorkbenchSequence(sheet, view).value.1.keyframes)
  {
    var advanced := view.(timelineClock := view.timelineClock + deltaMillis);
    ResolutionDependsOnCurrents(sheet, view, advanced);
  }

  /**
   * A non-looping animation plays on with the selection untouched while the
   * clock is before the end, and otherwise stops exactly at the end.
   */
  lemma AdvanceStopsAtEnd(sheet: Sheet, view: View, deltaMillis: nat)
    requires WorkbenchSequence(sheet, view).Ok?
    requires TotalMillis(WorkbenchSequence(sheet, view).value.1.keyframes) > 0
    requires !WorkbenchAnimation(sheet, view).value.1.isLooping
    ensures var d := TotalMillis(WorkbenchSequence(sheet, view).value.1.keyframes);
      var r := Advance(sheet, view, true, deltaMillis);
      && (view.timelineClock + deltaMillis < d ==> r == (view.(timelineClock := view.timelineClock + deltaMillis), true))
      && (view.timelineClock + deltaMillis >= d ==> !r.1 && r.0.timelineClock == d)
  {
    var advanced := view.(timelineClock := view.timelineClock + deltaMillis);
    ResolutionDependsOnCurrents(sheet, view, advanced);
    var d := TotalMillis(WorkbenchSequence(sheet, view).value.1.keyframes);
    if advanced.timelineClock >= d {
      var atEnd := advanced.(timelineClock := d);
      assert TrySelectCurrentKeyframe(sheet, atEnd).timelineClock == d;
    }
  }

  /** Two ticks of a looping animation land where one tick of their sum does. */
  lemma AdvanceLoopingComposes(sheet: Sheet, view: View, a: nat, b: nat)
    requires WorkbenchSequence(sheet, view).Ok?
    requires TotalMillis(WorkbenchSequence(sheet, view).value.1.keyframes) > 0
    requires WorkbenchAnimation(sheet, view).value.1.isLooping
    ensures var first := Advance(sheet, view, true, a);
      Advance(sheet, first.0, first.1, b) == Advance(sheet, view, true, a + b)
  {
    var d := TotalMillis(WorkbenchSequence(sheet, view).value.1.keyframes);
    var c := view.timelineClock;
    AdvanceLooping(sheet, view, a);
    var first := view.(timelineClock := (c + a) % d);
    ResolutionDependsOnCurrents(sheet, view, first);
    AdvanceLooping(sheet, first, b);
    AdvanceLooping(sheet, view, a + b);
    ModAddLeft(c, a, b, d);
  }

  /** One tick of a looping animation wraps the clock around the sequence's duration. */
  lemma AdvanceLooping(sheet: Sheet, view: View, delta: nat)
    requires WorkbenchSequence(sheet, view).Ok?
    requires TotalMillis(WorkbenchSequence(sheet, view).value.1.keyframes) > 0
    requires WorkbenchAnimation(sheet, view).value.1.isLooping
    ensures Advance(sheet, view, true, delta)
            == (view.(timelineClock := (view.timelineClock + delta) % TotalMillis(WorkbenchSequence(sheet, view).value.1.keyframes)), true)
  {
    TickedLooping(sheet, view, view.(timelineClock := view.timelineClock + delta));
  }

  /** One tick of a looping animation only wraps the clock around the sequence's duration. */
  lemma TickedLooping(sheet: Sheet, view: View, advanced: View)
    requires WorkbenchSequence(sheet, view).Ok?
    requires TotalMillis(WorkbenchSequence(sheet, view).value.1.keyframes) > 0
    requires WorkbenchAnimation(sheet, view).value.1.isLooping
    requires advanced == view.(timelineClock := advanced.timelineClock)
    ensures Ticked(sheet, advanced)
            == (advanced.(timelineClock := advanced.timelineClock % TotalMillis(WorkbenchSequence(sheet, view).value.1.keyframes)), true)
  {
    ResolutionDependsOnCurrents(sheet, view, advanced);
  }

  /** `(((c + a) % d) + b) % d == (c + (a + b)) % d`. */
  lemma ModAddLeft(c: nat, a: nat, b: nat, d: nat)
    requires d > 0
    ensures ((c + a) % d + b) % d == (c + (a + b)) % d
  {
    var x := c + a;
    var m := x % d;
    var k := (m + b) / d;
    var s := (m + b) % d;
    assert x == (x / d) * d + m;
    assert m + b == k * d + s;
    assert c + (a + b) == (x / d + k) * d + s;
    ModUnique(c + (a + b), x / d + k, s, d);
  }

  /** The remainder is the unique `s` in `0..d` with `a == t * d + s`. */
  lemma ModUnique(a: int, t: int, s: int, d: int)
    requires d > 0 && 0 <= s < d && a == t * d + s
    ensures a % d == s
  {
    var t' := a / d;
    var s' := a % d;
    assert a == t' * d + s';
    assert t * d - t' * d == s' - s;
    assert (t - t') * d == t * d - t' * d;
    if t > t' {
      MulAtLeast(t - t', d);
    } else if t < t' {
      MulAtLeast(t' - t, d);
    }
  }

  lemma MulAtLeast(k: int, d: int)
    requires k >= 1 && d > 0
    ensures k * d >= d
  {
  }

  /** `Document::play`: start playback, from the beginning when the clock is at or past the end. */
  method Play(doc: Document) returns (r: Result<(), DocumentError>)
    modifies doc
    ensures doc.sheet == old(doc.sheet) && doc.transient == old(doc.transient) && doc.KeepsHistory()
    ensures WorkbenchSequence(old(doc.sheet), old(doc.view)).Err? ==>
      && r == Err(WorkbenchSequence(old(doc.sheet), old(doc.view)).error)
      && doc.view == old(doc.view) && doc.persistent == old(doc.persistent)
    ensures WorkbenchSequence(old(doc.sheet), old(doc.view)).Ok? ==>
      && r.Ok?
      && doc.persistent == old(doc.persistent).(timelineIsPlaying := true)
      && var duration := DurationMillis(WorkbenchSequence(old(doc.sheet), old(doc.view)).value.1);
         var restart := duration.Some? && duration.value <= old(doc.view.timelineClock);
         doc.view == old(doc.view).(timelineClock := if restart then 0 else old(doc.view.timelineClock),
                                    selection := old(doc.view.selection).(hitboxes := EmptySelection()))
  {
    var sequence := WorkbenchSequence(doc.sheet, doc.view);
    if sequence.Err? {
      return Err(sequence.error);
    }
    var duration := DurationMillis(sequence.value.1);
    if duration.Some? && duration.value <= doc.view.timelineClock {
      doc.view := SkipToTimelineStart(doc.view);
    }
    doc.persistent := doc.persistent.(timelineIsPlaying := true);
    doc.view := doc.view.(selection := doc.view.selection.(hitboxes := EmptySelection()));
    return Ok(());
  }

  /** `Document::pause`: stop playback; a selection of at most one keyframe follows the clock. */
  method Pause(doc: Document) returns (r: Result<(), DocumentError>)
    modifies doc
    ensures doc.sheet == old(doc.sheet) && doc.transient == old(doc.transient) && doc.KeepsHistory()
    ensures r.Ok? && doc.persistent == old(doc.persistent).(timelineIsPlaying := false)
    ensures doc.view == if |old(doc.view.selection.keyframes.selected)| <= 1
                        then TrySelectCurrentKeyframe(old(doc.sheet), old(doc.view)) else old(doc.view)
  {
    doc.persistent := doc.persistent.(timelineIsPlaying := false);
    if |doc.view.selection.keyframes.selected| <= 1 {
      doc.view := TrySelectCurrentKeyframe(doc.sheet, doc.view);
    }
    return Ok(());
  }

  /** Where scrubbing to `time` puts the clock: clamped to the sequence, 0 for an empty one. */
  function ScrubbedClock(sequence: Sequence, time: nat): (r: nat)
    ensures sequence.keyframes == [] ==> r == 0
    ensures sequence.keyframes != [] ==> r <= TotalMillis(sequence.keyframes)
    ensures sequence.keyframes != [] && time <= TotalMillis(sequence.keyframes) ==> r == time
    ensures sequence.keyframes != [] && time > TotalMillis(sequence.keyframes) ==> r == TotalMillis(sequence.keyframes)
  {
    match DurationMillis(sequence)
    case Some(d) => if d < time then d else time
    case None => 0
  }

  /** The view and result of `scrub_timeline`, on values. */
  function Scrubbed(sheet: Sheet, view: View, time: nat): (View, Result<(), DocumentError>) {
    match WorkbenchSequence(sheet, view)
    case Err(e) => (view, Err(e))
    case Ok((_, sequence)) =>
      (TrySelectCurrentKeyframe(sheet, view.(timelineClock := ScrubbedClock(sequence, time))), Ok(()))
  }

  /** The view and result of `jump_to_animation_start`, on values. */
  function JumpedToAnimationStart(sheet: Sheet, view: View): (View, Result<(), DocumentError>) {
    match Scrubbed(sheet, view, 0)
    case (v, Ok(_)) => (ResetTimelineOffset(v), Ok(()))
    case failed => failed
  }

  /** The view and result of `jump_to_animation_end`, on values. */
  function JumpedToAnimationEnd(sheet: Sheet, view: View): (View, Result<(), DocumentError>) {
    match WorkbenchSequence(sheet, view)
    case Err(e) => (view, Err(e))
    case Ok((_, sequence)) => Scrubbed(sheet, view, DurationMillis(sequence).UnwrapOr(0))
  }

  /** `Document::scrub_timeline`: move the clock, clamped, and select the keyframe under it. */
  method ScrubTimeline(doc: Document, time: nat) returns (r: Result<(), DocumentError>)
    modifies doc
    ensures doc.sheet == old(doc.sheet) && doc.transient == old(doc.transient) && doc.KeepsHistory()
    ensures doc.persistent == old(doc.persistent)
    ensures WorkbenchSequence(old(doc.sheet), old(doc.view)).Err? ==>
      r == Err(WorkbenchSequence(old(doc.sheet), old(doc.view)).error) && doc.view == old(doc.view)
    ensures WorkbenchSequence(old(doc.sheet), old(doc.view)).Ok? ==>
      && r.Ok?
      && var sequence := WorkbenchSequence(old(doc.sheet), old(doc.view)).value.1;
         doc.view == TrySelectCurrentKeyframe(old(doc.sheet),
                                             old(doc.view).(timelineClock := ScrubbedClock(sequence, time)))
    ensures (doc.view, r) == Scrubbed(old(doc.sheet), old(doc.view), time)
  {
    var sequence := WorkbenchSequence(doc.sheet, doc.view);
    if sequence.Err? {
      return Err(sequence.error);
    }
    doc.view := doc.view.(timelineClock := ScrubbedClock(sequence.value.1, time));
    doc.view := TrySelectCurrentKeyframe(doc.sheet, doc.view);
    return Ok(());
  }

  /** `Document::jump_to_animation_start`: scrub to 0 and scroll the timeline back to its start. */
  method JumpToAnimationStart(doc: Document) returns (r: Result<(), DocumentError>)
    modifies doc
    ensures doc.sheet == old(doc.sheet) && doc.transient == old(doc.transient) && doc.KeepsHistory()
    ensures doc.persistent == old(doc.persistent)
    ensures WorkbenchSequence(old(doc.sheet), old(doc.view)).Err? ==>
      r == Err(WorkbenchSequence(old(doc.sheet), old(doc.view)).error) && doc.view == old(doc.view)
    ensures WorkbenchSequence(old(doc.sheet), old(doc.view)).Ok? ==>
      && r.Ok? && doc.view.timelineClock == 0 && doc.view.timelineOffset == 0
      && doc.view == TrySelectCurrentKeyframe(old(doc.sheet), old(doc.view).(timelineClock := 0)).(timelineOffset := 0)
    ensures (doc.view, r) == JumpedToAnimationStart(old(doc.sheet), old(doc.view))
  {
    r := ScrubTimeline(doc, 0);
    if r.Err? {
      return;
    }
    doc.view := ResetTimelineOffset(doc.view);
  }

  /** `Document::jump_to_animation_end`: scrub to the sequence's duration. */
  method JumpToAnimationEnd(doc: Document) returns (r: Result<(), DocumentError>)
    modifies doc
    ensures doc.sheet == old(doc.sheet) && doc.transient == old(doc.transient) && doc.KeepsHistory()
    ensures doc.persistent == old(doc.persistent)
    ensures WorkbenchSequence(old(doc.sheet), old(doc.view)).Err? ==>
      r == Err(WorkbenchSequence(old(doc.sheet), old(doc.view)).error) && doc.view == old(doc.view)
    ensures WorkbenchSequence(old(doc.sheet), old(doc.view)).Ok? ==>
      && r.Ok?
      && var sequence := WorkbenchSequence(old(doc.sheet), old(doc.view)).value.1;
         doc.view == TrySelectCurrentKeyframe(old(doc.sheet),
                                             old(doc.view).(timelineClock := TotalMillis(sequence.keyframes)))
    ensures (doc.view, r) == JumpedToAnimationEnd(old(doc.sheet), old(doc.view))
  {
    var sequence := WorkbenchSequence(doc.sheet, doc.view);
    if sequence.Err? {
      return Err(sequence.error);
    }
    var duration := DurationMillis(sequence.value.1).UnwrapOr(0);
    r := ScrubTimeline(doc, duration);
  }

  // ----- Jumping between keyframes -----

  /** The last of the first `n` ranges that ends at or before `now`. */
  function LastEndingBy(ranges: seq<TimeRange>, now: nat, n: nat): (r: Option<nat>)
    requires n <= |ranges|
    ensures r.Some? ==> && r.value < n && ranges[r.value].end <= now
                        && forall j :: r.value < j < n ==> ranges[j].end > now
    ensures r.None? ==> forall j :: 0 <= j < n ==> ranges[j].end > now
    decreases n
  {
    if n == 0 then None
    else if ranges[n - 1].end <= now then Some(n - 1)
    else LastEndingBy(ranges, now, n - 1)
  }

  /** The first range, from `i` on, that starts after `now`. */
  function FirstStartingAfter(ranges: seq<TimeRange>, now: nat, i: nat): (r: Option<nat>)
    requires i <= |ranges|
    ensures r.Some? ==> && i <= r.value < |ranges| && ranges[r.value].start > now
                        && forall j :: i <= j < r.value ==> ranges[j].start <= now
    ensures r.None? ==> forall j :: i <= j < |ranges| ==> ranges[j].start <= now
    decreases |ranges| - i
  {
    if i == |ranges| then None
    else if ranges[i].start > now then Some(i)
    else FirstStartingAfter(ranges, now, i + 1)
  }

  /** Where `jump_to_previous_frame` moves the clock: the start of the last keyframe over by `now`, or 0. */
  function PreviousFrameTime(sequence: Sequence, now: nat): nat {
    var ranges := TimeRanges(sequence);
    match LastEndingBy(ranges, now, |ranges|)
    case Some(i) => ranges[i].start
    case None => 0
  }

  /** Where `jump_to_next_frame` moves the clock: the first start after `now`, else the end, else 0. */
  function NextFrameTime(sequence: Sequence, now: nat): nat {
    var ranges := TimeRanges(sequence);
    match FirstStartingAfter(ranges, now, 0)
    case Some(i) => ranges[i].start
    case None => DurationMillis(sequence).UnwrapOr(0)
  }

  /** Keyframe starts strictly increase when every keyframe lasts at least a millisecond. */
  lemma {:induction false} StartsIncrease(sequence: Sequence, i: nat, j: nat)
    requires forall k :: 0 <= k < |sequence.keyframes| ==> sequence.keyframes[k].durationMillis > 0
    requires i < j < |sequence.keyframes|
    ensures TimeRanges(sequence)[i].start < TimeRanges(sequence)[j].start
    ensures TimeRanges(sequence)[i].end <= TimeRanges(sequence)[j].start
    decreases j - i
  {
    TimeRangesContiguous(sequence);
    if i + 1 < j {
      StartsIncrease(sequence, i + 1, j);
    }
  }

  /**
   * With keyframes of positive duration, jumping forward from a keyframe's
   * start lands on the next keyframe's start, and jumping back from there
   * returns to where it began.
   */
  lemma NextThenPrevious(sequence: Sequence, k: nat)
    requires forall i :: 0 <= i < |sequence.keyframes| ==> sequence.keyframes[i].durationMillis > 0
    requires k + 1 < |sequence.keyframes|
    ensures var t := TimeRanges(sequence);
      && NextFrameTime(sequence, t[k].start) == t[k + 1].start
      && PreviousFrameTime(sequence, t[k + 1].start) == t[k].start
  {
    var t := TimeRanges(sequence);
    TimeRangesContiguous(sequence);
    forall j | 0 <= j <= k
      ensures t[j].start <= t[k].start
    {
      if j < k { StartsIncrease(sequence, j, k); }
    }
    var next := FirstStartingAfter(t, t[k].start, 0);
    assert t[k + 1].start > t[k].start;
    assert next == Some(k + 1);
    forall j | k + 1 < j < |t|
      ensures t[j].end > t[k + 1].start
    {
      StartsIncrease(sequence, k + 1, j);
    }
    assert t[k + 1].end > t[k + 1].start;
    assert LastEndingBy(t, t[k + 1].start, |t|) == Some(k);
  }

  /** The previous-frame jump never moves the clock forward, and the next-frame jump never moves it back within the sequence. */
  lemma JumpsMoveTheRightWay(sequence: Sequence, now: nat)
    ensures PreviousFrameTime(sequence, now) <= now
    ensures now < TotalMillis(sequence.keyframes) ==> NextFrameTime(sequence, now) > now
    ensures NextFrameTime(sequence, now) <= TotalMillis(sequence.keyframes)
  {
    var t := TimeRanges(sequence);
    TimeRangesContiguous(sequence);
    if now < TotalMillis(sequence.keyframes) && FirstStartingAfter(t, now, 0).None? {
      assert sequence.keyframes != [];
    }
    if FirstStartingAfter(t, now, 0).Some? {
      var i := FirstStartingAfter(t, now, 0).value;
      assert t[i].start <= t[|t| - 1].end by {
        RangesEndLater(sequence, i);
      }
    }
  }

  /** Every range starts no later than the sequence ends. */
  lemma {:induction false} RangesEndLater(sequence: Sequence, i: nat)
    requires i < |sequence.keyframes|
    ensures TimeRanges(sequence)[i].start <= TimeRanges(sequence)[i].end <= TotalMillis(sequence.keyframes)
    decreases |sequence.keyframes| - i
  {
    TimeRangesContiguous(sequence);
    if i + 1 < |sequence.keyframes| {
      RangesEndLater(sequence, i + 1);
    }
  }

  /** The view and result of `jump_to_next_frame` (`forward`) or `jump_to_previous_frame`, on values. */
  function FrameJumped(sheet: Sheet, view: View, forward: bool): (View, Result<(), DocumentError>) {
    match WorkbenchSequence(sheet, view)
    case Err(e) => (view, Err(e))
    case Ok((_, sequence)) =>
      var now := view.timelineClock;
      var moved := view.(timelineClock := if forward then NextFrameTime(sequence, now) else PreviousFrameTime(sequence, now));
      match SelectCurrentKeyframe(sheet, moved)
      case Ok(v) => (v, Ok(()))
      case Err(e) => (moved, Err(e))
  }

  /** `Document::jump_to_previous_frame`: the clock moves even when no keyframe can then be selected. */
  method JumpToPreviousFrame(doc: Document) returns (r: Result<(), DocumentError>)
    modifies doc
    ensures doc.sheet == old(doc.sheet) && doc.transient == old(doc.transient) && doc.KeepsHistory()
    ensures doc.persistent == old(doc.persistent)
    ensures WorkbenchSequence(old(doc.sheet), old(doc.view)).Err? ==>
      r == Err(WorkbenchSequence(old(doc.sheet), old(doc.view)).error) && doc.view == old(doc.view)
    ensures WorkbenchSequence(old(doc.sheet), old(doc.view)).Ok? ==>
      var sequence := WorkbenchSequence(old(doc.sheet), old(doc.view)).value.1;
      var moved := old(doc.view).(timelineClock := PreviousFrameTime(sequence, old(doc.view.timelineClock)));
      match SelectCurrentKeyframe(old(doc.sheet), moved)
      case Ok(v) => r.Ok? && doc.view == v
      case Err(e) => r == Err(e) && doc.view == moved
    ensures (doc.view, r) == FrameJumped(old(doc.sheet), old(doc.view), false)
  {
    var sequence := WorkbenchSequence(doc.sheet, doc.view);
    if sequence.Err? {
      return Err(sequence.error);
    }
    doc.view := doc.view.(timelineClock := PreviousFrameTime(sequence.value.1, doc.view.timelineClock));
    var selected := SelectCurrentKeyframe(doc.sheet, doc.view);
    if selected.Err? {
      return Err(selected.error);
    }
    doc.view := selected.value;
    return Ok(());
  }

  /** `Document::jump_to_next_frame`. */
  method JumpToNextFrame(doc: Document) returns (r: Result<(), DocumentError>)
    modifies doc
    ensures doc.sheet == old(doc.sheet) && doc.transient == old(doc.transient) && doc.KeepsHistory()
    ensures doc.persistent == old(doc.persistent)
    ensures WorkbenchSequence(old(doc.sheet), old(doc.view)).Err? ==>
      r == Err(WorkbenchSequence(old(doc.sheet), old(doc.view)).error) && doc.view == old(doc.view)
    ensures WorkbenchSequence(old(doc.sheet), old(doc.view)).Ok? ==>
      var sequence := WorkbenchSequence(old(doc.sheet), old(doc.view)).value.1;
      var moved := old(doc.view).(timelineClock := NextFrameTime(sequence, old(doc.view.timelineClock)));
      match SelectCurrentKeyframe(old(doc.sheet), moved)
      case Ok(v) => r.Ok? && doc.view == v
      case Err(e) => r == Err(e) && doc.view == moved
    ensures (doc.view, r) == FrameJumped(old(doc.sheet), old(doc.view), true)
  {
    var sequence := WorkbenchSequence(doc.sheet, doc.view);
    if sequence.Err? {
      return Err(sequence.error);
    }
    doc.view := doc.view.(timelineClock := NextFrameTime(sequence.value.1, doc.view.timelineClock));
    var selected := SelectCurrentKeyframe(doc.sheet, doc.view);
    if selected.Err? {
      return Err(selected.error);
    }
    doc.view := selected.value;
    return Ok(());
  }

  // ----- Cycling through directions -----

  /** The direction `k` steps from `from`, in declaration order or against it, wrapping around. */
  function CycleStep(from: Direction, k: nat, forward: bool): (d: Direction)
    ensures DirectionRank(d) == if forward then (DirectionRank(from) + k) % |AllDirections|
                                else (DirectionRank(from) - k) % |AllDirections|
  {
    var n := |AllDirections|;
    var index := if forward then (DirectionRank(from) + k) % n else (DirectionRank(from) - k) % n;
    RankOfAllDirections(index);
    AllDirections[index]
  }

  lemma RankOfAllDirections(i: nat)
    requires i < |AllDirections|
    ensures DirectionRank(AllDirections[i]) == i
  {
  }

  /** A direction the cycle may stop at: it has a sequence that lasts at least until `now`. */
  predicate LastsUntil(animation: Animation, d: Direction, now: nat) {
    d in animation.sequences && DurationMillis(animation.sequences[d]).Some?
    && DurationMillis(animation.sequences[d]).value >= now
  }

  /** Step `j` is the first among the steps `k` to 7 from `from` whose direction qualifies. */
  predicate FirstLastingStep(animation: Animation, from: Direction, now: nat, forward: bool, k: nat, j: nat) {
    && k <= j < |AllDirections|
    && LastsUntil(animation, CycleStep(from, j, forward), now)
    && forall i :: k <= i < j ==> !LastsUntil(animation, CycleStep(from, i, forward), now)
  }

  /** The first step among `k` to 7 from `from` whose direction qualifies, if any. */
  function CycleFrom(animation: Animation, from: Direction, now: nat, forward: bool, k: nat): (r: Option<nat>)
    requires 1 <= k <= |AllDirections|
    ensures r.Some? ==> FirstLastingStep(animation, from, now, forward, k, r.value)
    ensures r.None? <==> forall j :: k <= j < |AllDirections| ==> !LastsUntil(animation, CycleStep(from, j, forward), now)
    decreases |AllDirections| - k
  {
    if k == |AllDirections| then None
    else if LastsUntil(animation, CycleStep(from, k, forward), now) then Some(k)
    else CycleFrom(animation, from, now, forward, k + 1)
  }

  /** The directions 1 to 7 steps away from `from`, in the order the cycle visits them. */
  function OtherDirections(from: Direction, forward: bool): (r: seq<Direction>)
    ensures |r| == |AllDirections| - 1
  {
    seq(|AllDirections| - 1, j requires 0 <= j < |AllDirections| - 1 => CycleStep(from, j + 1, forward))
  }

  /** The cycle visits each of the seven other directions, and never `from` itself. */
  lemma CycleReachesOthers(from: Direction, forward: bool)
    ensures from !in OtherDirections(from, forward)
    ensures forall d: Direction :: d != from ==> d in OtherDirections(from, forward)
  {
    var others := OtherDirections(from, forward);
    var rf: int := DirectionRank(from);
    forall d: Direction | d != from
      ensures d in others
    {
      var rd: int := DirectionRank(d);
      var j: int := if forward then (if rd > rf then rd - rf else rd - rf + 8)
                    else (if rf > rd then rf - rd else rf - rd + 8);
      assert 1 <= j <= 7;
      assert DirectionRank(CycleStep(from, j, forward)) == rd;
      assert others[j - 1] == d;
    }
  }

  /**
   * Where `cycle_directions_forward`/`backward` go: the next other direction,
   * cycling from the current one (from the last direction without one),
   * whose sequence lasts until the clock; nothing when none does.
   */
  function CycleTarget(animation: Animation, current: Option<Direction>, now: nat, forward: bool): Option<Direction> {
    var from := current.UnwrapOr(SouthEast);
    match CycleFrom(animation, from, now, forward, 1)
    case Some(j) => Some(CycleStep(from, j, forward))
    case None => None
  }

  /**
   * The cycle lands on another direction whose sequence lasts until the
   * clock, and finds nothing only when no other direction has one.
   */
  lemma CycleTargetSpec(animation: Animation, current: Option<Direction>, now: nat, forward: bool)
    ensures var from := current.UnwrapOr(SouthEast);
      var r := CycleTarget(animation, current, now, forward);
      && (r.Some? ==> r.value != from && LastsUntil(animation, r.value, now))
      && (r.None? <==> forall d: Direction :: d != from ==> !LastsUntil(animation, d, now))
  {
    var from := current.UnwrapOr(SouthEast);
    var step := CycleFrom(animation, from, now, forward, 1);
    CycleReachesOthers(from, forward);
    var others := OtherDirections(from, forward);
    if step.None? {
      forall d: Direction | d != from
        ensures !LastsUntil(animation, d, now)
      {
        assert d in others;
        var i :| 0 <= i < |others| && others[i] == d;
        assert CycleStep(from, i + 1, forward) == d;
      }
    } else {
      assert CycleStep(from, step.value, forward) == others[step.value - 1];
    }
  }

  /** The view and result of `cycle_directions_forward` (`forward`) or `cycle_directions_backward`, on values. */
  function DirectionsCycled(sheet: Sheet, view: View, forward: bool): (View, Result<(), DocumentError>) {
    match WorkbenchAnimation(sheet, view)
    case Err(e) => (view, Err(e))
    case Ok((_, animation)) =>
      var moved := view.(currentSequence := CycleTarget(animation, view.currentSequence, view.timelineClock, forward));
      match SelectCurrentKeyframe(sheet, moved)
      case Ok(v) => (v, Ok(()))
      case Err(e) => (moved, Err(e))
  }

  /** `Document::cycle_directions_forward` and `cycle_directions_backward`. */
  method CycleDirections(doc: Document, forward: bool) returns (r: Result<(), DocumentError>)
    modifies doc
    ensures doc.sheet == old(doc.sheet) && doc.transient == old(doc.transient) && doc.KeepsHistory()
    ensures doc.persistent == old(doc.persistent)
    ensures WorkbenchAnimation(old(doc.sheet), old(doc.view)).Err? ==>
      r == Err(WorkbenchAnimation(old(doc.sheet), old(doc.view)).error) && doc.view == old(doc.view)
    ensures WorkbenchAnimation(old(doc.sheet), old(doc.view)).Ok? ==>
      var animation := WorkbenchAnimation(old(doc.sheet), old(doc.view)).value.1;
      var target := CycleTarget(animation, old(doc.view.currentSequence), old(doc.view.timelineClock), forward);
      var moved := old(doc.view).(currentSequence := target);
      match SelectCurrentKeyframe(old(doc.sheet), moved)
      case Ok(v) => r.Ok? && doc.view == v
      case Err(e) => r == Err(e) && doc.view == moved
    ensures (doc.view, r) == DirectionsCycled(old(doc.sheet), old(doc.view), forward)
  {
    var animation := WorkbenchAnimation(doc.sheet, doc.view);
    if animation.Err? {
      return Err(animation.error);
    }
    var target := CycleTarget(animation.value.1, doc.view.currentSequence, doc.view.timelineClock, forward);
    doc.view := doc.view.(currentSequence := target);
    var selected := SelectCurrentKeyframe(doc.sheet, doc.view);
    if selected.Err? {
      return Err(selected.error);
    }
    doc.view := selected.value;
    return Ok(());
  }

  // ----- Editing the current animation -----

  /** `Document::set_animation_looping`. */
  method SetAnimationLooping(doc: Document, looping: bool) returns (r: Result<(), DocumentError>)
    modifies doc
    ensures doc.view == old(doc.view) && doc.transient == old(doc.transient) && doc.KeepsHistory()
    ensures doc.persistent == old(doc.persistent)
    ensures WorkbenchAnimation(old(doc.sheet), old(doc.view)).Err? ==>
      r == Err(WorkbenchAnimation(old(doc.sheet), old(doc.view)).error) && doc.sheet == old(doc.sheet)
    ensures WorkbenchAnimation(old(doc.sheet), old(doc.view)).Ok? ==>
      var (name, animation) := WorkbenchAnimation(old(doc.sheet), old(doc.view)).value;
      r.Ok? && doc.sheet == old(doc.sheet).(animations := old(doc.sheet.animations)[name := animation.(isLooping := looping)])
  {
    var animation := WorkbenchAnimation(doc.sheet, doc.view);
    if animation.Err? {
      return Err(animation.error);
    }
    var (name, a) := animation.value;
    doc.sheet := doc.sheet.(animations := doc.sheet.animations[name := a.(isLooping := looping)]);
    return Ok(());
  }

  /** `Document::apply_direction_preset`. */
  method ApplyDirectionPreset(doc: Document, preset: DirectionPreset) returns (r: Result<(), DocumentError>)
    modifies doc
    ensures doc.view == old(doc.view) && doc.transient == old(doc.transient) && doc.KeepsHistory()
    ensures doc.persistent == old(doc.persistent)
    ensures WorkbenchAnimation(old(doc.sheet), old(doc.view)).Err? ==>
      r == Err(WorkbenchAnimation(old(doc.sheet), old(doc.view)).error) && doc.sheet == old(doc.sheet)
    ensures WorkbenchAnimation(old(doc.sheet), old(doc.view)).Ok? ==>
      var (name, animation) := WorkbenchAnimation(old(doc.sheet), old(doc.view)).value;
      && r.Ok?
      && doc.sheet == old(doc.sheet).(animations := old(doc.sheet.animations)[name := Sheets.ApplyDirectionPreset(animation, preset)])
      && DirectionPresetOf(doc.sheet.animations[name]) == Some(preset)
  {
    var animation := WorkbenchAnimation(doc.sheet, doc.view);
    if animation.Err? {
      return Err(animation.error);
    }
    var (name, a) := animation.value;
    ApplyThenRecognisePreset(a, preset);
    doc.sheet := doc.sheet.(animations := doc.sheet.animations[name := Sheets.ApplyDirectionPreset(a, preset)]);
    return Ok(());
  }

  /** `Document::select_direction`: a failure to select the keyframe under the clock is ignored. */
  method SelectDirection(doc: Document, direction: Direction) returns (r: Result<(), DocumentError>)
    modifies doc
    ensures doc.sheet == old(doc.sheet) && doc.transient == old(doc.transient) && doc.KeepsHistory()
    ensures doc.persistent == old(doc.persistent) && r.Ok?
    ensures doc.view == TrySelectCurrentKeyframe(old(doc.sheet), old(doc.view).(currentSequence := Some(direction)))
  {
    doc.view := doc.view.(currentSequence := Some(direction));
    doc.view := TrySelectCurrentKeyframe(doc.sheet, doc.view);
    return Ok(());
  }

  // ----- Deleting the selected keyframes -----

  /** The derived order on `(direction, index)` pairs: by direction, then by index. */
  predicate SlotBefore(a: KeyframeSlot, b: KeyframeSlot) {
    DirectionRank(a.0) < DirectionRank(b.0) || (a.0 == b.0 && a.1 < b.1)
  }

  predicate Descending(slots: seq<KeyframeSlot>) {
    forall i, j :: 0 <= i < j < |slots| ==> SlotBefore(slots[j], slots[i])
  }

  predicate IsLargest(m: KeyframeSlot, s: set<KeyframeSlot>) {
    m in s && forall x :: x in s && x != m ==> SlotBefore(x, m)
  }

  lemma {:induction false} LargestExists(s: set<KeyframeSlot>)
    requires s != {}
    ensures exists m :: IsLargest(m, s)
    decreases |s|
  {
    var y :| y in s;
    if s == {y} {
      assert IsLargest(y, s);
    } else {
      LargestExists(s - {y});
      var m :| IsLargest(m, s - {y});
      if SlotBefore(y, m) {
        assert IsLargest(m, s);
      } else {
        assert DirectionRank(m.0) == DirectionRank(y.0) ==> m.0 == y.0;
        assert SlotBefore(m, y);
        forall x | x in s && x != y
          ensures SlotBefore(x, y)
        {
          if x != m {
            assert SlotBefore(x, m);
          }
        }
        assert IsLargest(y, s);
      }
    }
  }

  lemma LargestUnique(m: KeyframeSlot, n: KeyframeSlot, s: set<KeyframeSlot>)
    requires IsLargest(m, s) && IsLargest(n, s)
    ensures m == n
  {
  }

  ghost function Largest(s: set<KeyframeSlot>): (m: KeyframeSlot)
    requires s != {}
    ensures IsLargest(m, s)
  {
    LargestExists(s);
    var m :| IsLargest(m, s);
    m
  }

  /** The slots of a set, largest first: what sorting and then reversing them gives. */
  ghost function DescendingOrder(s: set<KeyframeSlot>): seq<KeyframeSlot>
    decreases |s|
  {
    if s == {} then []
    else
      var m := Largest(s);
      [m] + DescendingOrder(s - {m})
  }

  /** The order holds exactly the slots of the set, largest first. */
  lemma {:induction false} DescendingOrderSorts(s: set<KeyframeSlot>)
    ensures Descending(DescendingOrder(s))
    ensures forall x :: x in DescendingOrder(s) <==> x in s
    decreases |s|
  {
    if s != {} {
      var m := Largest(s);
      var rest := DescendingOrder(s - {m});
      DescendingOrderSorts(s - {m});
      forall i | 0 <= i < |rest|
        ensures SlotBefore(rest[i], m)
      {
        assert rest[i] in s - {m};
      }
      assert DescendingOrder(s) == [m] + rest;
    }
  }

  /** `sort` then `reverse` on the selected slots. */
  method SortDescending(s: set<KeyframeSlot>) returns (r: seq<KeyframeSlot>)
    ensures r == DescendingOrder(s)
  {
    var rest := s;
    r := [];
    while rest != {}
      invariant r + DescendingOrder(rest) == DescendingOrder(s)
      decreases |rest|
    {
      LargestExists(rest);
      var m :| IsLargest(m, rest);
      LargestUnique(m, Largest(rest), rest);
      assert DescendingOrder(rest) == [m] + DescendingOrder(rest - {m});
      assert (r + [m]) + DescendingOrder(rest - {m}) == r + ([m] + DescendingOrder(rest - {m}));
      r := r + [m];
      rest := rest - {m};
    }
  }

  /** The `(direction, index)` pairs of the selected keyframes. */
  function SelectedSlots(view: View): (r: set<KeyframeSlot>)
  {
    set k | k in view.selection.keyframes.selected :: (k.direction, k.index)
  }

  /**
   * The loop of `delete_selected_keyframes` on the current animation: each
   * slot in turn is deleted, and the first one whose sequence or keyframe is
   * missing stops the loop with what was deleted so far.
   */
  function DeleteSlots(animation: Animation, slots: seq<KeyframeSlot>): (r: (Animation, Option<DocumentError>))
    decreases |slots|
  {
    if slots == [] then (animation, None)
    else
      var (d, i) := slots[0];
      if d !in animation.sequences then (animation, Some(SequenceNotInAnimation(d)))
      else match DeleteKeyframe(animation.sequences[d], i)
        case Err(e) => (animation, Some(SheetFailure(e)))
        case Ok((s, _)) => DeleteSlots(animation.(sequences := animation.sequences[d := s]), slots[1..])
  }

  /** How much of `range` lies before `clock`. */
  function Overlap(range: TimeRange, clock: nat): (o: nat)
    ensures o <= clock
    ensures range.start <= range.end <= clock ==> o == range.end - range.start
  {
    if range.start <= clock then SaturatingSub(Min(range.end, clock), range.start) else 0
  }

  /** The clock update of that loop: deleting time before the clock pulls the clock back by as much. */
  function ClockAfter(ranges: seq<TimeRange>, direction: Direction, clock: nat, slots: seq<KeyframeSlot>): nat
    decreases |slots|
  {
    if slots == [] then clock
    else
      var (d, i) := slots[0];
      var next := if d == direction && i < |ranges| && ranges[i].start <= clock
                  then SaturatingSub(clock, Overlap(ranges[i], clock)) else clock;
      ClockAfter(ranges, direction, next, slots[1..])
  }

  /** The total time of the deleted keyframes of `direction` that lies before `clock`. */
  function OverlapSum(ranges: seq<TimeRange>, direction: Direction, clock: nat, slots: seq<KeyframeSlot>): nat
    decreases |slots|
  {
    if slots == [] then 0
    else
      var (d, i) := slots[0];
      (if d == direction && i < |ranges| then Overlap(ranges[i], clock) else 0)
      + OverlapSum(ranges, direction, clock, slots[1..])
  }

  /** Ranges in order, each no longer than the gap to the next. */
  predicate Ordered(ranges: seq<TimeRange>) {
    && (forall a :: 0 <= a < |ranges| ==> ranges[a].start <= ranges[a].end)
    && (forall a, b :: 0 <= a < b < |ranges| ==> ranges[a].end <= ranges[b].start)
  }

  lemma {:induction false} RangesOrdered(sequence: Sequence)
    ensures Ordered(TimeRanges(sequence))
  {
    var t := TimeRanges(sequence);
    TimeRangesContiguous(sequence);
    forall a, b | 0 <= a < b < |t|
      ensures t[a].end <= t[b].start
    {
      RangeBeforeLater(t, a, b);
    }
  }

  lemma {:induction false} RangeBeforeLater(t: seq<TimeRange>, a: nat, b: nat)
    requires forall i :: 0 <= i < |t| ==> t[i].start <= t[i].end
    requires forall i :: 0 <= i < |t| - 1 ==> t[i].end == t[i + 1].start
    requires a < b < |t|
    ensures t[a].end <= t[b].start
    decreases b - a
  {
    if a + 1 < b {
      RangeBeforeLater(t, a + 1, b);
    }
  }

  /** The overlaps of keyframes wholly before both clocks do not depend on which clock. */
  lemma {:induction false} OverlapSumStable(ranges: seq<TimeRange>, direction: Direction, c: nat, c': nat,
                                            slots: seq<KeyframeSlot>, bound: nat)
    requires Ordered(ranges) && bound < |ranges|
    requires ranges[bound].start <= c && ranges[bound].start <= c'
    requires forall k :: 0 <= k < |slots| && slots[k].0 == direction ==> slots[k].1 < bound
    ensures OverlapSum(ranges, direction, c, slots) == OverlapSum(ranges, direction, c', slots)
    decreases |slots|
  {
    if slots != [] {
      OverlapSumStable(ranges, direction, c, c', slots[1..], bound);
    }
  }

  /**
   * With ordered ranges and slots largest first, the loop's clock ends up
   * pulled back by exactly the deleted time that lay before the original
   * clock, so it stays on the same moment of the remaining keyframes.
   */
  lemma {:induction false} ClockAfterSum(ranges: seq<TimeRange>, direction: Direction, c: nat, slots: seq<KeyframeSlot>)
    requires Ordered(ranges) && Descending(slots)
    ensures OverlapSum(ranges, direction, c, slots) <= c
    ensures ClockAfter(ranges, direction, c, slots) == c - OverlapSum(ranges, direction, c, slots)
    decreases |slots|
  {
    if slots != [] {
      var (d, i) := slots[0];
      var tail := slots[1..];
      assert Descending(tail);
      if d == direction && i < |ranges| {
        var c' := c - Overlap(ranges[i], c);
        ClockAfterSum(ranges, direction, c', tail);
        ClockAfterSum(ranges, direction, c, tail);
        forall k | 0 <= k < |tail| && tail[k].0 == direction
          ensures tail[k].1 < i
        {
          assert SlotBefore(slots[k + 1], slots[0]);
        }
        if ranges[i].start <= c {
          OverlapSumStable(ranges, direction, c, c', tail, i);
        }
      } else {
        ClockAfterSum(ranges, direction, c, tail);
      }
    }
  }

  /** The keyframes at the positions not in `removed`, in order. */
  function Without(keyframes: seq<Keyframe>, removed: set<nat>): (r: seq<Keyframe>)
    ensures |r| <= |keyframes|
    decreases |keyframes|
  {
    if keyframes == [] then []
    else
      var n := |keyframes| - 1;
      Without(keyframes[..n], removed) + (if n in removed then [] else [keyframes[n]])
  }

  /** Removing nothing keeps every keyframe. */
  lemma {:induction false} WithoutNothing(keyframes: seq<Keyframe>)
    ensures Without(keyframes, {}) == keyframes
    decreases |keyframes|
  {
    if keyframes != [] {
      var n := |keyframes| - 1;
      WithoutNothing(keyframes[..n]);
      assert keyframes[..n] + [keyframes[n]] == keyframes;
    }
  }

  /** Positions past the end do not matter. */
  lemma {:induction false} WithoutIgnoresFar(keyframes: seq<Keyframe>, removed: set<nat>, i: nat)
    requires i >= |keyframes|
    ensures Without(keyframes, removed + {i}) == Without(keyframes, removed)
    decreases |keyframes|
  {
    if keyframes != [] {
      WithoutIgnoresFar(keyframes[..|keyframes| - 1], removed, i);
    }
  }

  /** When every removed position is before `m`, everything from `m` on is kept as it is. */
  lemma {:induction false} WithoutSplit(keyframes: seq<Keyframe>, removed: set<nat>, m: nat)
    requires m <= |keyframes|
    requires forall x :: x in removed ==> x < m
    ensures Without(keyframes, removed) == Without(keyframes[..m], removed) + keyframes[m..]
    decreases |keyframes|
  {
    if |keyframes| == m {
      assert keyframes[..m] == keyframes;
    } else {
      var n := |keyframes| - 1;
      WithoutSplit(keyframes[..n], removed, m);
      assert keyframes[..n][..m] == keyframes[..m];
      assert keyframes[..n][m..] + [keyframes[n]] == keyframes[m..];
    }
  }

  /** Deleting position `i` first and then smaller positions removes all of them. */
  lemma WithoutDeleteAt(keyframes: seq<Keyframe>, removed: set<nat>, i: nat)
    requires i < |keyframes|
    requires forall x :: x in removed ==> x < i
    ensures Without(keyframes[..i] + keyframes[i + 1..], removed) == Without(keyframes, removed + {i})
  {
    var shorter := keyframes[..i] + keyframes[i + 1..];
    var before := keyframes[..i];
    var upTo := keyframes[..i + 1];
    WithoutSplit(shorter, removed, i);
    assert shorter[..i] == before;
    assert shorter[i..] == keyframes[i + 1..];
    WithoutSplit(keyframes, removed + {i}, i + 1);
    assert upTo[..|upTo| - 1] == before;
    assert Without(upTo, removed + {i}) == Without(before, removed + {i});
    WithoutIgnoresFar(before, removed, i);
  }

  /** The indices the slots name in `direction`. */
  function IndicesIn(slots: seq<KeyframeSlot>, direction: Direction): (r: set<nat>)
    ensures forall k :: 0 <= k < |slots| && slots[k].0 == direction ==> slots[k].1 in r
    ensures forall i :: i in r ==> exists k :: 0 <= k < |slots| && slots[k] == (direction, i)
  {
    set k | 0 <= k < |slots| && slots[k].0 == direction :: slots[k].1
  }

  lemma IndicesInTail(slots: seq<KeyframeSlot>, direction: Direction)
    requires slots != []
    ensures IndicesIn(slots, direction) ==
      IndicesIn(slots[1..], direction) + (if slots[0].0 == direction then {slots[0].1} else {})
  {
    var tail := slots[1..];
    forall i | i in IndicesIn(tail, direction)
      ensures i in IndicesIn(slots, direction)
    {
      var k :| 0 <= k < |tail| && tail[k] == (direction, i);
      assert slots[k + 1] == (direction, i);
    }
  }

  /** A slot that names an existing keyframe of `animation`. */
  predicate SlotExists(animation: Animation, slot: KeyframeSlot) {
    slot.0 in animation.sequences && slot.1 < |animation.sequences[slot.0].keyframes|
  }

  /** The animation after deleting one existing slot. */
  function DeleteSlot(animation: Animation, slot: KeyframeSlot): (r: Animation)
    requires SlotExists(animation, slot)
    ensures DeleteKeyframe(animation.sequences[slot.0], slot.1).Ok?
    ensures DeleteSlots(animation, [slot] + []) == (r, None)
  {
    var (d, i) := slot;
    var ks := animation.sequences[d].keyframes;
    animation.(sequences := animation.sequences[d := Sequence(ks[..i] + ks[i + 1..])])
  }

  lemma DeleteSlotsStep(animation: Animation, slots: seq<KeyframeSlot>)
    requires slots != [] && SlotExists(animation, slots[0])
    ensures DeleteSlots(animation, slots) == DeleteSlots(DeleteSlot(animation, slots[0]), slots[1..])
  {
    var (d, i) := slots[0];
    var ks := animation.sequences[d].keyframes;
    assert DeleteKeyframe(animation.sequences[d], i).value.0 == Sequence(ks[..i] + ks[i + 1..]);
  }

  /** After the largest slot of a direction is deleted, the smaller ones of that direction still exist. */
  lemma DeleteSlotKeepsRest(animation: Animation, slots: seq<KeyframeSlot>)
    requires Descending(slots) && slots != [] && SlotExists(animation, slots[0])
    ensures forall k :: 0 <= k < |slots| - 1 ==>
      (SlotExists(DeleteSlot(animation, slots[0]), slots[1..][k]) <==> SlotExists(animation, slots[1..][k]))
  {
    forall k | 0 <= k < |slots| - 1
      ensures SlotExists(DeleteSlot(animation, slots[0]), slots[1..][k]) <==> SlotExists(animation, slots[1..][k])
    {
      assert SlotBefore(slots[k + 1], slots[0]);
    }
  }

  /** Deleting slots largest first fails exactly when one of them does not exist. */
  lemma {:induction false} DeleteSlotsFails(animation: Animation, slots: seq<KeyframeSlot>)
    requires Descending(slots)
    ensures DeleteSlots(animation, slots).1.None? <==> forall k :: 0 <= k < |slots| ==> SlotExists(animation, slots[k])
    decreases |slots|
  {
    if slots != [] && SlotExists(animation, slots[0]) {
      var tail := slots[1..];
      assert Descending(tail);
      DeleteSlotsStep(animation, slots);
      DeleteSlotKeepsRest(animation, slots);
      DeleteSlotsFails(DeleteSlot(animation, slots[0]), tail);
      assert forall k :: 1 <= k < |slots| ==> slots[k] == tail[k - 1];
    }
  }

  /** Deleting keyframes keeps the looping flag and the set of directions. */
  lemma {:induction false} DeleteSlotsKeepsShape(animation: Animation, slots: seq<KeyframeSlot>)
    requires Descending(slots)
    requires forall k :: 0 <= k < |slots| ==> SlotExists(animation, slots[k])
    ensures DeleteSlots(animation, slots).0.isLooping == animation.isLooping
    ensures DeleteSlots(animation, slots).0.sequences.Keys == animation.sequences.Keys
    decreases |slots|
  {
    if slots != [] {
      assert Descending(slots[1..]);
      DeleteSlotsStep(animation, slots);
      DeleteSlotKeepsRest(animation, slots);
      DeleteSlotsKeepsShape(DeleteSlot(animation, slots[0]), slots[1..]);
    }
  }

  /** In one direction, deleting existing slots largest first removes exactly their positions. */
  lemma {:induction false} DeleteSlotsIn(animation: Animation, slots: seq<KeyframeSlot>, e: Direction)
    requires Descending(slots)
    requires forall k :: 0 <= k < |slots| ==> SlotExists(animation, slots[k])
    requires e in animation.sequences
    ensures e in DeleteSlots(animation, slots).0.sequences
    ensures DeleteSlots(animation, slots).0.sequences[e].keyframes
      == Without(animation.sequences[e].keyframes, IndicesIn(slots, e))
    decreases |slots|
  {
    if slots == [] {
      assert IndicesIn(slots, e) == {};
      WithoutNothing(animation.sequences[e].keyframes);
    } else {
      var tail := slots[1..];
      assert Descending(tail);
      var next := DeleteSlot(animation, slots[0]);
      DeleteSlotsStep(animation, slots);
      DeleteSlotKeepsRest(animation, slots);
      DeleteSlotIn(animation, slots, e);
      DeleteSlotsIn(next, tail, e);
    }
  }

  /** Deleting the largest slot first, then the rest of one direction, removes all of that direction's positions. */
  lemma DeleteSlotIn(animation: Animation, slots: seq<KeyframeSlot>, e: Direction)
    requires Descending(slots) && slots != [] && SlotExists(animation, slots[0])
    requires e in animation.sequences
    ensures var next := DeleteSlot(animation, slots[0]);
      && e in next.sequences
      && Without(next.sequences[e].keyframes, IndicesIn(slots[1..], e))
         == Without(animation.sequences[e].keyframes, IndicesIn(slots, e))
  {
    var (d, i) := slots[0];
    var tail := slots[1..];
    var next := DeleteSlot(animation, slots[0]);
    IndicesInTail(slots, e);
    if e == d {
      forall x | x in IndicesIn(tail, d)
        ensures x < i
      {
        var k :| 0 <= k < |tail| && tail[k] == (d, x);
        assert SlotBefore(slots[k + 1], slots[0]);
      }
      var ks := animation.sequences[d].keyframes;
      assert next.sequences[d].keyframes == ks[..i] + ks[i + 1..];
      WithoutDeleteAt(ks, IndicesIn(tail, d), i);
    } else {
      assert next.sequences[e] == animation.sequences[e];
      assert IndicesIn(slots, e) == IndicesIn(tail, e);
    }
  }

  /**
   * What `Document::delete_selected_keyframes` does: with nothing selected,
   * nothing; otherwise the selected keyframes of the current animation are
   * deleted, largest slot first, and the clock is pulled back by the deleted
   * time of the current direction that lay before it, then the keyframe under
   * the clock is selected. A missing sequence or keyframe stops the deletions
   * with those made so far kept and the view left alone.
   */
  ghost function KeyframeDeletion(sheet: Sheet, view: View): (r: Outcome)
    ensures SelectedSlots(view) == {} ==> r == Outcome(sheet, view, Ok(()))
    ensures SelectedSlots(view) != {} && WorkbenchSequence(sheet, view).Err? ==>
              r == Outcome(sheet, view, Err(WorkbenchSequence(sheet, view).error))
    ensures r.result.Err? ==> r.view == view
  {
    var selected := SelectedSlots(view);
    var current := WorkbenchSequence(sheet, view);
    if selected == {} then Outcome(sheet, view, Ok(()))
    else if current.Err? then Outcome(sheet, view, Err(current.error))
    else
      var workbench := WorkbenchAnimation(sheet, view);
      var slots := DescendingOrder(selected);
      var deletion := DeleteSlots(workbench.value.1, slots);
      var after := sheet.(animations := sheet.animations[workbench.value.0 := deletion.0]);
      if deletion.1.Some? then Outcome(after, view, Err(deletion.1.value))
      else
        var clock := ClockAfter(TimeRanges(current.value.1), current.value.0, view.timelineClock, slots);
        Outcome(after, TrySelectCurrentKeyframe(after, view.(timelineClock := clock)), Ok(()))
  }

  /** `Document::delete_selected_keyframes`. */
  method DeleteSelectedKeyframes(doc: Document) returns (r: Result<(), DocumentError>)
    modifies doc
    ensures Outcome(doc.sheet, doc.view, r) == KeyframeDeletion(old(doc.sheet), old(doc.view))
    ensures doc.transient == old(doc.transient) && doc.persistent == old(doc.persistent) && doc.KeepsHistory()
  {
    var outcome := PlanKeyframeDeletion(doc.sheet, doc.view);
    doc.sheet := outcome.sheet;
    doc.view := outcome.view;
    r := outcome.result;
  }

  /** The work of `delete_selected_keyframes`, on the sheet and view as values. */
  method PlanKeyframeDeletion(sheet: Sheet, view: View) returns (o: Outcome)
    ensures o == KeyframeDeletion(sheet, view)
  {
    var selected := SelectedSlots(view);
    if selected == {} {
      return Outcome(sheet, view, Ok(()));
    }
    var slots := SortDescending(selected);
    var current := WorkbenchSequence(sheet, view);
    if current.Err? {
      return Outcome(sheet, view, Err(current.error));
    }
    var workbench := WorkbenchAnimation(sheet, view);
    var animation, failure, clock := DeleteEach(workbench.value.1, slots, TimeRanges(current.value.1), current.value.0,
                                                view.timelineClock);
    var after := sheet.(animations := sheet.animations[workbench.value.0 := animation]);
    if failure.Some? {
      return Outcome(after, view, Err(failure.value));
    }
    o := Outcome(after, TrySelectCurrentKeyframe(after, view.(timelineClock := clock)), Ok(()));
  }

  /**
   * The deletion loop: each slot in turn is deleted from `animation`, and
   * the clock pulled back by the deleted time of `direction` before it.
   */
  method DeleteEach(animation: Animation, slots: seq<KeyframeSlot>, ranges: seq<TimeRange>, direction: Direction,
                    clock: nat) returns (after: Animation, failure: Option<DocumentError>, newClock: nat)
    ensures (after, failure) == DeleteSlots(animation, slots)
    ensures failure.None? ==> newClock == ClockAfter(ranges, direction, clock, slots)
  {
    after := animation;
    newClock := clock;
    var k := 0;
    while k < |slots|
      invariant 0 <= k <= |slots|
      invariant DeleteSlots(after, slots[k..]) == DeleteSlots(animation, slots)
      invariant ClockAfter(ranges, direction, newClock, slots[k..]) == ClockAfter(ranges, direction, clock, slots)
    {
      assert slots[k..][1..] == slots[k + 1..];
      var d := slots[k].0;
      var i := slots[k].1;
      if d !in after.sequences {
        return after, Some(SequenceNotInAnimation(d)), newClock;
      }
      var deleted := DeleteKeyframe(after.sequences[d], i);
      if deleted.Err? {
        return after, Some(SheetFailure(deleted.error)), newClock;
      }
      after := after.(sequences := after.sequences[d := deleted.value.0]);
      if d == direction && i < |ranges| && ranges[i].start <= newClock {
        newClock := SaturatingSub(newClock, Overlap(ranges[i], newClock));
      }
      k := k + 1;
    }
    assert slots[k..] == [];
    failure := None;
  }

  /**
   * What a successful deletion means for the current direction: the clock
   * moves back by the deleted time that lay before it, never below 0.
   */
  lemma DeletionClockSpec(sequence: Sequence, direction: Direction, clock: nat, slots: seq<KeyframeSlot>)
    requires Descending(slots)
    ensures OverlapSum(TimeRanges(sequence), direction, clock, slots) <= clock
    ensures ClockAfter(TimeRanges(sequence), direction, clock, slots)
            == clock - OverlapSum(TimeRanges(sequence), direction, clock, slots)
  {
    RangesOrdered(sequence);
    ClockAfterSum(TimeRanges(sequence), direction, clock, slots);
  }
}
