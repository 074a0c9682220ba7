/**
 * The mouse gestures on the timeline and the workbench that run as a
 * begin / update / end triple: stretching keyframe durations, nudging
 * keyframes, nudging hitboxes and resizing hitboxes.
 *
 * `begin_*` snapshots what the gesture starts from into the transient
 * state; every `update_*` recomputes the edit from that snapshot and the
 * total mouse movement so far, so updates never accumulate; `end_*`
 * drops the snapshot.
 */
module Drags {
  import opened Wrappers
  import opened Sheets
  import opened Selections
  import opened Views
  import opened Documents
  import opened Ordering
  import opened KeyframeEdits
  import Commands
  import Timeline
  import Gestures

  // ----- The source's integer arithmetic -----

  /** `i64` division as Rust computes it: the quotient is rounded toward zero. */
  function TruncatingDiv(a: int, b: nat): (q: int)
    requires b > 0
    ensures 0 <= a ==> 0 <= q * b <= a < q * b + b
    ensures a < 0 ==> q * b - b < a <= q * b <= 0
  {
    if a >= 0 then
      DivBounds(a, b);
      a / b
    else
      DivBounds(-a, b);
      NegatedProduct((-a) / b, b);
      -((-a) / b)
  }

  lemma DivBounds(n: nat, b: nat)
    requires b > 0
    ensures 0 <= (n / b) * b <= n < (n / b) * b + b
  {
  }

  lemma NegatedProduct(m: int, b: int)
    ensures (-m) * b == -(m * b)
  {
  }

  const U64Max: nat := 0xFFFF_FFFF_FFFF_FFFF

  /**
   * The `apply_delta` closure on `u64` milliseconds: a positive delta is a
   * saturating add, any other a saturating subtraction of its magnitude.
   */
  function ApplyDelta(from: nat, delta: int): (r: nat)
    ensures 0 <= from + delta <= U64Max ==> r == from + delta
    ensures delta > 0 && from + delta > U64Max ==> r == U64Max
    ensures from + delta < 0 ==> r == 0
    ensures from <= U64Max ==> r <= U64Max
  {
    if delta > 0 then Min(from + delta, U64Max) else SaturatingSub(from, -delta)
  }

  // ----- Keyframes as slots of an animation -----

  /** The keyframe in an existing slot. */
  function At(animation: Animation, slot: KeyframeSlot): Keyframe
    requires Timeline.SlotExists(animation, slot)
  {
    animation.sequences[slot.0].keyframes[slot.1]
  }

  /** The same directions, the same sequence lengths and the same looping flag. */
  predicate SameShape(a: Animation, b: Animation) {
    && a.isLooping == b.isLooping
    && a.sequences.Keys == b.sequences.Keys
    && forall d :: d in a.sequences ==> |a.sequences[d].keyframes| == |b.sequences[d].keyframes|
  }

  /** The animation with the keyframe in one existing slot replaced. */
  function WithSlot(animation: Animation, slot: KeyframeSlot, keyframe: Keyframe): (r: Animation)
    requires Timeline.SlotExists(animation, slot)
    ensures SameShape(r, animation)
    ensures forall s :: Timeline.SlotExists(animation, s) ==>
      At(r, s) == if s == slot then keyframe else At(animation, s)
  {
    var sequence := animation.sequences[slot.0];
    animation.(sequences := animation.sequences[slot.0 := Sequence(sequence.keyframes[slot.1 := keyframe])])
  }

  /** Two animations of the same shape holding the same keyframe in every slot are equal. */
  lemma SameSlotsSame(a: Animation, b: Animation)
    requires SameShape(a, b)
    requires forall s :: Timeline.SlotExists(a, s) ==> At(a, s) == At(b, s)
    ensures a == b
  {
    forall d | d in a.sequences
      ensures a.sequences[d] == b.sequences[d]
    {
      var ka := a.sequences[d].keyframes;
      var kb := b.sequences[d].keyframes;
      forall i | 0 <= i < |ka|
        ensures ka[i] == kb[i]
      {
        assert Timeline.SlotExists(a, (d, i));
        assert At(a, (d, i)) == At(b, (d, i));
      }
      assert ka == kb;
    }
    assert a.sequences == b.sequences;
  }

  /** One slot comes before another in the order the sorted maps iterate: by direction, then by index. */
  predicate SlotBefore(a: KeyframeSlot, b: KeyframeSlot) {
    DirectionRank(a.0) < DirectionRank(b.0) || (a.0 == b.0 && a.1 < b.1)
  }

  predicate InSlotOrder(slots: seq<KeyframeSlot>) {
    forall i, j :: 0 <= i < j < |slots| ==> SlotBefore(slots[i], slots[j])
  }

  /**
   * The keyframes of `animation` selected under the animation name `name`,
   * each once, in the order `sequences_iter` and `keyframes_iter` visit
   * them.
   */
  function OrderedSlots(animation: Animation, name: string, selected: set<KeyframeRef>): (r: seq<KeyframeSlot>)
    ensures forall s :: s in r <==> Timeline.SlotExists(animation, s) && KeyframeRef(name, s.0, s.1) in selected
    ensures InSlotOrder(r)
  {
    SlotsFrom(animation, name, selected, 0)
  }

  lemma RankOfListed(k: nat)
    requires k < |AllDirections|
    ensures DirectionRank(AllDirections[k]) == k
  {
  }

  /** The selected slots of the directions of rank `k` and above. */
  function SlotsFrom(animation: Animation, name: string, selected: set<KeyframeRef>, k: nat): (r: seq<KeyframeSlot>)
    requires k <= |AllDirections|
    ensures forall s :: s in r <==>
      k <= DirectionRank(s.0) && Timeline.SlotExists(animation, s) && KeyframeRef(name, s.0, s.1) in selected
    ensures InSlotOrder(r)
    ensures forall i :: 0 <= i < |r| ==> k <= DirectionRank(r[i].0)
    decreases |AllDirections| - k
  {
    if k == |AllDirections| then []
    else
      var d := AllDirections[k];
      RankOfListed(k);
      var here := if d in animation.sequences then IndexSlots(d, |animation.sequences[d].keyframes|, name, selected, 0) else [];
      var rest := SlotsFrom(animation, name, selected, k + 1);
      JoinInOrder(here, rest, k);
      here + rest
  }

  /** Slots of one direction followed by slots of later directions stay in slot order. */
  lemma JoinInOrder(here: seq<KeyframeSlot>, rest: seq<KeyframeSlot>, k: nat)
    requires InSlotOrder(here) && InSlotOrder(rest)
    requires forall i :: 0 <= i < |here| ==> DirectionRank(here[i].0) == k
    requires forall i :: 0 <= i < |rest| ==> k + 1 <= DirectionRank(rest[i].0)
    ensures InSlotOrder(here + rest)
  {
  }

  /** The selected slots of direction `d` from index `i` up to `count`. */
  function IndexSlots(d: Direction, count: nat, name: string, selected: set<KeyframeRef>, i: nat): (r: seq<KeyframeSlot>)
    requires i <= count
    ensures forall s :: s in r <==> s.0 == d && i <= s.1 < count && KeyframeRef(name, d, s.1) in selected
    ensures InSlotOrder(r)
    ensures forall j :: 0 <= j < |r| ==> r[j].0 == d && i <= r[j].1
    decreases count - i
  {
    if i == count then []
    else (if KeyframeRef(name, d, i) in selected then [(d, i)] else []) + IndexSlots(d, count, name, selected, i + 1)
  }

  /** The selected slots depend on the animation's shape only. */
  lemma {:induction false} SlotsFromShape(a: Animation, b: Animation, name: string, selected: set<KeyframeRef>, k: nat)
    requires SameShape(a, b) && k <= |AllDirections|
    ensures SlotsFrom(a, name, selected, k) == SlotsFrom(b, name, selected, k)
    decreases |AllDirections| - k
  {
    if k < |AllDirections| {
      SlotsFromShape(a, b, name, selected, k + 1);
    }
  }

  // ----- Stretching keyframe durations -----

  const MinimumDurationMillis: nat := 20

  /** `Range::count` of a time range: zero when it is empty. */
  function RangeLength(range: TimeRange): nat {
    SaturatingSub(range.end, range.start)
  }

  /** The duration a keyframe whose range was `original` when the drag began takes on. */
  function DraggedDuration(original: TimeRange, perFrame: int): (d: nat)
    ensures d >= MinimumDurationMillis
    ensures d == ApplyDelta(RangeLength(original), perFrame) || d == MinimumDurationMillis
  {
    Max(ApplyDelta(RangeLength(original), perFrame), MinimumDurationMillis)
  }

  /** A slot shares the drag of `dragged`: same direction, index up to the dragged one. */
  predicate Shares(slot: KeyframeSlot, dragged: KeyframeSlot) {
    slot.0 == dragged.0 && slot.1 <= dragged.1
  }

  /** How many of `slots` share the drag of `dragged`. */
  function CountSharing(slots: seq<KeyframeSlot>, dragged: KeyframeSlot): (n: nat)
    ensures n <= |slots|
    ensures n == 0 <==> forall k :: 0 <= k < |slots| ==> !Shares(slots[k], dragged)
    decreases |slots|
  {
    if slots == [] then 0
    else (if Shares(slots[0], dragged) then 1 else 0) + CountSharing(slots[1..], dragged)
  }

  /** Counting the slots in order counts the set of sharing slots, since no slot comes twice. */
  lemma {:induction false} CountSharingCounts(slots: seq<KeyframeSlot>, dragged: KeyframeSlot)
    requires InSlotOrder(slots)
    ensures CountSharing(slots, dragged) == |set s | s in slots && Shares(s, dragged)|
    decreases |slots|
  {
    if slots != [] {
      CountSharingCounts(slots[1..], dragged);
      var whole := set s | s in slots && Shares(s, dragged);
      var rest := set s | s in slots[1..] && Shares(s, dragged);
      assert slots[0] !in slots[1..] by {
        forall k | 0 <= k < |slots| - 1 ensures slots[1..][k] != slots[0] {
          assert SlotBefore(slots[0], slots[k + 1]);
        }
      }
      if Shares(slots[0], dragged) {
        assert whole == rest + {slots[0]};
      } else {
        assert whole == rest;
      }
    }
  }

  /**
   * `num_frames_affected`: how many keyframes share the drag, the selected
   * ones of the dragged keyframe's direction up to and including its
   * index, and at least one.
   */
  function AffectedCount(slots: seq<KeyframeSlot>, dragged: KeyframeSlot): (n: nat)
    ensures n >= 1
    ensures dragged in slots ==> n == CountSharing(slots, dragged)
  {
    assert Shares(dragged, dragged);
    Max(1, CountSharing(slots, dragged))
  }

  /**
   * The loop of `update_drag_keyframe_duration`: each slot in turn takes its
   * dragged duration; the first slot missing from the snapshot stops the
   * loop, keeping the durations set so far.
   */
  function DragDurations(animation: Animation, slots: seq<KeyframeSlot>, ranges: map<KeyframeSlot, TimeRange>, perFrame: int)
    : (r: (Animation, Option<DocumentError>))
    requires Gestures.SlotsExist(animation, slots)
    ensures SameShape(r.0, animation)
    ensures r.1.Some? ==> r.1 == Some(MissingKeyframeDragData)
    decreases |slots|
  {
    if slots == [] then (animation, None)
    else if slots[0] !in ranges then (animation, Some(MissingKeyframeDragData))
    else
      var s := slots[0];
      var next := WithSlot(animation, s, At(animation, s).(durationMillis := DraggedDuration(ranges[s], perFrame)));
      assert Gestures.SlotsExist(next, slots[1..]) by {
        forall k | 0 <= k < |slots| - 1 ensures Timeline.SlotExists(next, slots[1..][k]) {
          assert Timeline.SlotExists(animation, slots[k + 1]);
        }
      }
      DragDurations(next, slots[1..], ranges, perFrame)
  }

  /** Each listed slot holds its keyframe with the dragged duration; every other slot is unchanged. */
  ghost predicate DurationsDragged(animation: Animation, after: Animation, slots: seq<KeyframeSlot>,
                             ranges: map<KeyframeSlot, TimeRange>, perFrame: int)
    requires SameShape(after, animation)
    requires forall s :: s in slots ==> s in ranges
  {
    forall s :: Timeline.SlotExists(animation, s) ==>
      At(after, s) == if s in slots then At(animation, s).(durationMillis := DraggedDuration(ranges[s], perFrame))
                      else At(animation, s)
  }

  /**
   * The loop fails exactly when a slot is missing from the snapshot, and
   * otherwise every listed slot has the duration its snapshot range
   * dictates, with nothing else about any keyframe changed.
   */
  lemma {:induction false} DragDurationsSpec(animation: Animation, slots: seq<KeyframeSlot>,
                                             ranges: map<KeyframeSlot, TimeRange>, perFrame: int)
    requires Gestures.SlotsExist(animation, slots)
    ensures var (after, failure) := DragDurations(animation, slots, ranges, perFrame);
      && (failure.None? <==> forall s :: s in slots ==> s in ranges)
      && (failure.None? ==> DurationsDragged(animation, after, slots, ranges, perFrame))
    decreases |slots|
  {
    if slots != [] && slots[0] in ranges {
      var s0 := slots[0];
      var next := WithSlot(animation, s0, At(animation, s0).(durationMillis := DraggedDuration(ranges[s0], perFrame)));
      assert Gestures.SlotsExist(next, slots[1..]) by {
        forall k | 0 <= k < |slots| - 1 ensures Timeline.SlotExists(next, slots[1..][k]) {
          assert Timeline.SlotExists(animation, slots[k + 1]);
        }
      }
      DragDurationsSpec(next, slots[1..], ranges, perFrame);
      assert forall s :: s in slots <==> s == s0 || s in slots[1..];
    }
  }

  /** A second drag from the same snapshot replaces the first instead of adding to it. */
  lemma DragDurationsTwice(animation: Animation, slots: seq<KeyframeSlot>,
                           ranges: map<KeyframeSlot, TimeRange>, first: int, second: int)
    requires Gestures.SlotsExist(animation, slots)
    requires DragDurations(animation, slots, ranges, first).1.None?
    ensures var once := DragDurations(animation, slots, ranges, first).0;
      && Gestures.SlotsExist(once, slots)
      && DragDurations(once, slots, ranges, second) == DragDurations(animation, slots, ranges, second)
  {
    var once := DragDurations(animation, slots, ranges, first).0;
    DragDurationsSpec(animation, slots, ranges, first);
    assert Gestures.SlotsExist(once, slots) by {
      forall k | 0 <= k < |slots| ensures Timeline.SlotExists(once, slots[k]) {
        assert Timeline.SlotExists(animation, slots[k]);
      }
    }
    DragDurationsSpec(once, slots, ranges, second);
    DragDurationsSpec(animation, slots, ranges, second);
    var twice := DragDurations(once, slots, ranges, second).0;
    var direct := DragDurations(animation, slots, ranges, second).0;
    forall s | Timeline.SlotExists(twice, s) ensures At(twice, s) == At(direct, s) {
      assert Timeline.SlotExists(animation, s) && Timeline.SlotExists(once, s);
    }
    SameSlotsSame(twice, direct);
  }

  /** The drag loop as the source runs it, over the slots in iteration order. */
  method DragEach(animation: Animation, slots: seq<KeyframeSlot>, ranges: map<KeyframeSlot, TimeRange>, perFrame: int)
    returns (after: Animation, failure: Option<DocumentError>)
    requires Gestures.SlotsExist(animation, slots)
    ensures (after, failure) == DragDurations(animation, slots, ranges, perFrame)
  {
    after := animation;
    var k := 0;
    while k < |slots|
      invariant 0 <= k <= |slots|
      invariant SameShape(after, animation)
      invariant Gestures.SlotsExist(after, slots[k..])
      invariant DragDurations(after, slots[k..], ranges, perFrame) == DragDurations(animation, slots, ranges, perFrame)
    {
      var s := slots[k];
      assert Timeline.SlotExists(after, slots[k..][0]);
      if s !in ranges {
        return after, Some(MissingKeyframeDragData);
      }
      after := WithSlot(after, s, At(after, s).(durationMillis := DraggedDuration(ranges[s], perFrame)));
      assert slots[k..][1..] == slots[k + 1..];
      k := k + 1;
    }
    failure := None;
  }

  /**
   * The view as `begin_drag_keyframe_duration` leaves it: a keyframe that is
   * not yet selected becomes the only selected keyframe and its direction
   * the current sequence.
   */
  function DurationDragView(view: View, name: string, dragged: KeyframeSlot): (r: View)
    ensures KeyframeRef(name, dragged.0, dragged.1) in r.selection.keyframes.selected
    ensures KeyframeRef(name, dragged.0, dragged.1) in view.selection.keyframes.selected ==> r == view
    ensures KeyframeRef(name, dragged.0, dragged.1) !in view.selection.keyframes.selected ==>
      && r.selection.keyframes.selected == {KeyframeRef(name, dragged.0, dragged.1)}
      && r.currentSequence == Some(dragged.0)
  {
    var k := KeyframeRef(name, dragged.0, dragged.1);
    if k in view.selection.keyframes.selected then view
    else SelectKeyframesOnly(view, [k]).(currentSequence := Some(dragged.0))
  }

  /** The snapshot of a duration drag: the time range of every selected keyframe. */
  function DurationSnapshot(animation: Animation, name: string, selected: set<KeyframeRef>): (r: map<KeyframeSlot, TimeRange>)
    ensures forall s :: s in r <==> Timeline.SlotExists(animation, s) && KeyframeRef(name, s.0, s.1) in selected
    ensures forall s :: s in r ==> RangeLength(r[s]) == At(animation, s).durationMillis
  {
    var slots := OrderedSlots(animation, name, selected);
    var r := map s | s in slots :: TimeRanges(animation.sequences[s.0])[s.1];
    assert forall s :: s in r ==> RangeLength(r[s]) == At(animation, s).durationMillis by {
      forall s | s in r ensures RangeLength(r[s]) == At(animation, s).durationMillis {
        RangesFromShape(animation.sequences[s.0].keyframes, 0);
      }
    }
    r
  }

  /** `Document::is_dragging_keyframe_duration`. */
  function IsDraggingKeyframeDuration(t: Transient): bool {
    t.keyframeDurationDrag.Some?
  }

  /**
   * What `begin_drag_keyframe_duration` leaves: the view with the dragged
   * keyframe selected and the snapshot of the selected keyframes' time
   * ranges; without a current animation, that error and no change.
   */
  function DurationDragBegun(sheet: Sheet, view: View, t: Transient, dragged: KeyframeSlot)
    : (r: (View, Transient, Result<(), DocumentError>))
    ensures WorkbenchAnimation(sheet, view).Err? ==> r == (view, t, Err(WorkbenchAnimation(sheet, view).error))
    ensures WorkbenchAnimation(sheet, view).Ok? ==>
      var (name, animation) := WorkbenchAnimation(sheet, view).value;
      && r.2 == Ok(())
      && KeyframeRef(name, dragged.0, dragged.1) in r.0.selection.keyframes.selected
      && r.1 == t.(keyframeDurationDrag := r.1.keyframeDurationDrag)
      && IsDraggingKeyframeDuration(r.1)
      && r.1.keyframeDurationDrag.value.frameBeingDragged == dragged
      && (dragged in r.1.keyframeDurationDrag.value.originalRanges <==> Timeline.SlotExists(animation, dragged))
  {
    match WorkbenchAnimation(sheet, view)
    case Err(e) => (view, t, Err(e))
    case Ok((name, animation)) =>
      var after := DurationDragView(view, name, dragged);
      (after, t.(keyframeDurationDrag := Some(KeyframeDurationDrag(dragged, DurationSnapshot(animation, name, after.selection.keyframes.selected)))),
       Ok(()))
  }

  /** `Document::begin_drag_keyframe_duration`. */
  method BeginDragKeyframeDuration(doc: Document, direction: Direction, index: nat) returns (r: Result<(), DocumentError>)
    modifies doc
    ensures (doc.view, doc.transient, r) == DurationDragBegun(old(doc.sheet), old(doc.view), old(doc.transient), (direction, index))
    ensures doc.sheet == old(doc.sheet) && doc.persistent == old(doc.persistent) && doc.KeepsHistory()
  {
    var begun := DurationDragBegun(doc.sheet, doc.view, doc.transient, (direction, index));
    doc.view, doc.transient := begun.0, begun.1;
    r := begun.2;
  }

  /**
   * `Document::update_drag_keyframe_duration` with duration snapping off:
   * the total delta is shared out, rounding toward zero, between the
   * selected keyframes up to the dragged one, and each selected keyframe
   * takes its snapshot duration plus that share, at least 20 ms.
   */
  function DurationDragged(sheet: Sheet, view: View, drag: Option<KeyframeDurationDrag>, deltaMillis: int): (r: Outcome)
    ensures r.view == view
    ensures drag.None? ==> r == Outcome(sheet, view, Err(NotDraggingKeyframeDuration))
    ensures drag.Some? && WorkbenchAnimation(sheet, view).Err? ==> r == Outcome(sheet, view, Err(WorkbenchAnimation(sheet, view).error))
  {
    if drag.None? then Outcome(sheet, view, Err(NotDraggingKeyframeDuration))
    else match WorkbenchAnimation(sheet, view)
      case Err(e) => Outcome(sheet, view, Err(e))
      case Ok((name, animation)) =>
        var dragged := drag.value.frameBeingDragged;
        var slots := OrderedSlots(animation, name, view.selection.keyframes.selected);
        OrderedSlotsExist(animation, name, view.selection.keyframes.selected);
        var perFrame := TruncatingDiv(deltaMillis, AffectedCount(slots, dragged));
        if dragged !in drag.value.originalRanges then Outcome(sheet, view, Err(MissingKeyframeDragData))
        else DurationsSet(sheet, view, name, animation, slots, drag.value.originalRanges, perFrame)
  }

  /** The sheet after the drag loop over `slots` in the current animation `name`. */
  function DurationsSet(sheet: Sheet, view: View, name: string, animation: Animation, slots: seq<KeyframeSlot>,
                        ranges: map<KeyframeSlot, TimeRange>, perFrame: int): (r: Outcome)
    requires Gestures.SlotsExist(animation, slots)
    ensures r.view == view
  {
    var (after, failure) := DragDurations(animation, slots, ranges, perFrame);
    Outcome(sheet.(animations := sheet.animations[name := after]), view, if failure.None? then Ok(()) else Err(failure.value))
  }

  lemma OrderedSlotsExist(animation: Animation, name: string, selected: set<KeyframeRef>)
    ensures Gestures.SlotsExist(animation, OrderedSlots(animation, name, selected))
  {
    var slots := OrderedSlots(animation, name, selected);
    forall k | 0 <= k < |slots| ensures Timeline.SlotExists(animation, slots[k]) {
      assert slots[k] in slots;
    }
  }

  /**
   * A duration drag fails exactly when there is no drag under way, no
   * current animation, or the dragged keyframe or a selected keyframe of
   * the current animation is missing from the snapshot.
   */
  lemma DurationDragFails(sheet: Sheet, view: View, drag: Option<KeyframeDurationDrag>, deltaMillis: int)
    ensures DurationDragged(sheet, view, drag, deltaMillis).result.Ok? <==>
      && drag.Some? && WorkbenchAnimation(sheet, view).Ok?
      && drag.value.frameBeingDragged in drag.value.originalRanges
      && forall s :: s in SelectedKeyframes(sheet, view).value ==> s in drag.value.originalRanges
  {
    if drag.Some? && WorkbenchAnimation(sheet, view).Ok? {
      var (name, animation) := WorkbenchAnimation(sheet, view).value;
      var dragged := drag.value.frameBeingDragged;
      var slots := OrderedSlots(animation, name, view.selection.keyframes.selected);
      OrderedSlotsExist(animation, name, view.selection.keyframes.selected);
      var perFrame := TruncatingDiv(deltaMillis, AffectedCount(slots, dragged));
      DragDurationsSpec(animation, slots, drag.value.originalRanges, perFrame);
      SelectedInOrder(sheet, view, dragged);
    }
  }

  /**
   * A successful duration drag shares the delta, rounding toward zero,
   * between the selected keyframes of the dragged direction up to the
   * dragged index; each selected keyframe of the current animation takes
   * the duration its snapshot range and that share give, and nothing else
   * in the sheet changes.
   */
  lemma DurationDragSucceeds(sheet: Sheet, view: View, drag: Option<KeyframeDurationDrag>, deltaMillis: int)
    requires drag.Some? && WorkbenchAnimation(sheet, view).Ok?
    requires drag.value.frameBeingDragged in drag.value.originalRanges
    requires forall s :: s in SelectedKeyframes(sheet, view).value ==> s in drag.value.originalRanges
    ensures var r := DurationDragged(sheet, view, drag, deltaMillis);
      var (name, animation) := WorkbenchAnimation(sheet, view).value;
      var selected := SelectedKeyframes(sheet, view).value;
      var sharing := SharingCount(selected, drag.value.frameBeingDragged);
      var perFrame := TruncatingDiv(deltaMillis, Max(1, sharing));
      && r.result == Ok(())
      && name in r.sheet.animations
      && r.sheet == sheet.(animations := sheet.animations[name := r.sheet.animations[name]])
      && DurationsTaken(animation, r.sheet.animations[name], selected, drag.value.originalRanges, perFrame)
  {
    var (name, animation) := WorkbenchAnimation(sheet, view).value;
    var dragged := drag.value.frameBeingDragged;
    var slots := OrderedSlots(animation, name, view.selection.keyframes.selected);
    OrderedSlotsExist(animation, name, view.selection.keyframes.selected);
    var perFrame := TruncatingDiv(deltaMillis, AffectedCount(slots, dragged));
    SelectedInOrder(sheet, view, dragged);
    DragDurationsSpec(animation, slots, drag.value.originalRanges, perFrame);
  }

  /**
   * The animation after a successful duration drag: the same shape, each
   * selected keyframe with the duration its snapshot range and the share
   * give, every other keyframe unchanged.
   */
  ghost predicate DurationsTaken(animation: Animation, after: Animation, selected: set<KeyframeSlot>,
                                 ranges: map<KeyframeSlot, TimeRange>, perFrame: int) {
    && SameShape(after, animation)
    && forall s :: Timeline.SlotExists(animation, s) ==>
         && Timeline.SlotExists(after, s)
         && if s in selected
            then s in ranges && At(after, s) == At(animation, s).(durationMillis := DraggedDuration(ranges[s], perFrame))
            else At(after, s) == At(animation, s)
  }

  /** How many of the selected keyframes share the drag with the dragged one. */
  function SharingCount(selected: set<KeyframeSlot>, dragged: KeyframeSlot): nat {
    |set s | s in selected && Shares(s, dragged)|
  }

  /**
   * The slots the loop visits are the selected keyframes, and the count of
   * those sharing the drag is the count the source takes of them.
   */
  lemma SelectedInOrder(sheet: Sheet, view: View, dragged: KeyframeSlot)
    requires WorkbenchAnimation(sheet, view).Ok?
    ensures var (name, animation) := WorkbenchAnimation(sheet, view).value;
      var slots := OrderedSlots(animation, name, view.selection.keyframes.selected);
      var selected := SelectedKeyframes(sheet, view).value;
      && (forall s :: s in selected <==> s in slots)
      && AffectedCount(slots, dragged) == Max(1, SharingCount(selected, dragged))
  {
    var (name, animation) := WorkbenchAnimation(sheet, view).value;
    var slots := OrderedSlots(animation, name, view.selection.keyframes.selected);
    var selected := SelectedKeyframes(sheet, view).value;
    assert forall s :: s in selected <==> s in slots;
    CountSharingCounts(slots, dragged);
    assert SharingCount(selected, dragged) == |set s | s in slots && Shares(s, dragged)| by {
      assert (set s | s in selected && Shares(s, dragged)) == (set s | s in slots && Shares(s, dragged));
    }
  }

  /** The drag on a current animation replaced by another of the same shape: same slots, same share. */
  lemma DurationDragReshaped(sheet: Sheet, view: View, drag: Option<KeyframeDurationDrag>, after: Animation, deltaMillis: int)
    requires drag.Some? && WorkbenchAnimation(sheet, view).Ok?
    requires SameShape(after, WorkbenchAnimation(sheet, view).value.1)
    ensures var name := WorkbenchAnimation(sheet, view).value.0;
      var changed := sheet.(animations := sheet.animations[name := after]);
      && WorkbenchAnimation(changed, view) == Ok((name, after))
      && OrderedSlots(after, name, view.selection.keyframes.selected)
         == OrderedSlots(WorkbenchAnimation(sheet, view).value.1, name, view.selection.keyframes.selected)
  {
    var (name, animation) := WorkbenchAnimation(sheet, view).value;
    SlotsFromShape(after, animation, name, view.selection.keyframes.selected, 0);
  }

  /** After a successful loop, a second loop from the same snapshot replaces the first. */
  lemma DurationsSetTwice(sheet: Sheet, view: View, name: string, animation: Animation, slots: seq<KeyframeSlot>,
                          ranges: map<KeyframeSlot, TimeRange>, first: int, second: int)
    requires Gestures.SlotsExist(animation, slots)
    requires DragDurations(animation, slots, ranges, first).1.None?
    ensures var once := DragDurations(animation, slots, ranges, first).0;
      && Gestures.SlotsExist(once, slots)
      && DurationsSet(sheet.(animations := sheet.animations[name := once]), view, name, once, slots, ranges, second)
         == DurationsSet(sheet, view, name, animation, slots, ranges, second)
  {
    var once := DragDurations(animation, slots, ranges, first).0;
    DragDurationsTwice(animation, slots, ranges, first, second);
    var direct := DragDurations(animation, slots, ranges, second).0;
    ReplacedTwice(sheet.animations, name, once, direct);
  }

  lemma ReplacedTwice<K, V>(m: map<K, V>, k: K, a: V, b: V)
    ensures m[k := a][k := b] == m[k := b]
  {
  }

  /**
   * Updates never accumulate: after a successful update, the next one from
   * the same snapshot gives what it would have given on its own.
   */
  lemma DurationDragDoesNotAccumulate(sheet: Sheet, view: View, drag: Option<KeyframeDurationDrag>, first: int, second: int)
    ensures var once := DurationDragged(sheet, view, drag, first);
      once.result.Ok? ==> DurationDragged(once.sheet, view, drag, second) == DurationDragged(sheet, view, drag, second)
  {
    var once := DurationDragged(sheet, view, drag, first);
    if once.result.Ok? {
      var (name, animation) := WorkbenchAnimation(sheet, view).value;
      var slots := OrderedSlots(animation, name, view.selection.keyframes.selected);
      var ranges := drag.value.originalRanges;
      OrderedSlotsExist(animation, name, view.selection.keyframes.selected);
      var count := AffectedCount(slots, drag.value.frameBeingDragged);
      var p1 := TruncatingDiv(first, count);
      var after := DragDurations(animation, slots, ranges, p1).0;
      DurationsSetTwice(sheet, view, name, animation, slots, ranges, p1, TruncatingDiv(second, count));
      DurationDragReshaped(sheet, view, drag, after, second);
    }
  }

  /** The computation of `update_drag_keyframe_duration`, on values. */
  method DragKeyframeDurations(sheet: Sheet, view: View, drag: Option<KeyframeDurationDrag>, deltaMillis: int) returns (r: Outcome)
    ensures r == DurationDragged(sheet, view, drag, deltaMillis)
  {
    if drag.None? {
      return Outcome(sheet, view, Err(NotDraggingKeyframeDuration));
    }
    var w := WorkbenchAnimation(sheet, view);
    if w.Err? {
      return Outcome(sheet, view, Err(w.error));
    }
    var (name, animation) := w.value;
    var dragged := drag.value.frameBeingDragged;
    var slots := OrderedSlots(animation, name, view.selection.keyframes.selected);
    OrderedSlotsExist(animation, name, view.selection.keyframes.selected);
    var perFrame := TruncatingDiv(deltaMillis, AffectedCount(slots, dragged));
    if dragged !in drag.value.originalRanges {
      return Outcome(sheet, view, Err(MissingKeyframeDragData));
    }
    var after, failure := DragEach(animation, slots, drag.value.originalRanges, perFrame);
    r := Outcome(sheet.(animations := sheet.animations[name := after]), view, if failure.None? then Ok(()) else Err(failure.value));
  }

  /** `Document::update_drag_keyframe_duration`, with duration snapping off. */
  method UpdateDragKeyframeDuration(doc: Document, deltaMillis: int) returns (r: Result<(), DocumentError>)
    modifies doc
    ensures Outcome(doc.sheet, doc.view, r)
            == DurationDragged(old(doc.sheet), old(doc.view), old(doc.transient.keyframeDurationDrag), deltaMillis)
    ensures doc.transient == old(doc.transient) && doc.persistent == old(doc.persistent) && doc.KeepsHistory()
  {
    var o := DragKeyframeDurations(doc.sheet, doc.view, doc.transient.keyframeDurationDrag, deltaMillis);
    doc.sheet := o.sheet;
    r := o.result;
  }

  /** `Document::end_drag_keyframe_duration`. */
  method EndDragKeyframeDuration(doc: Document)
    modifies doc
    ensures doc.transient == old(doc.transient).(keyframeDurationDrag := None)
    ensures !IsDraggingKeyframeDuration(doc.transient)
    ensures doc.sheet == old(doc.sheet) && doc.view == old(doc.view)
    ensures doc.persistent == old(doc.persistent) && doc.KeepsHistory()
  {
    doc.transient := doc.transient.(keyframeDurationDrag := None);
  }

  // ----- Nudging keyframes -----

  function Abs(n: int): nat {
    if n < 0 then -n else n
  }

  /**
   * The axis lock of the nudges: unless both axes are free, only the
   * component of larger magnitude is kept, the vertical one on a tie.
   */
  function AxisLocked(displacement: Vec2, bothAxis: bool): (r: Vec2)
    ensures bothAxis ==> r == displacement
    ensures (r.x == 0 || r.x == displacement.x) && (r.y == 0 || r.y == displacement.y)
    ensures !bothAxis ==> r.x == 0 || r.y == 0
    ensures !bothAxis ==> Abs(r.x) + Abs(r.y) == Max(Abs(displacement.x), Abs(displacement.y))
    ensures !bothAxis && Abs(displacement.x) == Abs(displacement.y) ==> r.x == 0
  {
    if bothAxis then displacement
    else if Abs(displacement.x) > Abs(displacement.y) then Vec2(displacement.x, 0)
    else Vec2(0, displacement.y)
  }

  /**
   * The zoom of the workbench. The view keeps the factor between 1 and 32;
   * a factor of 0, which no view operation produces, reads as 1.
   */
  function WorkbenchZoom(view: View): (z: nat)
    ensures z >= 1
    ensures ZoomInBounds(view) ==> z == view.workbenchZoomFactor
  {
    if view.workbenchZoomFactor == 0 then 1 else view.workbenchZoomFactor
  }

  lemma FloorDivBounds(a: int, b: nat)
    requires b > 0
    ensures (a / b) * b <= a < (a / b) * b + b
  {
  }

  /** A displacement in screen pixels as sheet pixels: divided by the zoom and rounded down. */
  function Unzoomed(displacement: Vec2, zoom: nat): (r: Vec2)
    requires zoom >= 1
    ensures r.x * zoom <= displacement.x < r.x * zoom + zoom
    ensures r.y * zoom <= displacement.y < r.y * zoom + zoom
  {
    FloorDivBounds(displacement.x, zoom);
    FloorDivBounds(displacement.y, zoom);
    Vec2(displacement.x / zoom, displacement.y / zoom)
  }

  /** At zoom 1 a displacement is its own size on the sheet. */
  lemma UnzoomedAtOne(displacement: Vec2)
    ensures Unzoomed(displacement, 1) == displacement
  {
    var r := Unzoomed(displacement, 1);
    assert r.x * 1 == r.x && r.y * 1 == r.y;
  }

  /** The slot a keyframe reference points at, whatever its animation. */
  function SlotOf(k: KeyframeRef): KeyframeSlot {
    (k.direction, k.index)
  }

  /** The slots of a list of keyframe references, in the same order. */
  function RefSlots(refs: seq<KeyframeRef>): (r: seq<KeyframeSlot>)
    ensures |r| == |refs|
    ensures forall k :: 0 <= k < |refs| ==> r[k] == SlotOf(refs[k])
  {
    seq(|refs|, k requires 0 <= k < |refs| => SlotOf(refs[k]))
  }

  /**
   * The loop of `update_nudge_keyframe`: each slot in turn is moved to its
   * snapshot offset plus the shift, its hitboxes following it; the first
   * slot missing from the snapshot, or naming a missing sequence or
   * keyframe, stops the loop, keeping the moves made so far.
   */
  function NudgeEach(animation: Animation, slots: seq<KeyframeSlot>, positions: map<KeyframeSlot, Vec2>, shift: Vec2)
    : (r: (Animation, Option<DocumentError>))
    ensures SameShape(r.0, animation)
    ensures r.1.Some? ==> r.1.value.MissingKeyframePositionData? || r.1.value.SequenceNotInAnimation? || r.1.value.NoKeyframeAtIndex?
    decreases |slots|
  {
    if slots == [] then (animation, None)
    else
      var s := slots[0];
      if s !in positions then (animation, Some(MissingKeyframePositionData))
      else if s.0 !in animation.sequences then (animation, Some(SequenceNotInAnimation(s.0)))
      else if s.1 >= |animation.sequences[s.0].keyframes| then (animation, Some(NoKeyframeAtIndex(s.1)))
      else NudgeEach(WithSlot(animation, s, NudgeKeyframe(At(animation, s), positions[s].Plus(shift))), slots[1..], positions, shift)
  }

  /**
   * The animation after a successful nudge loop: the same shape, each listed
   * slot holding its keyframe moved to its snapshot offset plus the shift,
   * every other slot unchanged.
   */
  ghost predicate OffsetsNudged(animation: Animation, after: Animation, slots: seq<KeyframeSlot>,
                                positions: map<KeyframeSlot, Vec2>, shift: Vec2) {
    && SameShape(after, animation)
    && forall s :: Timeline.SlotExists(animation, s) ==>
         && Timeline.SlotExists(after, s)
         && if s in slots
            then s in positions && At(after, s) == NudgeKeyframe(At(animation, s), positions[s].Plus(shift))
            else At(after, s) == At(animation, s)
  }

  /**
   * The nudge loop fails exactly when a slot is missing from the snapshot or
   * from the animation; otherwise every listed keyframe sits at its snapshot
   * offset plus the shift, however often the slot is listed.
   */
  lemma {:induction false} NudgeEachSpec(animation: Animation, slots: seq<KeyframeSlot>,
                                         positions: map<KeyframeSlot, Vec2>, shift: Vec2)
    ensures var (after, failure) := NudgeEach(animation, slots, positions, shift);
      && (failure.None? <==> forall s :: s in slots ==> s in positions && Timeline.SlotExists(animation, s))
      && (failure.None? ==> OffsetsNudged(animation, after, slots, positions, shift))
    decreases |slots|
  {
    if slots != [] && slots[0] in positions && Timeline.SlotExists(animation, slots[0]) {
      var s0 := slots[0];
      var moved := NudgeKeyframe(At(animation, s0), positions[s0].Plus(shift));
      var next := WithSlot(animation, s0, moved);
      NudgeEachSpec(next, slots[1..], positions, shift);
      NudgeKeyframeTwice(moved, positions[s0].Plus(shift), positions[s0].Plus(shift));
      NudgeKeyframeTwice(At(animation, s0), positions[s0].Plus(shift), positions[s0].Plus(shift));
      assert forall s :: s in slots <==> s == s0 || s in slots[1..];
    }
  }

  /** A successful nudge loop does not depend on the order or repetition of the slots it visits. */
  lemma NudgeOrderIrrelevant(animation: Animation, one: seq<KeyframeSlot>, other: seq<KeyframeSlot>,
                             positions: map<KeyframeSlot, Vec2>, shift: Vec2)
    requires forall s :: s in one <==> s in other
    requires NudgeEach(animation, one, positions, shift).1.None?
    ensures NudgeEach(animation, other, positions, shift) == NudgeEach(animation, one, positions, shift)
  {
    NudgeEachSpec(animation, one, positions, shift);
    NudgeEachSpec(animation, other, positions, shift);
    SameSlotsSame(NudgeEach(animation, other, positions, shift).0, NudgeEach(animation, one, positions, shift).0);
  }

  /** A second nudge loop from the same snapshot replaces the first instead of adding to it. */
  lemma NudgeEachTwice(animation: Animation, slots: seq<KeyframeSlot>, positions: map<KeyframeSlot, Vec2>, first: Vec2, second: Vec2)
    requires NudgeEach(animation, slots, positions, first).1.None?
    ensures NudgeEach(NudgeEach(animation, slots, positions, first).0, slots, positions, second)
            == NudgeEach(animation, slots, positions, second)
  {
    var once := NudgeEach(animation, slots, positions, first).0;
    NudgeEachSpec(animation, slots, positions, first);
    NudgeEachSpec(once, slots, positions, second);
    NudgeEachSpec(animation, slots, positions, second);
    var twice := NudgeEach(once, slots, positions, second).0;
    var direct := NudgeEach(animation, slots, positions, second).0;
    forall s | Timeline.SlotExists(twice, s) ensures At(twice, s) == At(direct, s) {
      if s in slots {
        NudgeKeyframeTwice(At(animation, s), positions[s].Plus(first), positions[s].Plus(second));
      }
    }
    SameSlotsSame(twice, direct);
  }

  /** The snapshot of a keyframe nudge: the offset of every keyframe of the animation. */
  function Offsets(animation: Animation): (r: map<KeyframeSlot, Vec2>)
    ensures forall s :: s in r <==> Timeline.SlotExists(animation, s)
    ensures forall s :: s in r ==> r[s] == At(animation, s).offset
  {
    map d, i: nat | d in animation.sequences && i < |animation.sequences[d].keyframes|
      :: (d, i) := animation.sequences[d].keyframes[i].offset
  }

  /**
   * What `begin_nudge_keyframe` leaves: the nudged keyframe selected (alone,
   * if it was not selected already) and the offsets of every keyframe of the
   * current animation in the snapshot; without a current animation, that
   * error and no change.
   */
  function KeyframeNudgeBegun(sheet: Sheet, view: View, t: Transient, slot: KeyframeSlot)
    : (r: (View, Transient, Result<(), DocumentError>))
    ensures WorkbenchAnimation(sheet, view).Err? ==> r == (view, t, Err(WorkbenchAnimation(sheet, view).error))
    ensures WorkbenchAnimation(sheet, view).Ok? ==>
      var (name, animation) := WorkbenchAnimation(sheet, view).value;
      var k := KeyframeRef(name, slot.0, slot.1);
      && r.2 == Ok(())
      && k in r.0.selection.keyframes.selected
      && (k in view.selection.keyframes.selected ==> r.0 == view)
      && (k !in view.selection.keyframes.selected ==> r.0 == SelectKeyframesOnly(view, [k]))
      && r.1 == t.(keyframeNudge := Some(KeyframeNudge(slot, Offsets(animation))))
  {
    match WorkbenchAnimation(sheet, view)
    case Err(e) => (view, t, Err(e))
    case Ok((name, animation)) =>
      var k := KeyframeRef(name, slot.0, slot.1);
      var after := if k in view.selection.keyframes.selected then view else SelectKeyframesOnly(view, [k]);
      (after, t.(keyframeNudge := Some(KeyframeNudge(slot, Offsets(animation)))), Ok(()))
  }

  /** `Document::begin_nudge_keyframe`. */
  method BeginNudgeKeyframe(doc: Document, direction: Direction, index: nat) returns (r: Result<(), DocumentError>)
    modifies doc
    ensures (doc.view, doc.transient, r) == KeyframeNudgeBegun(old(doc.sheet), old(doc.view), old(doc.transient), (direction, index))
    ensures doc.sheet == old(doc.sheet) && doc.persistent == old(doc.persistent) && doc.KeepsHistory()
  {
    var begun := KeyframeNudgeBegun(doc.sheet, doc.view, doc.transient, (direction, index));
    doc.view, doc.transient := begun.0, begun.1;
    r := begun.2;
  }

  /**
   * `Document::update_nudge_keyframe`, visiting the selected keyframes in
   * the order `order` lists them: each is moved to its snapshot offset plus
   * the axis-locked displacement divided by the zoom, rounded down.
   */
  function KeyframesNudged(sheet: Sheet, view: View, nudge: Option<KeyframeNudge>, displacement: Vec2, bothAxis: bool,
                           order: seq<KeyframeRef>): (r: Outcome)
    ensures r.view == view
    ensures nudge.None? ==> r == Outcome(sheet, view, Err(NotNudgingKeyframe))
    ensures nudge.Some? && order == [] ==> r == Outcome(sheet, view, Ok(()))
    ensures nudge.Some? && order != [] && SlotOf(order[0]) !in nudge.value.originalPositions ==>
      r == Outcome(sheet, view, Err(MissingKeyframePositionData))
    ensures nudge.Some? && order != [] && SlotOf(order[0]) in nudge.value.originalPositions && WorkbenchAnimation(sheet, view).Err? ==>
      r == Outcome(sheet, view, Err(WorkbenchAnimation(sheet, view).error))
  {
    if nudge.None? then Outcome(sheet, view, Err(NotNudgingKeyframe))
    else if order == [] then Outcome(sheet, view, Ok(()))
    else if SlotOf(order[0]) !in nudge.value.originalPositions then Outcome(sheet, view, Err(MissingKeyframePositionData))
    else match WorkbenchAnimation(sheet, view)
      case Err(e) => Outcome(sheet, view, Err(e))
      case Ok((name, animation)) =>
        var shift := Unzoomed(AxisLocked(displacement, bothAxis), WorkbenchZoom(view));
        var (after, failure) := NudgeEach(animation, RefSlots(order), nudge.value.originalPositions, shift);
        Outcome(sheet.(animations := sheet.animations[name := after]), view, if failure.None? then Ok(()) else Err(failure.value))
  }

  /**
   * With a nudge under way and a current animation, a keyframe nudge
   * succeeds exactly when every listed keyframe is in the snapshot and in
   * the animation; it then moves each of them to its snapshot offset plus
   * the shift, and nothing else in the sheet changes.
   */
  lemma KeyframeNudgeEffect(sheet: Sheet, view: View, nudge: Option<KeyframeNudge>, displacement: Vec2, bothAxis: bool,
                            order: seq<KeyframeRef>)
    requires nudge.Some? && order != [] && WorkbenchAnimation(sheet, view).Ok?
    ensures var r := KeyframesNudged(sheet, view, nudge, displacement, bothAxis, order);
      var (name, animation) := WorkbenchAnimation(sheet, view).value;
      var positions := nudge.value.originalPositions;
      var shift := Unzoomed(AxisLocked(displacement, bothAxis), WorkbenchZoom(view));
      && (r.result.Ok? <==> forall s :: s in RefSlots(order) ==> s in positions && Timeline.SlotExists(animation, s))
      && (r.result.Ok? ==>
            && name in r.sheet.animations
            && r.sheet == sheet.(animations := sheet.animations[name := r.sheet.animations[name]])
            && OffsetsNudged(animation, r.sheet.animations[name], RefSlots(order), positions, shift))
  {
    var (name, animation) := WorkbenchAnimation(sheet, view).value;
    var shift := Unzoomed(AxisLocked(displacement, bothAxis), WorkbenchZoom(view));
    NudgeEachSpec(animation, RefSlots(order), nudge.value.originalPositions, shift);
    assert RefSlots(order)[0] == SlotOf(order[0]);
  }

  /** Two lists of the same references list the same slots. */
  lemma RefSlotsMembers(one: seq<KeyframeRef>, other: seq<KeyframeRef>)
    requires forall k :: k in one <==> k in other
    ensures forall s :: s in RefSlots(one) <==> s in RefSlots(other)
  {
    forall s | s in RefSlots(one) ensures s in RefSlots(other) {
      var j :| 0 <= j < |one| && RefSlots(one)[j] == s;
      assert one[j] in other;
      var k :| 0 <= k < |other| && other[k] == one[j];
      assert RefSlots(other)[k] == s;
    }
    forall s | s in RefSlots(other) ensures s in RefSlots(one) {
      var j :| 0 <= j < |other| && RefSlots(other)[j] == s;
      assert other[j] in one;
      var k :| 0 <= k < |one| && one[k] == other[j];
      assert RefSlots(one)[k] == s;
    }
  }

  /**
   * The order in which the selected keyframes are visited, which the source
   * leaves to a hash set, does not matter to a nudge that succeeds.
   */
  lemma KeyframeNudgeOrderIrrelevant(sheet: Sheet, view: View, nudge: Option<KeyframeNudge>, displacement: Vec2, bothAxis: bool,
                                     one: seq<KeyframeRef>, other: seq<KeyframeRef>)
    requires |one| == |other| && forall k :: k in one <==> k in other
    requires KeyframesNudged(sheet, view, nudge, displacement, bothAxis, one).result.Ok?
    ensures KeyframesNudged(sheet, view, nudge, displacement, bothAxis, other)
            == KeyframesNudged(sheet, view, nudge, displacement, bothAxis, one)
  {
    if one != [] {
      assert one[0] in other;
      var (name, animation) := WorkbenchAnimation(sheet, view).value;
      var positions := nudge.value.originalPositions;
      var shift := Unzoomed(AxisLocked(displacement, bothAxis), WorkbenchZoom(view));
      RefSlotsMembers(one, other);
      NudgeEachSpec(animation, RefSlots(one), positions, shift);
      assert RefSlots(one)[0] == SlotOf(one[0]);
      assert RefSlots(other)[0] == SlotOf(other[0]);
      assert SlotOf(other[0]) in positions;
      NudgeOrderIrrelevant(animation, RefSlots(one), RefSlots(other), positions, shift);
    }
  }

  /**
   * Keyframe nudges never accumulate: after a successful update, the next
   * one from the same snapshot gives what it would have given on its own.
   */
  lemma KeyframeNudgeDoesNotAccumulate(sheet: Sheet, view: View, nudge: Option<KeyframeNudge>, order: seq<KeyframeRef>,
                                       first: Vec2, firstBothAxis: bool, second: Vec2, secondBothAxis: bool)
    ensures var once := KeyframesNudged(sheet, view, nudge, first, firstBothAxis, order);
      once.result.Ok? ==>
        KeyframesNudged(once.sheet, view, nudge, second, secondBothAxis, order)
        == KeyframesNudged(sheet, view, nudge, second, secondBothAxis, order)
  {
    var once := KeyframesNudged(sheet, view, nudge, first, firstBothAxis, order);
    if once.result.Ok? && order != [] {
      var (name, animation) := WorkbenchAnimation(sheet, view).value;
      var positions := nudge.value.originalPositions;
      var s1 := Unzoomed(AxisLocked(first, firstBothAxis), WorkbenchZoom(view));
      var s2 := Unzoomed(AxisLocked(second, secondBothAxis), WorkbenchZoom(view));
      var after := NudgeEach(animation, RefSlots(order), positions, s1).0;
      assert WorkbenchAnimation(once.sheet, view) == Ok((name, after));
      NudgeEachTwice(animation, RefSlots(order), positions, s1, s2);
      ReplacedTwice(sheet.animations, name, after, NudgeEach(animation, RefSlots(order), positions, s2).0);
    }
  }

  /** The case of the source's tests: a nudge by (5, 10) locked to one axis at zoom 1 moves 10 down. */
  lemma AxisLockedNudgeExample()
    ensures Unzoomed(AxisLocked(Vec2(5, 10), false), 1) == Vec2(0, 10)
  {
    UnzoomedAtOne(Vec2(0, 10));
  }

  /** Lists the members of a set, in an order of its own choosing. */
  method Enumerate<T>(s: set<T>) returns (order: seq<T>)
    ensures forall x :: x in order <==> x in s
    ensures |order| == |s|
  {
    order := [];
    var rest := s;
    while rest != {}
      invariant rest <= s
      invariant forall x :: x in s <==> x in order || x in rest
      invariant forall x :: x in order ==> x !in rest
      invariant |order| + |rest| == |s|
      decreases |rest|
    {
      var x :| x in rest;
      order := order + [x];
      rest := rest - {x};
    }
  }

  /** The nudge loop as the source runs it, over the listed references in turn. */
  method NudgeLoop(animation: Animation, order: seq<KeyframeRef>, positions: map<KeyframeSlot, Vec2>, shift: Vec2)
    returns (after: Animation, failure: Option<DocumentError>)
    ensures (after, failure) == NudgeEach(animation, RefSlots(order), positions, shift)
  {
    after := animation;
    var k := 0;
    while k < |order|
      invariant 0 <= k <= |order|
      invariant NudgeEach(after, RefSlots(order)[k..], positions, shift) == NudgeEach(animation, RefSlots(order), positions, shift)
    {
      var s := SlotOf(order[k]);
      assert RefSlots(order)[k..][0] == s;
      assert RefSlots(order)[k..][1..] == RefSlots(order)[k + 1..];
      if s !in positions {
        return after, Some(MissingKeyframePositionData);
      }
      if s.0 !in after.sequences {
        return after, Some(SequenceNotInAnimation(s.0));
      }
      if s.1 >= |after.sequences[s.0].keyframes| {
        return after, Some(NoKeyframeAtIndex(s.1));
      }
      after := WithSlot(after, s, NudgeKeyframe(At(after, s), positions[s].Plus(shift)));
      k := k + 1;
    }
    failure := None;
  }

  /** The computation of `update_nudge_keyframe` on values, visiting the references in the order `order` lists them. */
  method NudgeKeyframes(sheet: Sheet, view: View, nudge: Option<KeyframeNudge>, displacement: Vec2, bothAxis: bool,
                        order: seq<KeyframeRef>) returns (r: Outcome)
    ensures r == KeyframesNudged(sheet, view, nudge, displacement, bothAxis, order)
  {
    if nudge.None? {
      return Outcome(sheet, view, Err(NotNudgingKeyframe));
    }
    if order == [] {
      return Outcome(sheet, view, Ok(()));
    }
    if SlotOf(order[0]) !in nudge.value.originalPositions {
      return Outcome(sheet, view, Err(MissingKeyframePositionData));
    }
    var w := WorkbenchAnimation(sheet, view);
    if w.Err? {
      return Outcome(sheet, view, Err(w.error));
    }
    var (name, animation) := w.value;
    var shift := Unzoomed(AxisLocked(displacement, bothAxis), WorkbenchZoom(view));
    var after, failure := NudgeLoop(animation, order, nudge.value.originalPositions, shift);
    r := Outcome(sheet.(animations := sheet.animations[name := after]), view, if failure.None? then Ok(()) else Err(failure.value));
  }

  /**
   * `Document::update_nudge_keyframe`: the selected keyframes are visited in
   * some order; by `KeyframeNudgeOrderIrrelevant` a successful nudge does not
   * depend on which.
   */
  method UpdateNudgeKeyframe(doc: Document, displacement: Vec2, bothAxis: bool) returns (r: Result<(), DocumentError>)
    modifies doc
    ensures exists order: seq<KeyframeRef> ::
      && |order| == |old(doc.view).selection.keyframes.selected|
      && (forall k :: k in order <==> k in old(doc.view).selection.keyframes.selected)
      && Outcome(doc.sheet, doc.view, r)
         == KeyframesNudged(old(doc.sheet), old(doc.view), old(doc.transient.keyframeNudge), displacement, bothAxis, order)
    ensures doc.transient == old(doc.transient) && doc.persistent == old(doc.persistent) && doc.KeepsHistory()
  {
    var order := Enumerate(doc.view.selection.keyframes.selected);
    var o := NudgeKeyframes(doc.sheet, doc.view, doc.transient.keyframeNudge, displacement, bothAxis, order);
    doc.sheet := o.sheet;
    r := o.result;
  }

  /** `Document::end_nudge_keyframe`. */
  method EndNudgeKeyframe(doc: Document)
    modifies doc
    ensures doc.transient == old(doc.transient).(keyframeNudge := None)
    ensures doc.sheet == old(doc.sheet) && doc.view == old(doc.view)
    ensures doc.persistent == old(doc.persistent) && doc.KeepsHistory()
  {
    doc.transient := doc.transient.(keyframeNudge := None);
  }
}
