/**
 * Multi-selection as the editor's lists and timeline offer it: a plain click
 * selects one item, ctrl-click toggles an item, shift-click selects the range
 * between the pivot and the clicked item, and shift+ctrl adds or removes that
 * range depending on whether the pivot is selected.
 */
module Selections {
  import opened Wrappers
  import opened Sheets

  datatype Selection<T> = Selection(pivot: Option<T>, lastInteracted: Option<T>, selected: set<T>)

  function EmptySelection<T(==,!new)>(): Selection<T> {
    Selection(None, None, {})
  }

  /** `Selection::new`: select exactly `items`; pivot and last interaction are the last one. */
  function Only<T(==,!new)>(items: seq<T>): (s: Selection<T>)
    ensures forall x :: x in s.selected <==> x in items
    ensures items == [] ==> s == EmptySelection()
    ensures items != [] ==> s.pivot == Some(items[|items| - 1]) && s.lastInteracted == s.pivot
  {
    var last := if items == [] then None else Some(items[|items| - 1]);
    Selection(last, last, set x | x in items)
  }

  /** `Selection::toggle`. */
  function Toggle<T(==,!new)>(s: Selection<T>, item: T): (r: Selection<T>)
    ensures item in r.selected <==> item !in s.selected
    ensures forall x :: x != item ==> (x in r.selected <==> x in s.selected)
    ensures r.pivot == s.pivot && r.lastInteracted == s.lastInteracted
  {
    if item in s.selected then s.(selected := s.selected - {item}) else s.(selected := s.selected + {item})
  }

  /**
   * `Selection::alter`. `affected` is what the item pool's `range` returns for
   * the current pivot and the interacted item; it is only consulted when
   * shift is held.
   */
  function Alter<T(==,!new)>(s: Selection<T>, item: T, affected: seq<T>, shift: bool, ctrl: bool): (r: Selection<T>)
    ensures r.lastInteracted == Some(item)
    ensures r.pivot == if ctrl || (!shift && !ctrl) then Some(item) else s.pivot
    ensures !shift && !ctrl ==> r.selected == {item}
    ensures !shift && ctrl ==> forall x :: x in r.selected <==> (if x == item then x !in s.selected else x in s.selected)
    ensures shift && !ctrl ==> forall x :: x in r.selected <==> x in affected
    ensures shift && ctrl && s.pivot.Some? && s.pivot.value in s.selected ==>
      forall x :: x in r.selected <==> x in s.selected || x in affected
    ensures shift && ctrl && !(s.pivot.Some? && s.pivot.value in s.selected) ==>
      forall x :: x in r.selected <==> x in s.selected && x !in affected
  {
    var altered :=
      if shift then
        if ctrl then
          if s.pivot.Some? && s.pivot.value in s.selected then s.(selected := s.selected + set x | x in affected)
          else s.(selected := s.selected - set x | x in affected)
        else s.(selected := set x | x in affected)
      else if ctrl then Toggle(s, item)
      else Only([item]);
    var pivoted := if ctrl then altered.(pivot := Some(item)) else altered;
    pivoted.(lastInteracted := Some(item))
  }

  /** Two ctrl-clicks on the same item give back the selected set. */
  lemma CtrlClickTwice<T(!new)>(s: Selection<T>, item: T, pool: seq<T>)
    ensures Alter(Alter(s, item, pool, false, true), item, pool, false, true).selected == s.selected
  {
    var r := Alter(Alter(s, item, pool, false, true), item, pool, false, true);
    assert forall x :: x in r.selected <==> x in s.selected;
  }

  // ----- Item pools -----

  /** `position`: the index of the first occurrence of `x`. */
  function IndexOf<T(==,!new)>(pool: seq<T>, x: T): (r: Option<nat>)
    ensures r.None? <==> x !in pool
    ensures r.Some? ==> r.value < |pool| && pool[r.value] == x && forall j :: 0 <= j < r.value ==> pool[j] != x
  {
    if |pool| == 0 then None
    else if pool[0] == x then Some(0)
    else match IndexOf(pool[1..], x)
      case None => None
      case Some(i) => Some(i + 1)
  }

  /** The position of an item in the pool, or 0 when it is absent (as `ItemPool::range` does). */
  function PositionOrFirst<T(==,!new)>(pool: seq<T>, x: Option<T>): (r: nat)
    ensures |pool| > 0 ==> r < |pool|
    ensures x.Some? && x.value in pool ==> pool[r] == x.value
    ensures (x.None? || x.value !in pool) ==> r == 0
  {
    if x.Some? then IndexOf(pool, x.value).UnwrapOr(0) else 0
  }

  /**
   * `ItemPool::range` over an ordered list: the inclusive slice between the
   * positions of `from` and `to`, where an endpoint missing from the pool counts
   * as position 0. Slicing an empty pool panics in the source, hence the
   * precondition.
   */
  function ListRange<T(==,!new)>(pool: seq<T>, from: Option<T>, to: T): (r: seq<T>)
    requires |pool| > 0
    ensures var f, t := PositionOrFirst(pool, from), PositionOrFirst(pool, Some(to));
      |r| == Max(f, t) - Min(f, t) + 1 && forall k :: 0 <= k < |r| ==> r[k] == pool[Min(f, t) + k]
  {
    var f := PositionOrFirst(pool, from);
    var t := PositionOrFirst(pool, Some(to));
    pool[Min(f, t)..Max(f, t) + 1]
  }

  /**
   * The range holds both of its endpoints, with the first item of the pool
   * standing in for a `from` that is absent.
   */
  lemma ListRangeHoldsEnds<T(!new)>(pool: seq<T>, from: Option<T>, to: T)
    requires |pool| > 0
    ensures to in pool ==> to in ListRange(pool, from, to)
    ensures from.Some? && from.value in pool ==> from.value in ListRange(pool, from, to)
    ensures (from.None? || from.value !in pool) ==> pool[0] in ListRange(pool, from, to)
  {
    var f := PositionOrFirst(pool, from);
    var t := PositionOrFirst(pool, Some(to));
    var r := ListRange(pool, from, to);
    assert r[f - Min(f, t)] == pool[f];
    assert r[t - Min(f, t)] == pool[t];
  }

  /**
   * `ItemPool1D::offset_from`: the item `delta` places after `from`, nothing when
   * `from` is absent or the target falls outside the pool.
   */
  function OffsetFrom<T(==,!new)>(pool: seq<T>, from: Option<T>, delta: int): (r: Option<T>)
    ensures from.None? || from.value !in pool ==> r.None?
    ensures from.Some? && from.value in pool ==>
      var i := IndexOf(pool, from.value).value;
      (r.Some? <==> 0 <= i + delta < |pool|) && (r.Some? ==> r.value == pool[i + delta])
  {
    if from.None? then None
    else match IndexOf(pool, from.value)
      case None => None
      case Some(i) => if 0 <= i + delta < |pool| then Some(pool[i + delta]) else None
  }

  datatype BrowseDirection = BrowseUp | BrowseDown | BrowseLeft | BrowseRight

  datatype ListMode = Linear | Grid4xN

  /** `BrowseDirection::as_vec2`. */
  function AsVec2(direction: BrowseDirection): Vec2 {
    match direction
    case BrowseUp => Vec2(0, -1)
    case BrowseDown => Vec2(0, 1)
    case BrowseLeft => Vec2(-1, 0)
    case BrowseRight => Vec2(1, 0)
  }

  /**
   * `BrowseDirection::as_list_offset`: a linear list only moves up and down;
   * a grid four items wide moves one item sideways or one row (4 items) vertically.
   */
  function AsListOffset(direction: BrowseDirection, mode: ListMode): (r: int)
    ensures mode == Linear ==> r == match direction
      case BrowseUp => -1 case BrowseDown => 1 case BrowseLeft => 0 case BrowseRight => 0
    ensures mode == Grid4xN ==> r == match direction
      case BrowseUp => -4 case BrowseDown => 4 case BrowseLeft => -1 case BrowseRight => 1
  {
    var v := AsVec2(direction);
    match mode
    case Linear => v.y
    case Grid4xN => v.x + 4 * v.y
  }

  // ----- Keyframe and hitbox identities -----

  datatype KeyframeRef = KeyframeRef(animation: string, direction: Direction, index: nat)

  datatype HitboxRef = HitboxRef(animation: string, direction: Direction, index: nat, name: string)

  /** `Default` for a keyframe identity: empty animation name, first direction, index 0. */
  const DefaultKeyframeRef: KeyframeRef := KeyframeRef("", East, 0)

  function Min(a: nat, b: nat): nat {
    if a <= b then a else b
  }

  function Max(a: nat, b: nat): nat {
    if a <= b then b else a
  }

  function SaturatingSub(a: nat, b: nat): nat {
    if a >= b then a - b else 0
  }

  /** The time range of keyframe `index` of the animation's `direction` sequence, or `0..0`. */
  function RangeOrEmpty(animation: Animation, direction: Direction, index: nat): TimeRange {
    if direction in animation.sequences && index < |TimeRanges(animation.sequences[direction])|
    then TimeRanges(animation.sequences[direction])[index]
    else TimeRange(0, 0)
  }

  /**
   * Whether a keyframe occupying `range` belongs to a shift-selection spanning
   * `affected`: it overlaps the span by at least half its length (rounded
   * down), or the overlap is the whole span.
   */
  predicate InTimeRange(affected: TimeRange, range: TimeRange) {
    var lo := Max(affected.start, range.start);
    var hi := Min(affected.end, range.end);
    SaturatingSub(hi, lo) >= SaturatingSub(range.end, range.start) / 2
    || TimeRange(lo, hi) == affected
  }

  /** The span of time covered by both endpoints' keyframes. */
  function AffectedTimes(animation: Animation, from: KeyframeRef, to: KeyframeRef): TimeRange {
    var fromRange := RangeOrEmpty(animation, from.direction, from.index);
    var toRange := RangeOrEmpty(animation, to.direction, to.index);
    TimeRange(Min(fromRange.start, toRange.start), Max(fromRange.end, toRange.end))
  }

  /** The keyframes of one sequence that fall in a shift-selection, tagged with `name`. */
  function SequenceHits(name: string, d: Direction, ranges: seq<TimeRange>, affected: TimeRange, i: nat): (r: seq<KeyframeRef>)
    requires i <= |ranges|
    ensures forall k :: k in r <==> k.animation == name && k.direction == d && i <= k.index < |ranges|
                                     && InTimeRange(affected, ranges[k.index])
    decreases |ranges| - i
  {
    if i == |ranges| then []
    else
      var rest := SequenceHits(name, d, ranges, affected, i + 1);
      if InTimeRange(affected, ranges[i]) then [KeyframeRef(name, d, i)] + rest else rest
  }

  /** The hits over the directions `AllDirections[k..]`, in direction order. */
  function DirectionHits(animation: Animation, name: string, lo: Direction, hi: Direction, affected: TimeRange, k: nat)
    : (r: seq<KeyframeRef>)
    requires k <= |AllDirections|
    ensures forall x :: x in r <==>
      && x.animation == name && k <= DirectionRank(x.direction)
      && DirectionLe(lo, x.direction) && DirectionLe(x.direction, hi)
      && x.direction in animation.sequences
      && x.index < |TimeRanges(animation.sequences[x.direction])|
      && InTimeRange(affected, TimeRanges(animation.sequences[x.direction])[x.index])
    decreases |AllDirections| - k
  {
    if k == |AllDirections| then []
    else
      var d := AllDirections[k];
      var rest := DirectionHits(animation, name, lo, hi, affected, k + 1);
      assert DirectionRank(d) == k;
      if d in animation.sequences && DirectionLe(lo, d) && DirectionLe(d, hi) then
        SequenceHits(name, d, TimeRanges(animation.sequences[d]), affected, 0) + rest
      else rest
  }

  /**
   * `ItemPool::range` for the keyframes of an animation, exactly as written: a
   * pivot outside the clicked keyframe's animation (or none) is replaced by the
   * default identity, and the result is tagged with that identity's animation
   * name, which is then the empty string.
   */
  function KeyframeRangeAsWritten(animation: Animation, from: Option<KeyframeRef>, to: KeyframeRef): seq<KeyframeRef> {
    var f := if from.Some? && from.value.animation == to.animation then from.value else DefaultKeyframeRef;
    var lo := if DirectionLe(f.direction, to.direction) then f.direction else to.direction;
    var hi := if DirectionLe(f.direction, to.direction) then to.direction else f.direction;
    DirectionHits(animation, f.animation, lo, hi, AffectedTimes(animation, f, to), 0)
  }

  /**
   * The keyframe range as evidently intended: the missing pivot is replaced by
   * the first keyframe of the first direction of the clicked keyframe's own
   * animation, so every keyframe returned belongs to that animation.
   */
  function KeyframeRange(animation: Animation, from: Option<KeyframeRef>, to: KeyframeRef): (r: seq<KeyframeRef>)
    ensures forall x :: x in r ==> x.animation == to.animation
    ensures forall x :: x in r ==>
      x.direction in animation.sequences && x.index < |animation.sequences[x.direction].keyframes|
  {
    var f := if from.Some? && from.value.animation == to.animation then from.value
             else KeyframeRef(to.animation, East, 0);
    var lo := if DirectionLe(f.direction, to.direction) then f.direction else to.direction;
    var hi := if DirectionLe(f.direction, to.direction) then to.direction else f.direction;
    DirectionHits(animation, f.animation, lo, hi, AffectedTimes(animation, f, to), 0)
  }

  /**
   * The range as written is the intended one when the pivot lies in the
   * clicked keyframe's own animation; otherwise it only holds keyframes named
   * after the empty animation, so (for any animation with a real name) none of
   * them is a keyframe of the animation being edited.
   */
  lemma KeyframeRangeAsWrittenCases(animation: Animation, from: Option<KeyframeRef>, to: KeyframeRef)
    ensures from.Some? && from.value.animation == to.animation ==>
      KeyframeRangeAsWritten(animation, from, to) == KeyframeRange(animation, from, to)
    ensures !(from.Some? && from.value.animation == to.animation) ==>
      forall x :: x in KeyframeRangeAsWritten(animation, from, to) ==> x.animation == ""
  {
  }

  /** A concrete case: shift-clicking the only keyframe of "walk" with no pivot. */
  lemma KeyframeRangeCounterexample()
    ensures var a := Animation(map[East := Sequence([NewKeyframe("f")])], false);
      var to := KeyframeRef("walk", East, 0);
      && KeyframeRangeAsWritten(a, None, to) == [KeyframeRef("", East, 0)]
      && KeyframeRange(a, None, to) == [KeyframeRef("walk", East, 0)]
  {
    var a := Animation(map[East := Sequence([NewKeyframe("f")])], false);
    assert TimeRanges(a.sequences[East]) == [TimeRange(0, 100)];
    var to := KeyframeRef("walk", East, 0);
    assert AffectedTimes(a, DefaultKeyframeRef, to) == TimeRange(0, 100);
    assert SequenceHits("", East, [TimeRange(0, 100)], TimeRange(0, 100), 0) == [KeyframeRef("", East, 0)];
    assert SequenceHits("walk", East, [TimeRange(0, 100)], TimeRange(0, 100), 0) == [KeyframeRef("walk", East, 0)];
    assert DirectionHits(a, "", East, East, TimeRange(0, 100), 1) == [];
    assert DirectionHits(a, "walk", East, East, TimeRange(0, 100), 1) == [];
  }

  /** The clicked keyframe is always part of its own range. */
  lemma KeyframeRangeContainsTarget(animation: Animation, from: Option<KeyframeRef>, to: KeyframeRef)
    requires to.direction in animation.sequences && to.index < |animation.sequences[to.direction].keyframes|
    ensures to in KeyframeRange(animation, from, to)
  {
    var f := if from.Some? && from.value.animation == to.animation then from.value
             else KeyframeRef(to.animation, East, 0);
    var affected := AffectedTimes(animation, f, to);
    var range := TimeRanges(animation.sequences[to.direction])[to.index];
    var lo := Max(affected.start, range.start);
    var hi := Min(affected.end, range.end);
    assert lo == range.start && hi == range.end;
    assert InTimeRange(affected, range);
  }

  // ----- Browsing the timeline -----

  /** The first direction among `AllDirections[k..]` (scanning up) whose sequence has a keyframe at `time`. */
  function NextDirectionWithKeyframe(animation: Animation, name: string, time: nat, k: nat): (r: Option<KeyframeRef>)
    requires k <= |AllDirections|
    ensures r.Some? ==> k <= DirectionRank(r.value.direction) && r.value.animation == name
    ensures r.Some? ==> (r.value.direction in animation.sequences
      && Some(r.value.index) == KeyframeIndexAt(animation.sequences[r.value.direction], time))
    ensures r.Some? ==> forall j :: k <= j < DirectionRank(r.value.direction) ==>
      AllDirections[j] !in animation.sequences || animation.sequences[AllDirections[j]].keyframes == []
    ensures r.None? ==> forall j :: k <= j < |AllDirections| ==>
      AllDirections[j] !in animation.sequences || animation.sequences[AllDirections[j]].keyframes == []
    decreases |AllDirections| - k
  {
    if k == |AllDirections| then None
    else
      var d := AllDirections[k];
      if d in animation.sequences && animation.sequences[d].keyframes != [] then
        Some(KeyframeRef(name, d, KeyframeIndexAt(animation.sequences[d], time).value))
      else NextDirectionWithKeyframe(animation, name, time, k + 1)
  }

  /** The last direction among `AllDirections[..k]` (scanning down) whose sequence has a keyframe at `time`. */
  function PreviousDirectionWithKeyframe(animation: Animation, name: string, time: nat, k: nat): (r: Option<KeyframeRef>)
    requires k <= |AllDirections|
    ensures r.Some? ==> DirectionRank(r.value.direction) < k && r.value.animation == name
    ensures r.Some? ==> (r.value.direction in animation.sequences
      && Some(r.value.index) == KeyframeIndexAt(animation.sequences[r.value.direction], time))
    ensures r.Some? ==> forall j :: DirectionRank(r.value.direction) < j < k ==>
      AllDirections[j] !in animation.sequences || animation.sequences[AllDirections[j]].keyframes == []
    ensures r.None? ==> forall j :: 0 <= j < k ==>
      AllDirections[j] !in animation.sequences || animation.sequences[AllDirections[j]].keyframes == []
    decreases k
  {
    if k == 0 then None
    else
      var d := AllDirections[k - 1];
      if d in animation.sequences && animation.sequences[d].keyframes != [] then
        Some(KeyframeRef(name, d, KeyframeIndexAt(animation.sequences[d], time).value))
      else PreviousDirectionWithKeyframe(animation, name, time, k - 1)
  }

  /**
   * `ItemPoolTimeline::offset_from`: left and right step within the sequence;
   * up and down move to the nearest earlier or later direction that has a
   * keyframe at the middle of the current keyframe, without wrapping around.
   */
  function TimelineOffsetFrom(animation: Animation, from: Option<KeyframeRef>, browse: BrowseDirection): (r: Option<KeyframeRef>)
    ensures r.Some? ==> from.Some? && r.value.animation == from.value.animation
    ensures r.Some? ==> (r.value.direction in animation.sequences
      && r.value.index < |animation.sequences[r.value.direction].keyframes|)
    ensures browse == BrowseLeft && r.Some? ==>
      r.value.direction == from.value.direction && r.value.index + 1 == from.value.index
    ensures browse == BrowseRight && r.Some? ==>
      r.value.direction == from.value.direction && r.value.index == from.value.index + 1
    ensures browse == BrowseUp && r.Some? ==> DirectionRank(r.value.direction) < DirectionRank(from.value.direction)
    ensures browse == BrowseDown && r.Some? ==> DirectionRank(r.value.direction) > DirectionRank(from.value.direction)
  {
    if from.None? then None
    else
      var f := from.value;
      if f.direction !in animation.sequences then None
      else
        var ranges := TimeRanges(animation.sequences[f.direction]);
        if f.index >= |ranges| then None
        else
          var reference := (ranges[f.index].start + ranges[f.index].end) / 2;
          match browse
          case BrowseLeft => if f.index > 0 then Some(KeyframeRef(f.animation, f.direction, f.index - 1)) else None
          case BrowseRight =>
            if f.index + 1 < |animation.sequences[f.direction].keyframes|
            then Some(KeyframeRef(f.animation, f.direction, f.index + 1)) else None
          case BrowseUp => PreviousDirectionWithKeyframe(animation, f.animation, reference, DirectionRank(f.direction))
          case BrowseDown => NextDirectionWithKeyframe(animation, f.animation, reference, DirectionRank(f.direction) + 1)
  }

  // ----- The selection of a document -----

  /** One selection per kind of item. */
  datatype SelectionState = SelectionState(
    frames: Selection<Path>,
    animations: Selection<string>,
    hitboxes: Selection<HitboxRef>,
    keyframes: Selection<KeyframeRef>)

  const EmptySelectionState: SelectionState :=
    SelectionState(EmptySelection(), EmptySelection(), EmptySelection(), EmptySelection())
}
