/**
 * The multi-selection of the oldest Rust engine: one selection per kind of
 * item, each a set with a pivot. Unlike the later selections there is no
 * separate "last interacted" item, a click on an item missing from the pool
 * is ignored, and the shift range is cut straight out of the pool by index.
 */
module LegacySelections {
  import opened Wrappers
  import opened Sheets
  import Selections

  datatype IndexedSelection<T> = IndexedSelection(pivot: Option<T>, selected: set<T>)

  function Cleared<T>(): IndexedSelection<T> {
    IndexedSelection(None, {})
  }

  function Elements<T(!new)>(items: seq<T>): (r: set<T>)
    ensures forall x :: x in r <==> x in items
  {
    set x | x in items
  }

  /** `MultiSelectionData::new`: exactly `items`, pivoting on the last one. */
  function Made<T(!new)>(items: seq<T>): (r: IndexedSelection<T>)
    ensures forall x :: x in r.selected <==> x in items
    ensures r.pivot == if items == [] then None else Some(items[|items| - 1])
  {
    IndexedSelection(if items == [] then None else Some(items[|items| - 1]), Elements(items))
  }

  /** The pool slice between two positions, both included. */
  function Span<T(!new)>(pool: seq<T>, a: nat, b: nat): (r: set<T>)
    requires a < |pool| && b < |pool|
    ensures forall x :: x in r <==> exists k :: Selections.Min(a, b) <= k <= Selections.Max(a, b) && pool[k] == x
  {
    var lo := Selections.Min(a, b);
    var slice := pool[lo..Selections.Max(a, b) + 1];
    Elements(slice)
  }

  /**
   * `MultiSelectionData::alter` against the ordered pool of every selectable
   * item: nothing happens when the item is not in the pool; otherwise a plain
   * click selects it alone, ctrl toggles it, shift selects the span from the
   * pivot (position 0 when the pivot is unknown), and shift+ctrl adds that span
   * when the pivot is selected and removes it otherwise. Ctrl moves the pivot
   * to the item.
   */
  function Alter<T(==,!new)>(s: IndexedSelection<T>, item: T, pool: seq<T>, shift: bool, ctrl: bool): (r: IndexedSelection<T>)
    ensures item !in pool ==> r == s
    ensures item in pool && !shift && !ctrl ==> r == IndexedSelection(Some(item), {item})
    ensures item in pool && !shift && ctrl ==>
      r.pivot == Some(item) && forall x :: x in r.selected <==> (if x == item then x !in s.selected else x in s.selected)
    ensures item in pool && shift ==>
      var span := Span(pool, Selections.PositionOrFirst(pool, s.pivot), Selections.IndexOf(pool, item).value);
      && r.pivot == (if ctrl then Some(item) else s.pivot)
      && (!ctrl ==> r.selected == span)
      && (ctrl && s.pivot.Some? && s.pivot.value in s.selected ==> r.selected == s.selected + span)
      && (ctrl && !(s.pivot.Some? && s.pivot.value in s.selected) ==> r.selected == s.selected - span)
  {
    match Selections.IndexOf(pool, item)
    case None => s
    case Some(itemIndex) =>
      var altered :=
        if shift then
          var span := Span(pool, Selections.PositionOrFirst(pool, s.pivot), itemIndex);
          if ctrl then
            if s.pivot.Some? && s.pivot.value in s.selected then s.(selected := s.selected + span)
            else s.(selected := s.selected - span)
          else s.(selected := span)
        else if ctrl then
          s.(selected := if item in s.selected then s.selected - {item} else s.selected + {item})
        else Made([item]);
      if ctrl then altered.(pivot := Some(item)) else altered
  }

  /** `remove`: the item leaves the selected set; the pivot stays. */
  function Removed<T(!new)>(s: IndexedSelection<T>, item: T): (r: IndexedSelection<T>)
    ensures r.pivot == s.pivot && item !in r.selected
    ensures forall x :: x != item ==> (x in r.selected <==> x in s.selected)
  {
    s.(selected := s.selected - {item})
  }

  /** The keyframe identity of this module's revision: animation name, direction and index. */
  type KeyframeId = (string, Direction, nat)

  /**
   * One selection per kind of item. The keyframe key is a parameter: it is
   * `KeyframeId` here, and the document of the same engine keys keyframes by
   * direction and index alone.
   */
  datatype MultiSelection<K> = MultiSelection(
    frames: IndexedSelection<Path>,
    animations: IndexedSelection<string>,
    hitboxes: IndexedSelection<string>,
    keyframes: IndexedSelection<K>)

  function EmptySelection<K>(): MultiSelection<K> {
    MultiSelection(Cleared(), Cleared(), Cleared(), Cleared())
  }

  /** A click on an item, with the pool of items of its kind. */
  datatype MultiSelectionEdit<K> =
    | FramesEdit(frame: Path, framePool: seq<Path>)
    | AnimationsEdit(animation: string, animationPool: seq<string>)
    | HitboxesEdit(hitbox: string, hitboxPool: seq<string>)
    | KeyframesEdit(keyframe: K, keyframePool: seq<K>)

  /** `MultiSelection::alter`: the edited kind is altered and the other three are cleared. */
  function Altered<K(==,!new)>(m: MultiSelection<K>, edit: MultiSelectionEdit<K>, shift: bool, ctrl: bool): (r: MultiSelection<K>)
    ensures !edit.FramesEdit? ==> r.frames == Cleared()
    ensures !edit.AnimationsEdit? ==> r.animations == Cleared()
    ensures !edit.HitboxesEdit? ==> r.hitboxes == Cleared()
    ensures !edit.KeyframesEdit? ==> r.keyframes == Cleared()
    ensures edit.FramesEdit? ==> r.frames == Alter(m.frames, edit.frame, edit.framePool, shift, ctrl)
    ensures edit.AnimationsEdit? ==> r.animations == Alter(m.animations, edit.animation, edit.animationPool, shift, ctrl)
    ensures edit.HitboxesEdit? ==> r.hitboxes == Alter(m.hitboxes, edit.hitbox, edit.hitboxPool, shift, ctrl)
    ensures edit.KeyframesEdit? ==> r.keyframes == Alter(m.keyframes, edit.keyframe, edit.keyframePool, shift, ctrl)
  {
    match edit
    case FramesEdit(item, pool) => EmptySelection().(frames := Alter(m.frames, item, pool, shift, ctrl))
    case AnimationsEdit(item, pool) => EmptySelection().(animations := Alter(m.animations, item, pool, shift, ctrl))
    case HitboxesEdit(item, pool) => EmptySelection().(hitboxes := Alter(m.hitboxes, item, pool, shift, ctrl))
    case KeyframesEdit(item, pool) => EmptySelection().(keyframes := Alter(m.keyframes, item, pool, shift, ctrl))
  }

  /** `select_frame`, `select_animation`, `select_keyframe`: clear everything, then select one item. */
  function FrameSelected<K>(path: Path): (r: MultiSelection<K>)
    ensures r.frames.selected == {path} && r.animations == Cleared() && r.hitboxes == Cleared() && r.keyframes == Cleared()
  {
    EmptySelection().(frames := Made([path]))
  }

  function AnimationSelected<K>(name: string): (r: MultiSelection<K>)
    ensures r.animations.selected == {name} && r.frames == Cleared() && r.hitboxes == Cleared() && r.keyframes == Cleared()
  {
    EmptySelection().(animations := Made([name]))
  }

  function KeyframeSelected<K(!new)>(key: K): (r: MultiSelection<K>)
    ensures r.keyframes.selected == {key}
    ensures r.frames == Cleared() && r.animations == Cleared() && r.hitboxes == Cleared()
  {
    EmptySelection().(keyframes := Made([key]))
  }

  // ----- The scenarios of the unit tests, on the pool 0..=20 -----

  const Pool: seq<int> := seq(21, i => i)

  lemma PoolSpan(a: nat, b: nat)
    requires a < 21 && b < 21
    ensures forall x :: x in Span(Pool, a, b) <==> Selections.Min(a, b) <= x <= Selections.Max(a, b)
  {
    forall x | Selections.Min(a, b) <= x <= Selections.Max(a, b)
      ensures x in Span(Pool, a, b)
    {
      assert Pool[x] == x;
    }
  }

  lemma PoolIndex(x: nat)
    requires x < 21
    ensures Selections.IndexOf(Pool, x) == Some(x)
  {
    assert Pool[x] == x;
  }

  /**
   * Shift-click 5 from 2, ctrl-click 10, then shift+ctrl-click 15: the
   * selection is 2..=5 together with 10..=15, pivoting on 15.
   */
  lemma MultipleRanges()
    ensures var s0 := Made([2]);
            var s1 := Alter(s0, 5, Pool, true, false);
            var s2 := Alter(s1, 10, Pool, false, true);
            var s3 := Alter(s2, 15, Pool, true, true);
            && s3.pivot == Some(15)
            && forall x :: x in s3.selected <==> 2 <= x <= 5 || 10 <= x <= 15
  {
    PoolIndex(2); PoolIndex(5); PoolIndex(10); PoolIndex(15);
    PoolSpan(2, 5);
    PoolSpan(10, 15);
  }

  /** ... and a plain shift-click on 12 afterwards leaves only 12..=15, spanned from the pivot 15. */
  lemma RevertToSingleRange()
    ensures var s0 := Made([2]);
            var s1 := Alter(s0, 5, Pool, true, false);
            var s2 := Alter(s1, 10, Pool, false, true);
            var s3 := Alter(s2, 15, Pool, true, true);
            forall x :: x in Alter(s3, 12, Pool, true, false).selected <==> 12 <= x <= 15
  {
    MultipleRanges();
    PoolIndex(12); PoolIndex(15);
    PoolSpan(15, 12);
  }

  /**
   * With 2..=5 and 10..=18 selected, ctrl-click 16 off, then shift+ctrl-click
   * 12 from the now unselected pivot 16: 12..=16 is removed, splitting the
   * second range in two.
   */
  lemma RemoveRangeFromUnselectedPivot(s: IndexedSelection<int>)
    requires forall x :: x in s.selected <==> 2 <= x <= 5 || 10 <= x <= 18
    ensures var t := Alter(s, 16, Pool, false, true);
            forall x :: x in Alter(t, 12, Pool, true, true).selected <==> 2 <= x <= 5 || 10 <= x <= 11 || 17 <= x <= 18
  {
    PoolIndex(16); PoolIndex(12);
    PoolSpan(16, 12);
  }
}
