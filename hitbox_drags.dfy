/**
 * The hitbox gestures of the workbench: nudging the selected hitboxes and
 * resizing them by one of their edges or corners. Like the other drags,
 * `begin_*` snapshots every hitbox of the keyframe under the clock and each
 * `update_*` recomputes the selected hitboxes from that snapshot and the
 * total mouse movement so far.
 */
module HitboxDrags {
  import opened Wrappers
  import opened Sheets
  import opened Selections
  import opened Views
  import opened Documents
  import opened Ordering
  import opened KeyframeEdits
  import opened Commands
  import Drags

  // ----- Rounding -----

  lemma HalvesBounds(n: nat, b: nat)
    requires b > 0
    ensures var q := (2 * n + b) / (2 * b); 0 <= q && 2 * (q * b) <= 2 * n + b < 2 * (q * b) + 2 * b
  {
    Drags.DivBounds(2 * n + b, 2 * b);
  }

  /**
   * `a / b` rounded to the nearest integer, halves away from zero, as
   * `f32::round` does.
   */
  function RoundDiv(a: int, b: nat): (q: int)
    requires b > 0
    ensures -(b as int) <= 2 * (a - q * b) <= b
    ensures 2 * (a - q * b) == b ==> a < 0
    ensures 2 * (a - q * b) == -(b as int) ==> a > 0
  {
    if a >= 0 then
      HalvesBounds(a, b);
      (2 * a + b) / (2 * b)
    else
      HalvesBounds(-a, b);
      Drags.NegatedProduct((2 * (-a) + b) / (2 * b), b);
      -((2 * (-a) + b) / (2 * b))
  }

  lemma RoundDivByOne(a: int)
    ensures RoundDiv(a, 1) == a
  {
    var q := RoundDiv(a, 1);
    assert q * 1 == q;
  }

  // ----- Resizing one rectangle -----

  /** `ResizeAxis::is_diagonal`. */
  predicate IsDiagonal(axis: ResizeAxis) {
    axis == NW || axis == NE || axis == SW || axis == SE
  }

  /**
   * The mouse movement a diagonal resize uses when the aspect ratio is
   * kept: the larger component stands and the other follows the ratio of
   * the snapshot rectangle (sides under 1 count as 1), with its sign turned
   * for the NE and SW corners.
   */
  function AspectDelta(size: Size, axis: ResizeAxis, mouse: Vec2): Vec2 {
    var w := Max(1, size.width);
    var h := Max(1, size.height);
    var odd := if axis == NE || axis == SW then -1 else 1;
    if Drags.Abs(mouse.x) > Drags.Abs(mouse.y) then Vec2(mouse.x, odd * RoundDiv(mouse.x * h, w))
    else Vec2(odd * RoundDiv(mouse.y * w, h), mouse.y)
  }

  /**
   * The movement of the dragged edge or corner, in sheet pixels: the
   * mouse movement (aspect-locked when asked, on a corner) divided by the
   * zoom and rounded to the nearest pixel.
   */
  function ResizeDelta(rect: Rectangle, axis: ResizeAxis, mouse: Vec2, preserveAspectRatio: bool, zoom: nat): (r: Vec2)
    requires zoom >= 1
    ensures !(preserveAspectRatio && IsDiagonal(axis)) ==>
      && -(zoom as int) <= 2 * (mouse.x - r.x * zoom) <= zoom
      && -(zoom as int) <= 2 * (mouse.y - r.y * zoom) <= zoom
  {
    var m := if preserveAspectRatio && IsDiagonal(axis) then AspectDelta(rect.size, axis, mouse) else mouse;
    Vec2(RoundDiv(m.x, zoom), RoundDiv(m.y, zoom))
  }

  function Right(rect: Rectangle): int {
    rect.topLeft.x + rect.size.width
  }

  function Bottom(rect: Rectangle): int {
    rect.topLeft.y + rect.size.height
  }

  /** The corner of the snapshot rectangle that stays put: the one opposite the dragged corner, or an end of the opposite edge. */
  function Anchor(rect: Rectangle, axis: ResizeAxis): Vec2 {
    match axis
    case NW => Vec2(Right(rect), Bottom(rect))
    case NE => Vec2(rect.topLeft.x, Bottom(rect))
    case SW => Vec2(Right(rect), rect.topLeft.y)
    case SE => rect.topLeft
    case N => Vec2(rect.topLeft.x, Bottom(rect))
    case W => Vec2(Right(rect), rect.topLeft.y)
    case S => rect.topLeft
    case E => rect.topLeft
  }

  /** Where the dragged corner ends up: moved by the delta, or, for an edge, moved across that edge only. */
  function Handle(rect: Rectangle, axis: ResizeAxis, delta: Vec2): Vec2 {
    match axis
    case NW => Vec2(rect.topLeft.x + delta.x, rect.topLeft.y + delta.y)
    case NE => Vec2(Right(rect) + delta.x, rect.topLeft.y + delta.y)
    case SW => Vec2(rect.topLeft.x + delta.x, Bottom(rect) + delta.y)
    case SE => Vec2(Right(rect) + delta.x, Bottom(rect) + delta.y)
    case N => Vec2(Right(rect), rect.topLeft.y + delta.y)
    case W => Vec2(rect.topLeft.x + delta.x, Bottom(rect))
    case S => Vec2(Right(rect), Bottom(rect) + delta.y)
    case E => Vec2(Right(rect) + delta.x, Bottom(rect))
  }

  function IntMin(a: int, b: int): int {
    if a <= b then a else b
  }

  /** `p` is one of the four corners of `r`. */
  predicate IsCorner(r: Rectangle, p: Vec2) {
    (p.x == r.topLeft.x || p.x == Right(r)) && (p.y == r.topLeft.y || p.y == Bottom(r))
  }

  /** `Rect::from_points` of two points: the smallest rectangle with both as corners. */
  function BoundingBox(p: Vec2, q: Vec2): (r: Rectangle)
    ensures IsCorner(r, p) && IsCorner(r, q)
    ensures r.size == Size(Drags.Abs(p.x - q.x), Drags.Abs(p.y - q.y))
  {
    Rectangle(Vec2(IntMin(p.x, q.x), IntMin(p.y, q.y)), Size(Drags.Abs(p.x - q.x), Drags.Abs(p.y - q.y)))
  }

  /** The rectangle a resize by `delta` leaves: spanned by the anchor and the moved handle, flipping if dragged past the anchor. */
  function ResizedRectangle(rect: Rectangle, axis: ResizeAxis, delta: Vec2): (r: Rectangle)
    ensures IsCorner(r, Anchor(rect, axis)) && IsCorner(r, Handle(rect, axis, delta))
  {
    BoundingBox(Anchor(rect, axis), Handle(rect, axis, delta))
  }

  /** A resize by nothing gives the snapshot rectangle back, whichever handle is held. */
  lemma ResizeByNothing(rect: Rectangle, axis: ResizeAxis)
    ensures ResizedRectangle(rect, axis, Vec2(0, 0)) == rect
  {
  }

  /**
   * As long as the handle is not dragged past the anchor, the dragged
   * edges move by the delta and the others stay where they were.
   */
  lemma ResizeWithoutFlip(rect: Rectangle, axis: ResizeAxis, delta: Vec2)
    ensures var r := ResizedRectangle(rect, axis, delta);
      var (x, y, w, h) := (rect.topLeft.x, rect.topLeft.y, rect.size.width, rect.size.height);
      var (dx, dy) := (delta.x, delta.y);
      && (axis == NW && dx <= w && dy <= h ==> r == Rectangle(Vec2(x + dx, y + dy), Size(w - dx, h - dy)))
      && (axis == NE && -dx <= w && dy <= h ==> r == Rectangle(Vec2(x, y + dy), Size(w + dx, h - dy)))
      && (axis == SW && dx <= w && -dy <= h ==> r == Rectangle(Vec2(x + dx, y), Size(w - dx, h + dy)))
      && (axis == SE && -dx <= w && -dy <= h ==> r == Rectangle(Vec2(x, y), Size(w + dx, h + dy)))
      && (axis == N && dy <= h ==> r == Rectangle(Vec2(x, y + dy), Size(w, h - dy)))
      && (axis == W && dx <= w ==> r == Rectangle(Vec2(x + dx, y), Size(w - dx, h)))
      && (axis == S && -dy <= h ==> r == Rectangle(Vec2(x, y), Size(w, h + dy)))
      && (axis == E && -dx <= w ==> r == Rectangle(Vec2(x, y), Size(w + dx, h)))
  {
  }

  /** Dragging an edge leaves the other axis of the rectangle alone, even past the anchor. */
  lemma EdgeResizeKeepsOtherAxis(rect: Rectangle, axis: ResizeAxis, delta: Vec2)
    ensures var r := ResizedRectangle(rect, axis, delta);
      && ((axis == N || axis == S) ==> r.topLeft.x == rect.topLeft.x && r.size.width == rect.size.width)
      && ((axis == W || axis == E) ==> r.topLeft.y == rect.topLeft.y && r.size.height == rect.size.height)
  {
  }

  /** At zoom 1 and without the aspect lock, the mouse movement is the delta. */
  lemma ResizeDeltaAtOne(rect: Rectangle, axis: ResizeAxis, mouse: Vec2)
    ensures ResizeDelta(rect, axis, mouse, false, 1) == mouse
  {
    RoundDivByOne(mouse.x);
    RoundDivByOne(mouse.y);
  }

  /** The cases of the source's tests: a 100 by 100 box at the origin resized by (10, 10). */
  lemma ResizeExamples()
    ensures var rect := Rectangle(Vec2(0, 0), Size(100, 100));
      var delta := Vec2(10, 10);
      && ResizedRectangle(rect, NW, delta) == Rectangle(Vec2(10, 10), Size(90, 90))
      && ResizedRectangle(rect, NE, delta) == Rectangle(Vec2(0, 10), Size(110, 90))
      && ResizedRectangle(rect, SW, delta) == Rectangle(Vec2(10, 0), Size(90, 110))
      && ResizedRectangle(rect, SE, delta) == Rectangle(Vec2(0, 0), Size(110, 110))
      && ResizedRectangle(rect, N, delta) == Rectangle(Vec2(0, 10), Size(100, 90))
      && ResizedRectangle(rect, W, delta) == Rectangle(Vec2(10, 0), Size(90, 100))
      && ResizedRectangle(rect, S, delta) == Rectangle(Vec2(0, 0), Size(100, 110))
      && ResizedRectangle(rect, E, delta) == Rectangle(Vec2(0, 0), Size(110, 100))
  {
    var rect := Rectangle(Vec2(0, 0), Size(100, 100));
    ResizeWithoutFlip(rect, NW, Vec2(10, 10));
    ResizeWithoutFlip(rect, NE, Vec2(10, 10));
    ResizeWithoutFlip(rect, SW, Vec2(10, 10));
    ResizeWithoutFlip(rect, SE, Vec2(10, 10));
    ResizeWithoutFlip(rect, N, Vec2(10, 10));
    ResizeWithoutFlip(rect, W, Vec2(10, 10));
    ResizeWithoutFlip(rect, S, Vec2(10, 10));
    ResizeWithoutFlip(rect, E, Vec2(10, 10));
  }

  /** The aspect-ratio case of the source's tests: the SE corner of a square dragged by (40, 80) at zoom 1 moves by (80, 80). */
  lemma AspectResizeExample()
    ensures ResizeDelta(Rectangle(Vec2(0, 0), Size(100, 100)), SE, Vec2(40, 80), true, 1) == Vec2(80, 80)
  {
    assert RoundDiv(80 * 100, 100) == 80 by {
      assert RoundDiv(8000, 100) == 16100 / 200;
    }
    assert AspectDelta(Size(100, 100), SE, Vec2(40, 80)) == Vec2(80, 80);
    RoundDivByOne(80);
  }

  // ----- Editing the selected hitboxes from a snapshot -----

  /** A workbench zoom factor, which the view keeps at 1 or more. */
  type Zoom = z: nat | z >= 1 witness 1

  /** What an update does to each selected hitbox: move it, or resize it. */
  datatype HitboxEdit =
    | MoveTo(positions: map<string, Vec2>, shift: Vec2)
    | ResizeFrom(rectangles: map<string, Rectangle>, axis: ResizeAxis, mouse: Vec2, preserveAspectRatio: bool, zoom: Zoom)

  /** The snapshot holds the hitbox `name`. */
  predicate Snapshotted(edit: HitboxEdit, name: string) {
    match edit
    case MoveTo(positions, _) => name in positions
    case ResizeFrom(rectangles, _, _, _, _) => name in rectangles
  }

  /**
   * One hitbox after the edit: moved to its snapshot position plus the
   * shift, keeping its size; or set to its snapshot rectangle resized.
   */
  function Edited(edit: HitboxEdit, name: string, hitbox: Hitbox): (r: Hitbox)
    requires Snapshotted(edit, name)
    ensures edit.MoveTo? ==> r.Position() == edit.positions[name].Plus(edit.shift) && r.Extent() == hitbox.Extent()
    ensures edit.ResizeFrom? ==>
      var rect := edit.rectangles[name];
      r.geometry == ResizedRectangle(rect, edit.axis, ResizeDelta(rect, edit.axis, edit.mouse, edit.preserveAspectRatio, edit.zoom))
  {
    match edit
    case MoveTo(positions, shift) => hitbox.SetPosition(positions[name].Plus(shift))
    case ResizeFrom(rectangles, axis, mouse, preserve, zoom) =>
      var rect := rectangles[name];
      var resized := ResizedRectangle(rect, axis, ResizeDelta(rect, axis, mouse, preserve, zoom));
      hitbox.SetPosition(resized.topLeft).SetSize(resized.size)
  }

  /** A second edit of the same kind replaces the first. */
  lemma EditedTwice(first: HitboxEdit, second: HitboxEdit, name: string, hitbox: Hitbox)
    requires first.MoveTo? == second.MoveTo?
    requires Snapshotted(first, name) && Snapshotted(second, name)
    ensures Edited(second, name, Edited(first, name, hitbox)) == Edited(second, name, hitbox)
  {
  }

  predicate Distinct(names: seq<string>) {
    forall i, j :: 0 <= i < j < |names| ==> names[i] != names[j]
  }

  /**
   * The loop of `update_nudge_hitbox` and `update_resize_hitbox`: each named
   * hitbox in turn takes its edit; the first one missing from the snapshot
   * stops the loop, keeping the edits made so far.
   */
  function EditHitboxes(keyframe: Keyframe, names: seq<string>, edit: HitboxEdit): (r: (Keyframe, Option<DocumentError>))
    requires forall n :: n in names ==> n in keyframe.hitboxes
    ensures r.0 == keyframe.(hitboxes := r.0.hitboxes) && r.0.hitboxes.Keys == keyframe.hitboxes.Keys
    ensures r.1.Some? ==> r.1 == Some(MissingHitboxPositionData)
    decreases |names|
  {
    if names == [] then (keyframe, None)
    else if !Snapshotted(edit, names[0]) then (keyframe, Some(MissingHitboxPositionData))
    else
      var n := names[0];
      EditHitboxes(keyframe.(hitboxes := keyframe.hitboxes[n := Edited(edit, n, keyframe.hitboxes[n])]), names[1..], edit)
  }

  /**
   * The keyframe after a successful edit loop: the same hitbox names, each
   * listed hitbox edited from its own earlier state, the rest unchanged.
   */
  ghost predicate HitboxesEdited(keyframe: Keyframe, after: Keyframe, names: set<string>, edit: HitboxEdit) {
    && after == keyframe.(hitboxes := after.hitboxes)
    && after.hitboxes.Keys == keyframe.hitboxes.Keys
    && forall n :: n in keyframe.hitboxes ==>
         if n in names
         then Snapshotted(edit, n) && after.hitboxes[n] == Edited(edit, n, keyframe.hitboxes[n])
         else after.hitboxes[n] == keyframe.hitboxes[n]
  }

  /**
   * Over distinct names, the edit loop fails exactly when a name is missing
   * from the snapshot, and otherwise edits each listed hitbox once.
   */
  lemma {:induction false} EditHitboxesSpec(keyframe: Keyframe, names: seq<string>, edit: HitboxEdit)
    requires forall n :: n in names ==> n in keyframe.hitboxes
    requires Distinct(names)
    ensures var (after, failure) := EditHitboxes(keyframe, names, edit);
      && (failure.None? <==> forall n :: n in names ==> Snapshotted(edit, n))
      && (failure.None? ==> HitboxesEdited(keyframe, after, (set n | n in names), edit))
    decreases |names|
  {
    if names != [] && Snapshotted(edit, names[0]) {
      var n0 := names[0];
      var next := keyframe.(hitboxes := keyframe.hitboxes[n0 := Edited(edit, n0, keyframe.hitboxes[n0])]);
      assert Distinct(names[1..]);
      EditHitboxesSpec(next, names[1..], edit);
      assert n0 !in names[1..];
      assert forall n :: n in names <==> n == n0 || n in names[1..];
    }
  }

  /** A second edit loop of the same kind over the same names replaces the first. */
  lemma EditHitboxesTwice(keyframe: Keyframe, names: seq<string>, first: HitboxEdit, second: HitboxEdit)
    requires forall n :: n in names ==> n in keyframe.hitboxes
    requires Distinct(names)
    requires first.MoveTo? == second.MoveTo?
    requires forall n :: Snapshotted(first, n) ==> Snapshotted(second, n)
    requires EditHitboxes(keyframe, names, first).1.None?
    ensures EditHitboxes(EditHitboxes(keyframe, names, first).0, names, second) == EditHitboxes(keyframe, names, second)
  {
    var once := EditHitboxes(keyframe, names, first).0;
    EditHitboxesSpec(keyframe, names, first);
    EditHitboxesSpec(once, names, second);
    EditHitboxesSpec(keyframe, names, second);
    var twice := EditHitboxes(once, names, second).0;
    var direct := EditHitboxes(keyframe, names, second).0;
    forall n | n in twice.hitboxes ensures twice.hitboxes[n] == direct.hitboxes[n] {
      if n in names {
        EditedTwice(first, second, n, keyframe.hitboxes[n]);
      }
    }
    assert twice.hitboxes == direct.hitboxes;
  }

  /** The edit loop as the source runs it, over the names in turn. */
  method EditEach(keyframe: Keyframe, names: seq<string>, edit: HitboxEdit) returns (after: Keyframe, failure: Option<DocumentError>)
    requires forall n :: n in names ==> n in keyframe.hitboxes
    ensures (after, failure) == EditHitboxes(keyframe, names, edit)
  {
    after := keyframe;
    var k := 0;
    while k < |names|
      invariant 0 <= k <= |names|
      invariant after.hitboxes.Keys == keyframe.hitboxes.Keys
      invariant EditHitboxes(after, names[k..], edit) == EditHitboxes(keyframe, names, edit)
    {
      var n := names[k];
      assert names[k..][0] == n && names[k..][1..] == names[k + 1..];
      if !Snapshotted(edit, n) {
        return after, Some(MissingHitboxPositionData);
      }
      after := after.(hitboxes := after.hitboxes[n := Edited(edit, n, after.hitboxes[n])]);
      k := k + 1;
    }
    failure := None;
  }

  /** The hitboxes of the keyframe whose names are selected, in the ascending order the keyframe's sorted map visits them. */
  function EditedNames(keyframe: Keyframe, view: View): (r: seq<string>)
    ensures forall n :: n in r <==> n in keyframe.hitboxes && n in SelectedHitboxNames(view)
    ensures Distinct(r)
  {
    Ascending(set n | n in keyframe.hitboxes && n in SelectedHitboxNames(view))
  }

  /** The current animation holds the workbench keyframe. */
  lemma WorkbenchKeyframeExists(sheet: Sheet, view: View)
    requires WorkbenchKeyframe(sheet, view).Ok?
    ensures WorkbenchAnimation(sheet, view).Ok?
    ensures var slot := WorkbenchKeyframe(sheet, view).value.0;
      && KeyframeExists(sheet, WorkbenchAnimation(sheet, view).value.0, slot.0, slot.1)
      && Drags.At(WorkbenchAnimation(sheet, view).value.1, slot) == WorkbenchKeyframe(sheet, view).value.1
  {
  }

  /**
   * The common tail of the hitbox updates: the selected hitboxes of the
   * keyframe under the clock, in ascending name order, take the edit;
   * without such a keyframe, the error of `workbench_keyframe_mut` and no
   * change.
   */
  function SelectedHitboxesEdited(sheet: Sheet, view: View, edit: HitboxEdit): (r: Outcome)
    ensures r.view == view
    ensures WorkbenchKeyframeMut(sheet, view).Err? ==> r == Outcome(sheet, view, Err(WorkbenchKeyframeMut(sheet, view).error))
  {
    match WorkbenchKeyframeMut(sheet, view)
    case Err(e) => Outcome(sheet, view, Err(e))
    case Ok((slot, keyframe)) =>
      WorkbenchKeyframeExists(sheet, view);
      var (edited, failure) := EditHitboxes(keyframe, EditedNames(keyframe, view), edit);
      Outcome(WithKeyframe(sheet, WorkbenchAnimation(sheet, view).value.0, slot, edited), view,
              if failure.None? then Ok(()) else Err(failure.value))
  }

  /**
   * With a keyframe under the clock, a hitbox update succeeds exactly when
   * the snapshot holds every selected hitbox of that keyframe; it then
   * edits those hitboxes and leaves every other part of the sheet alone.
   */
  lemma SelectedHitboxesEditEffect(sheet: Sheet, view: View, edit: HitboxEdit)
    requires WorkbenchKeyframe(sheet, view).Ok?
    ensures var r := SelectedHitboxesEdited(sheet, view, edit);
      var (slot, keyframe) := WorkbenchKeyframe(sheet, view).value;
      var name := WorkbenchAnimation(sheet, view).value.0;
      && (r.result.Ok? <==> forall n :: n in keyframe.hitboxes && n in SelectedHitboxNames(view) ==> Snapshotted(edit, n))
      && (r.result.Ok? ==>
            exists after :: && KeyframeExists(sheet, name, slot.0, slot.1)
                            && r.sheet == WithKeyframe(sheet, name, slot, after)
                            && HitboxesEdited(keyframe, after, (set n | n in keyframe.hitboxes && n in SelectedHitboxNames(view)), edit))
  {
    var (slot, keyframe) := WorkbenchKeyframe(sheet, view).value;
    WorkbenchKeyframeExists(sheet, view);
    var names := EditedNames(keyframe, view);
    EditHitboxesSpec(keyframe, names, edit);
    assert (set n | n in names) == (set n | n in keyframe.hitboxes && n in SelectedHitboxNames(view));
  }

  /** After a successful update, the next one of the same kind from the same snapshot gives what it would have given on its own. */
  lemma SelectedHitboxesEditTwice(sheet: Sheet, view: View, first: HitboxEdit, second: HitboxEdit)
    requires first.MoveTo? == second.MoveTo?
    requires forall n :: Snapshotted(first, n) ==> Snapshotted(second, n)
    ensures var once := SelectedHitboxesEdited(sheet, view, first);
      once.result.Ok? ==> SelectedHitboxesEdited(once.sheet, view, second) == SelectedHitboxesEdited(sheet, view, second)
  {
    var once := SelectedHitboxesEdited(sheet, view, first);
    if once.result.Ok? {
      var (slot, keyframe) := WorkbenchKeyframe(sheet, view).value;
      WorkbenchKeyframeExists(sheet, view);
      var name := WorkbenchAnimation(sheet, view).value.0;
      var names := EditedNames(keyframe, view);
      var after := EditHitboxes(keyframe, names, first).0;
      var direct := EditHitboxes(keyframe, names, second).0;
      assert WorkbenchKeyframe(once.sheet, view) == Ok((slot, after)) by {
        WithKeyframeKeepsWorkbench(sheet, view, after);
      }
      assert EditedNames(after, view) == names;
      EditHitboxesTwice(keyframe, names, first, second);
      KeyframeReplacedTwice(sheet, name, slot, after, direct);
    }
  }

  lemma KeyframeReplacedTwice(sheet: Sheet, name: string, slot: KeyframeSlot, a: Keyframe, b: Keyframe)
    requires KeyframeExists(sheet, name, slot.0, slot.1)
    ensures KeyframeExists(WithKeyframe(sheet, name, slot, a), name, slot.0, slot.1)
    ensures WithKeyframe(WithKeyframe(sheet, name, slot, a), name, slot, b) == WithKeyframe(sheet, name, slot, b)
  {
    var twice := WithKeyframe(WithKeyframe(sheet, name, slot, a), name, slot, b);
    var direct := WithKeyframe(sheet, name, slot, b);
    assert twice.animations[name].sequences[slot.0] == direct.animations[name].sequences[slot.0];
    assert twice.animations[name].sequences == direct.animations[name].sequences;
    assert twice.animations[name] == direct.animations[name];
    assert twice.animations == direct.animations;
  }

  /** The update of the selected hitboxes, as the source runs it. */
  method EditSelectedHitboxes(sheet: Sheet, view: View, edit: HitboxEdit) returns (r: Outcome)
    ensures r == SelectedHitboxesEdited(sheet, view, edit)
  {
    var k := WorkbenchKeyframeMut(sheet, view);
    if k.Err? {
      return Outcome(sheet, view, Err(k.error));
    }
    var (slot, keyframe) := k.value;
    WorkbenchKeyframeExists(sheet, view);
    var edited, failure := EditEach(keyframe, EditedNames(keyframe, view), edit);
    r := Outcome(WithKeyframe(sheet, WorkbenchAnimation(sheet, view).value.0, slot, edited), view,
                 if failure.None? then Ok(()) else Err(failure.value));
  }

  // ----- Nudging hitboxes -----

  /** The snapshot of a hitbox nudge: the position of every hitbox of the keyframe. */
  function HitboxPositions(keyframe: Keyframe): (r: map<string, Vec2>)
    ensures r.Keys == keyframe.hitboxes.Keys
    ensures forall n :: n in r ==> r[n] == keyframe.hitboxes[n].Position()
  {
    map n | n in keyframe.hitboxes :: keyframe.hitboxes[n].Position()
  }

  /**
   * What `begin_nudge_hitbox` leaves: the hitbox selected (alone, if it was
   * not selected already) and the positions of every hitbox of the keyframe
   * under the clock in the snapshot; without such a keyframe, that error and
   * no change.
   */
  function HitboxNudgeBegun(sheet: Sheet, view: View, t: Transient, hitboxName: string)
    : (r: (View, Transient, Result<(), DocumentError>))
    ensures WorkbenchKeyframe(sheet, view).Err? ==> r == (view, t, Err(WorkbenchKeyframe(sheet, view).error))
    ensures WorkbenchKeyframe(sheet, view).Ok? ==>
      var (slot, keyframe) := WorkbenchKeyframe(sheet, view).value;
      var h := HitboxRef(WorkbenchAnimation(sheet, view).value.0, slot.0, slot.1, hitboxName);
      && r.2 == Ok(())
      && h in r.0.selection.hitboxes.selected
      && (h in view.selection.hitboxes.selected ==> r.0 == view)
      && (h !in view.selection.hitboxes.selected ==> r.0 == SelectHitboxesOnly(view, [h]))
      && r.1 == t.(hitboxNudge := Some(HitboxNudge(hitboxName, HitboxPositions(keyframe))))
  {
    match WorkbenchKeyframe(sheet, view)
    case Err(e) => (view, t, Err(e))
    case Ok((slot, keyframe)) =>
      var h := HitboxRef(WorkbenchAnimation(sheet, view).value.0, slot.0, slot.1, hitboxName);
      var after := if h in view.selection.hitboxes.selected then view else SelectHitboxesOnly(view, [h]);
      (after, t.(hitboxNudge := Some(HitboxNudge(hitboxName, HitboxPositions(keyframe)))), Ok(()))
  }

  /** `Document::begin_nudge_hitbox`. */
  method BeginNudgeHitbox(doc: Document, hitboxName: string) returns (r: Result<(), DocumentError>)
    modifies doc
    ensures (doc.view, doc.transient, r) == HitboxNudgeBegun(old(doc.sheet), old(doc.view), old(doc.transient), hitboxName)
    ensures doc.sheet == old(doc.sheet) && doc.persistent == old(doc.persistent) && doc.KeepsHistory()
  {
    var begun := HitboxNudgeBegun(doc.sheet, doc.view, doc.transient, hitboxName);
    doc.view, doc.transient := begun.0, begun.1;
    r := begun.2;
  }

  /** The edit of a hitbox nudge: the axis-locked displacement, divided by the zoom and rounded down. */
  function NudgeEdit(view: View, nudge: HitboxNudge, displacement: Vec2, bothAxis: bool): HitboxEdit {
    MoveTo(nudge.originalPositions, Drags.Unzoomed(Drags.AxisLocked(displacement, bothAxis), Drags.WorkbenchZoom(view)))
  }

  /**
   * `Document::update_nudge_hitbox`: each selected hitbox of the keyframe
   * under the clock moves to its snapshot position plus the axis-locked
   * displacement divided by the zoom, rounded down.
   */
  function HitboxesNudged(sheet: Sheet, view: View, nudge: Option<HitboxNudge>, displacement: Vec2, bothAxis: bool): (r: Outcome)
    ensures r.view == view
    ensures nudge.None? ==> r == Outcome(sheet, view, Err(NotNudgingHitbox))
    ensures nudge.Some? && WorkbenchKeyframeMut(sheet, view).Err? ==> r == Outcome(sheet, view, Err(WorkbenchKeyframeMut(sheet, view).error))
  {
    if nudge.None? then Outcome(sheet, view, Err(NotNudgingHitbox))
    else SelectedHitboxesEdited(sheet, view, NudgeEdit(view, nudge.value, displacement, bothAxis))
  }

  /**
   * With a nudge under way and a keyframe under the clock, a hitbox nudge
   * succeeds exactly when the snapshot holds every selected hitbox of the
   * keyframe; each of them then sits at its snapshot position plus the
   * shift with its size unchanged, and nothing else in the sheet changes.
   */
  lemma HitboxNudgeEffect(sheet: Sheet, view: View, nudge: Option<HitboxNudge>, displacement: Vec2, bothAxis: bool)
    requires nudge.Some? && WorkbenchKeyframe(sheet, view).Ok?
    ensures var r := HitboxesNudged(sheet, view, nudge, displacement, bothAxis);
      var (slot, keyframe) := WorkbenchKeyframe(sheet, view).value;
      var name := WorkbenchAnimation(sheet, view).value.0;
      var positions := nudge.value.originalPositions;
      var shift := Drags.Unzoomed(Drags.AxisLocked(displacement, bothAxis), Drags.WorkbenchZoom(view));
      && (r.result.Ok? <==> forall n :: n in keyframe.hitboxes && n in SelectedHitboxNames(view) ==> n in positions)
      && (r.result.Ok? ==>
            exists after: Keyframe ::
              && KeyframeExists(sheet, name, slot.0, slot.1)
              && r.sheet == WithKeyframe(sheet, name, slot, after)
              && after == keyframe.(hitboxes := after.hitboxes)
              && after.hitboxes.Keys == keyframe.hitboxes.Keys
              && forall n :: n in keyframe.hitboxes ==>
                   if n in SelectedHitboxNames(view)
                   then n in positions && after.hitboxes[n].Position() == positions[n].Plus(shift)
                        && after.hitboxes[n].Extent() == keyframe.hitboxes[n].Extent()
                   else after.hitboxes[n] == keyframe.hitboxes[n])
  {
    SelectedHitboxesEditEffect(sheet, view, NudgeEdit(view, nudge.value, displacement, bothAxis));
  }

  /** Hitbox nudges never accumulate: after a successful update, the next one from the same snapshot gives what it would have given on its own. */
  lemma HitboxNudgeDoesNotAccumulate(sheet: Sheet, view: View, nudge: Option<HitboxNudge>,
                                     first: Vec2, firstBothAxis: bool, second: Vec2, secondBothAxis: bool)
    ensures var once := HitboxesNudged(sheet, view, nudge, first, firstBothAxis);
      once.result.Ok? ==>
        HitboxesNudged(once.sheet, view, nudge, second, secondBothAxis) == HitboxesNudged(sheet, view, nudge, second, secondBothAxis)
  {
    if nudge.Some? {
      SelectedHitboxesEditTwice(sheet, view, NudgeEdit(view, nudge.value, first, firstBothAxis),
                                NudgeEdit(view, nudge.value, second, secondBothAxis));
    }
  }

  /** `Document::update_nudge_hitbox`. */
  method UpdateNudgeHitbox(doc: Document, displacement: Vec2, bothAxis: bool) returns (r: Result<(), DocumentError>)
    modifies doc
    ensures Outcome(doc.sheet, doc.view, r)
            == HitboxesNudged(old(doc.sheet), old(doc.view), old(doc.transient.hitboxNudge), displacement, bothAxis)
    ensures doc.transient == old(doc.transient) && doc.persistent == old(doc.persistent) && doc.KeepsHistory()
  {
    if doc.transient.hitboxNudge.None? {
      return Err(NotNudgingHitbox);
    }
    var o := EditSelectedHitboxes(doc.sheet, doc.view, NudgeEdit(doc.view, doc.transient.hitboxNudge.value, displacement, bothAxis));
    doc.sheet := o.sheet;
    r := o.result;
  }

  /** `Document::end_nudge_hitbox`. */
  method EndNudgeHitbox(doc: Document)
    modifies doc
    ensures doc.transient == old(doc.transient).(hitboxNudge := None)
    ensures doc.sheet == old(doc.sheet) && doc.view == old(doc.view)
    ensures doc.persistent == old(doc.persistent) && doc.KeepsHistory()
  {
    doc.transient := doc.transient.(hitboxNudge := None);
  }

  /** `Document::hitboxes_being_nudged`: the names of the selected hitboxes while a nudge is under way, none otherwise. */
  function HitboxesBeingNudged(view: View, t: Transient): (r: set<string>)
    ensures t.hitboxNudge.None? ==> r == {}
    ensures t.hitboxNudge.Some? ==> forall n :: n in r <==> exists h :: h in view.selection.hitboxes.selected && h.name == n
  {
    if t.hitboxNudge.Some? then SelectedHitboxNames(view) else {}
  }

  // ----- Resizing hitboxes -----

  /** The snapshot of a hitbox resize: the rectangle of every hitbox of the keyframe. */
  function HitboxRectangles(keyframe: Keyframe): (r: map<string, Rectangle>)
    ensures r.Keys == keyframe.hitboxes.Keys
    ensures forall n :: n in r ==> r[n] == keyframe.hitboxes[n].geometry
  {
    map n | n in keyframe.hitboxes :: keyframe.hitboxes[n].geometry
  }

  /**
   * What `begin_resize_hitbox` leaves: the axis, the hitbox and the
   * rectangle of every hitbox of the keyframe under the clock in the
   * snapshot, the selection untouched; without such a keyframe, that error
   * and no change.
   */
  function HitboxResizeBegun(sheet: Sheet, view: View, t: Transient, hitboxName: string, axis: ResizeAxis)
    : (r: (Transient, Result<(), DocumentError>))
    ensures WorkbenchKeyframe(sheet, view).Err? ==> r == (t, Err(WorkbenchKeyframe(sheet, view).error))
    ensures WorkbenchKeyframe(sheet, view).Ok? ==>
      && r.1 == Ok(())
      && r.0 == t.(hitboxResize := Some(HitboxResize(axis, hitboxName, HitboxRectangles(WorkbenchKeyframe(sheet, view).value.1))))
  {
    match WorkbenchKeyframe(sheet, view)
    case Err(e) => (t, Err(e))
    case Ok((_, keyframe)) => (t.(hitboxResize := Some(HitboxResize(axis, hitboxName, HitboxRectangles(keyframe)))), Ok(()))
  }

  /** `Document::begin_resize_hitbox`. */
  method BeginResizeHitbox(doc: Document, hitboxName: string, axis: ResizeAxis) returns (r: Result<(), DocumentError>)
    modifies doc
    ensures (doc.transient, r) == HitboxResizeBegun(old(doc.sheet), old(doc.view), old(doc.transient), hitboxName, axis)
    ensures doc.sheet == old(doc.sheet) && doc.view == old(doc.view) && doc.persistent == old(doc.persistent) && doc.KeepsHistory()
  {
    var begun := HitboxResizeBegun(doc.sheet, doc.view, doc.transient, hitboxName, axis);
    doc.transient := begun.0;
    r := begun.1;
  }

  /** The edit of a hitbox resize. */
  function ResizeEdit(view: View, resize: HitboxResize, mouse: Vec2, preserveAspectRatio: bool): HitboxEdit {
    ResizeFrom(resize.originalPositions, resize.axis, mouse, preserveAspectRatio, Drags.WorkbenchZoom(view))
  }

  /**
   * `Document::update_resize_hitbox`: each selected hitbox of the keyframe
   * under the clock takes its snapshot rectangle resized by the mouse
   * movement, divided by the zoom and rounded.
   */
  function HitboxesResized(sheet: Sheet, view: View, resize: Option<HitboxResize>, mouse: Vec2, preserveAspectRatio: bool)
    : (r: Outcome)
    ensures r.view == view
    ensures resize.None? ==> r == Outcome(sheet, view, Err(NotResizingHitbox))
    ensures resize.Some? && WorkbenchKeyframeMut(sheet, view).Err? ==> r == Outcome(sheet, view, Err(WorkbenchKeyframeMut(sheet, view).error))
  {
    if resize.None? then Outcome(sheet, view, Err(NotResizingHitbox))
    else SelectedHitboxesEdited(sheet, view, ResizeEdit(view, resize.value, mouse, preserveAspectRatio))
  }

  /**
   * With a resize under way and a keyframe under the clock, a hitbox resize
   * succeeds exactly when the snapshot holds every selected hitbox of the
   * keyframe; each of them then takes its snapshot rectangle resized, and
   * nothing else in the sheet changes.
   */
  lemma HitboxResizeEffect(sheet: Sheet, view: View, resize: Option<HitboxResize>, mouse: Vec2, preserveAspectRatio: bool)
    requires resize.Some? && WorkbenchKeyframe(sheet, view).Ok?
    ensures var r := HitboxesResized(sheet, view, resize, mouse, preserveAspectRatio);
      var (slot, keyframe) := WorkbenchKeyframe(sheet, view).value;
      var name := WorkbenchAnimation(sheet, view).value.0;
      var rectangles := resize.value.originalPositions;
      var axis := resize.value.axis;
      var zoom := Drags.WorkbenchZoom(view);
      && (r.result.Ok? <==> forall n :: n in keyframe.hitboxes && n in SelectedHitboxNames(view) ==> n in rectangles)
      && (r.result.Ok? ==>
            exists after: Keyframe ::
              && KeyframeExists(sheet, name, slot.0, slot.1)
              && r.sheet == WithKeyframe(sheet, name, slot, after)
              && after == keyframe.(hitboxes := after.hitboxes)
              && after.hitboxes.Keys == keyframe.hitboxes.Keys
              && forall n :: n in keyframe.hitboxes ==>
                   if n in SelectedHitboxNames(view)
                   then n in rectangles
                        && after.hitboxes[n].geometry
                           == ResizedRectangle(rectangles[n], axis, ResizeDelta(rectangles[n], axis, mouse, preserveAspectRatio, zoom))
                   else after.hitboxes[n] == keyframe.hitboxes[n])
  {
    SelectedHitboxesEditEffect(sheet, view, ResizeEdit(view, resize.value, mouse, preserveAspectRatio));
  }

  /** Hitbox resizes never accumulate: after a successful update, the next one from the same snapshot gives what it would have given on its own. */
  lemma HitboxResizeDoesNotAccumulate(sheet: Sheet, view: View, resize: Option<HitboxResize>,
                                      first: Vec2, firstPreserve: bool, second: Vec2, secondPreserve: bool)
    ensures var once := HitboxesResized(sheet, view, resize, first, firstPreserve);
      once.result.Ok? ==>
        HitboxesResized(once.sheet, view, resize, second, secondPreserve) == HitboxesResized(sheet, view, resize, second, secondPreserve)
  {
    if resize.Some? {
      SelectedHitboxesEditTwice(sheet, view, ResizeEdit(view, resize.value, first, firstPreserve),
                                ResizeEdit(view, resize.value, second, secondPreserve));
    }
  }

  /** `Document::update_resize_hitbox`. */
  method UpdateResizeHitbox(doc: Document, mouse: Vec2, preserveAspectRatio: bool) returns (r: Result<(), DocumentError>)
    modifies doc
    ensures Outcome(doc.sheet, doc.view, r)
            == HitboxesResized(old(doc.sheet), old(doc.view), old(doc.transient.hitboxResize), mouse, preserveAspectRatio)
    ensures doc.transient == old(doc.transient) && doc.persistent == old(doc.persistent) && doc.KeepsHistory()
  {
    if doc.transient.hitboxResize.None? {
      return Err(NotResizingHitbox);
    }
    var o := EditSelectedHitboxes(doc.sheet, doc.view, ResizeEdit(doc.view, doc.transient.hitboxResize.value, mouse, preserveAspectRatio));
    doc.sheet := o.sheet;
    r := o.result;
  }

  /** `Document::end_resize_hitbox`. */
  method EndResizeHitbox(doc: Document)
    modifies doc
    ensures doc.transient == old(doc.transient).(hitboxResize := None)
    ensures doc.sheet == old(doc.sheet) && doc.view == old(doc.view)
    ensures doc.persistent == old(doc.persistent) && doc.KeepsHistory()
  {
    doc.transient := doc.transient.(hitboxResize := None);
  }

  /** `Document::hitboxes_being_resized`: the names of the selected hitboxes while a resize is under way, none otherwise. */
  function HitboxesBeingResized(view: View, t: Transient): (r: set<string>)
    ensures t.hitboxResize.None? ==> r == {}
    ensures t.hitboxResize.Some? ==> forall n :: n in r <==> exists h :: h in view.selection.hitboxes.selected && h.name == n
  {
    if t.hitboxResize.Some? then SelectedHitboxNames(view) else {}
  }
}
