/**
 * The bounding box of an animation in the oldest application: the union of
 * the texture rectangles of its frames, each moved by the frame's offset,
 * and the same box made symmetric about the origin so that the animation can
 * be drawn centred. Rectangles are integer origins with integer sizes.
 */
module BoundingBoxes {
  import opened Wrappers

  type Path = string

  datatype Point = Point(x: int, y: int)

  datatype Rect = Rect(origin: Point, width: int, height: int) {
    function BottomRight(): Point {
      Point(origin.x + width, origin.y + height)
    }

    /** The rectangle holds `other` entirely. */
    predicate Contains(other: Rect) {
      && origin.x <= other.origin.x && other.origin.x + other.width <= origin.x + width
      && origin.y <= other.origin.y && other.origin.y + other.height <= origin.y + height
    }

    /** A rectangle of zero size, which `union` lets the other one replace. */
    predicate IsZero() {
      width == 0 && height == 0
    }

    function Translate(dx: int, dy: int): Rect {
      Rect(Point(origin.x + dx, origin.y + dy), width, height)
    }
  }

  const ZeroRect: Rect := Rect(Point(0, 0), 0, 0)

  function Min(a: int, b: int): (r: int)
    ensures r <= a && r <= b && (r == a || r == b)
  {
    if a <= b then a else b
  }

  function Max(a: int, b: int): (r: int)
    ensures a <= r && b <= r && (r == a || r == b)
  {
    if a <= b then b else a
  }

  /** Integer division rounding toward zero, as on `i32`. */
  function TruncDiv(a: int, b: int): (q: int)
    requires b != 0
    ensures b * q == a ==> q == a / b
  {
    if a >= 0 || a % b == 0 then a / b
    else if b > 0 then a / b + 1
    else a / b - 1
  }

  /**
   * The quotient rounds toward zero: the remainder it leaves is smaller than
   * the divisor in magnitude and is zero or has the sign of the dividend.
   */
  lemma TruncDivTruncates(a: int, b: int)
    requires b != 0
    ensures var rem := a - b * TruncDiv(a, b);
      Abs(rem) < Abs(b) && (rem == 0 || ((rem > 0) <==> (a > 0)))
  {
    var q := TruncDiv(a, b);
    var e := a / b;
    var m := a % b;
    assert a == b * e + m && 0 <= m < Abs(b);
    if a >= 0 || m == 0 {
      assert a - b * q == m;
    } else if b > 0 {
      assert b * q == b * e + b;
      assert a - b * q == m - b;
    } else {
      assert b * q == b * e - b;
      assert a - b * q == m + b;
    }
  }

  function MinOf(xs: seq<int>): (r: int)
    requires |xs| > 0
    ensures forall x :: x in xs ==> r <= x
  {
    if |xs| == 1 then xs[0]
    else
      assert forall x :: x in xs ==> x == xs[0] || x in xs[1..];
      Min(xs[0], MinOf(xs[1..]))
  }

  function MaxOf(xs: seq<int>): (r: int)
    requires |xs| > 0
    ensures forall x :: x in xs ==> x <= r
  {
    if |xs| == 1 then xs[0]
    else
      assert forall x :: x in xs ==> x == xs[0] || x in xs[1..];
      Max(xs[0], MaxOf(xs[1..]))
  }

  function Xs(points: seq<Point>): (xs: seq<int>)
    ensures |xs| == |points| && forall i :: 0 <= i < |points| ==> xs[i] == points[i].x
  {
    seq(|points|, i requires 0 <= i < |points| => points[i].x)
  }

  function Ys(points: seq<Point>): (ys: seq<int>)
    ensures |ys| == |points| && forall i :: 0 <= i < |points| ==> ys[i] == points[i].y
  {
    seq(|points|, i requires 0 <= i < |points| => points[i].y)
  }

  /** The least and the greatest of a sequence are elements of it. */
  lemma {:induction false} ExtremesAttained(xs: seq<int>)
    requires |xs| > 0
    ensures MinOf(xs) in xs && MaxOf(xs) in xs
  {
    if |xs| > 1 {
      ExtremesAttained(xs[1..]);
      assert xs[1..][0] in xs[1..];
    }
  }

  /** `Rect::from_points`: the smallest rectangle holding every point. */
  function FromPoints(points: seq<Point>): (r: Rect)
    requires |points| > 0
    ensures r.width >= 0 && r.height >= 0
    ensures forall p :: p in points ==>
      r.origin.x <= p.x <= r.origin.x + r.width && r.origin.y <= p.y <= r.origin.y + r.height
  {
    var xs := Xs(points);
    var ys := Ys(points);
    assert forall p :: p in points ==> p.x in xs && p.y in ys by {
      forall p | p in points
        ensures p.x in xs && p.y in ys
      {
        var i :| 0 <= i < |points| && points[i] == p;
        assert xs[i] == p.x && ys[i] == p.y;
      }
    }
    assert xs[0] in xs && ys[0] in ys;
    Rect(Point(MinOf(xs), MinOf(ys)), MaxOf(xs) - MinOf(xs), MaxOf(ys) - MinOf(ys))
  }

  /** Every edge of `Rect::from_points` passes through one of the points: no smaller rectangle holds them all. */
  lemma FromPointsIsTight(points: seq<Point>)
    requires |points| > 0
    ensures var r := FromPoints(points);
      && (exists p :: p in points && p.x == r.origin.x)
      && (exists p :: p in points && p.y == r.origin.y)
      && (exists p :: p in points && p.x == r.origin.x + r.width)
      && (exists p :: p in points && p.y == r.origin.y + r.height)
  {
    var r := FromPoints(points);
    var xs, ys := Xs(points), Ys(points);
    ExtremesAttained(xs);
    ExtremesAttained(ys);
    var x0 :| 0 <= x0 < |xs| && xs[x0] == r.origin.x;
    var y0 :| 0 <= y0 < |ys| && ys[y0] == r.origin.y;
    var x1 :| 0 <= x1 < |xs| && xs[x1] == r.origin.x + r.width;
    var y1 :| 0 <= y1 < |ys| && ys[y1] == r.origin.y + r.height;
    assert points[x0] in points && points[y0] in points && points[x1] in points && points[y1] in points;
  }

  function Abs(a: int): (r: int)
    ensures r >= 0 && (r == a || r == -a)
  {
    if a < 0 then -a else a
  }

  /** A coordinate, its mirror image, another one and its mirror image range over plus and minus the larger magnitude. */
  lemma MirroredRange(a: int, b: int)
    ensures MinOf([a, -a, b, -b]) == -Max(Abs(a), Abs(b))
    ensures MaxOf([a, -a, b, -b]) == Max(Abs(a), Abs(b))
  {
    var xs := [a, -a, b, -b];
    assert xs[1..] == [-a, b, -b];
    assert xs[1..][1..] == [b, -b];
    assert xs[1..][1..][1..] == [-b];
    assert MinOf([b, -b]) == -Abs(b) && MaxOf([b, -b]) == Abs(b);
    assert MinOf([-a, b, -b]) == Min(-a, -Abs(b));
    assert MaxOf([-a, b, -b]) == Max(-a, Abs(b));
  }

  /** The corners `o` and `br` with their mirror images about the origin. */
  function Mirrored(o: Point, br: Point): seq<Point> {
    [o, Point(-o.x, -o.y), br, Point(-br.x, -br.y)]
  }

  /** The box spanned by two corners and their mirror images is symmetric about the origin. */
  lemma MirroredSpan(o: Point, br: Point)
    ensures var mx := Max(Abs(o.x), Abs(br.x));
            var my := Max(Abs(o.y), Abs(br.y));
            FromPoints(Mirrored(o, br)) == Rect(Point(-mx, -my), 2 * mx, 2 * my)
  {
    var points := Mirrored(o, br);
    assert Xs(points) == [o.x, -o.x, br.x, -br.x];
    assert Ys(points) == [o.y, -o.y, br.y, -br.y];
    MirroredRange(o.x, br.x);
    MirroredRange(o.y, br.y);
  }

  /**
   * What `BoundingBox::center_on_origin` computes: the box spanned by the
   * corners and their mirror images, moved back by its own origin and then
   * by half its size.
   */
  function Centered(r: Rect): (c: Rect)
    ensures c.origin.x + c.width == -c.origin.x && c.origin.y + c.height == -c.origin.y
    ensures c.width == 2 * Max(Abs(r.origin.x), Abs(r.origin.x + r.width))
    ensures c.height == 2 * Max(Abs(r.origin.y), Abs(r.origin.y + r.height))
    ensures r.width >= 0 && r.height >= 0 ==> c.Contains(r)
  {
    var spanned := FromPoints(Mirrored(r.origin, r.BottomRight()));
    MirroredSpan(r.origin, r.BottomRight());
    var moved := spanned.Translate(-spanned.origin.x, -spanned.origin.y);
    moved.Translate(TruncDiv(moved.width, -2), TruncDiv(moved.height, -2))
  }

  /** The first box of the unit tests. */
  lemma CenteredExampleWide()
    ensures Centered(Rect(Point(-50, -300), 1000, 800)) == Rect(Point(-950, -500), 1900, 1000)
  {
    CenteredBy(Rect(Point(-50, -300), 1000, 800), 950, 500);
  }

  /** The second box of the unit tests. */
  lemma CenteredExampleSquare()
    ensures Centered(Rect(Point(100, 100), 50, 50)) == Rect(Point(-150, -150), 300, 300)
  {
    CenteredBy(Rect(Point(100, 100), 50, 50), 150, 150);
  }

  /** The centred box spans plus and minus the larger magnitude of each pair of edges. */
  lemma CenteredBy(r: Rect, mx: int, my: int)
    requires mx == Max(Abs(r.origin.x), Abs(r.origin.x + r.width))
    requires my == Max(Abs(r.origin.y), Abs(r.origin.y + r.height))
    ensures Centered(r) == Rect(Point(-mx, -my), 2 * mx, 2 * my)
  {
  }

  /** The box the oldest application draws an animation in. */
  class BoundingBox {
    var rect: Rect

    constructor(rect: Rect)
      ensures this.rect == rect
    {
      this.rect := rect;
    }

    /** `BoundingBox::center_on_origin`. */
    method CenterOnOrigin()
      modifies this
      ensures rect == Centered(old(rect))
    {
      var o := rect.origin;
      var br := rect.BottomRight();
      rect := FromPoints(Mirrored(o, br));
      var deltaOrigin := Point(-rect.origin.x, -rect.origin.y);
      var deltaSize := Point(TruncDiv(rect.width, -2), TruncDiv(rect.height, -2));
      rect := rect.Translate(deltaOrigin.x, deltaOrigin.y);
      rect := rect.Translate(deltaSize.x, deltaSize.y);
    }
  }

  /** `Rect::union`: a rectangle of zero size gives way to the other; otherwise the smallest rectangle holding both. */
  function Union(a: Rect, b: Rect): (r: Rect)
    ensures a.width == 0 && a.height == 0 ==> r == b
    ensures !(a.width == 0 && a.height == 0) && b.width == 0 && b.height == 0 ==> r == a
    ensures !(a.width == 0 && a.height == 0) && !(b.width == 0 && b.height == 0)
            && a.width >= 0 && a.height >= 0 && b.width >= 0 && b.height >= 0 ==>
      && r.Contains(a) && r.Contains(b)
      && (forall c: Rect :: c.Contains(a) && c.Contains(b) ==> c.Contains(r))
      && (r.origin.x == a.origin.x || r.origin.x == b.origin.x)
      && (r.origin.y == a.origin.y || r.origin.y == b.origin.y)
      && (r.BottomRight().x == a.BottomRight().x || r.BottomRight().x == b.BottomRight().x)
      && (r.BottomRight().y == a.BottomRight().y || r.BottomRight().y == b.BottomRight().y)
  {
    if a.width == 0 && a.height == 0 then b
    else if b.width == 0 && b.height == 0 then a
    else
      var x0 := Min(a.origin.x, b.origin.x);
      var y0 := Min(a.origin.y, b.origin.y);
      var x1 := Max(a.origin.x + a.width, b.origin.x + b.width);
      var y1 := Max(a.origin.y + a.height, b.origin.y + b.height);
      Rect(Point(x0, y0), x1 - x0, y1 - y0)
  }

  datatype Size = Size(width: nat, height: nat)

  /** A frame of an animation: the texture it shows and where. */
  datatype AnimationFrame = AnimationFrame(frame: Path, offset: Point)

  datatype BoundingBoxError = EmptyAnimation | FrameDataNotLoaded

  /** The texture rectangle of a frame, moved by its offset. */
  function FrameRect(f: AnimationFrame, size: Size): Rect {
    Rect(Point(0, 0), size.width, size.height).Translate(f.offset.x, f.offset.y)
  }

  /** The union of the frame rectangles, folded from the zero rectangle in frame order. */
  function UnionOf(frames: seq<AnimationFrame>, textures: map<Path, Size>): (r: Rect)
    requires forall f :: f in frames ==> f.frame in textures
    ensures r.width >= 0 && r.height >= 0
    ensures forall i :: 0 <= i < |frames| && !FrameRect(frames[i], textures[frames[i].frame]).IsZero() ==>
      r.Contains(FrameRect(frames[i], textures[frames[i].frame]))
  {
    if frames == [] then ZeroRect
    else
      var init := frames[..|frames| - 1];
      assert forall f :: f in init ==> f in frames;
      var last := frames[|frames| - 1];
      var acc := UnionOf(init, textures);
      var r := Union(acc, FrameRect(last, textures[last.frame]));
      assert forall i :: 0 <= i < |init| ==> init[i] == frames[i];
      r
  }

  /** The frame rectangle at `i`, which must not be one of zero size to count toward the box. */
  predicate CountsToward(frames: seq<AnimationFrame>, textures: map<Path, Size>, i: int)
    requires forall f :: f in frames ==> f.frame in textures
  {
    0 <= i < |frames| && !FrameRect(frames[i], textures[frames[i].frame]).IsZero()
  }

  /**
   * The folded union is the smallest box holding the frame rectangles of
   * non-zero size: it lies inside every rectangle that holds them all; when
   * every frame rectangle is of zero size, so is the union.
   */
  lemma {:induction false} UnionOfIsSmallest(frames: seq<AnimationFrame>, textures: map<Path, Size>, c: Rect)
    requires forall f :: f in frames ==> f.frame in textures
    ensures (forall i :: 0 <= i < |frames| ==> !CountsToward(frames, textures, i)) ==> UnionOf(frames, textures).IsZero()
    ensures (exists i :: CountsToward(frames, textures, i))
         && (forall i :: CountsToward(frames, textures, i) ==> c.Contains(FrameRect(frames[i], textures[frames[i].frame])))
         ==> c.Contains(UnionOf(frames, textures))
  {
    if frames != [] {
      var init := frames[..|frames| - 1];
      assert forall f :: f in init ==> f in frames;
      var last := frames[|frames| - 1];
      assert forall i :: 0 <= i < |init| ==> init[i] == frames[i];
      assert forall i :: CountsToward(init, textures, i) <==> 0 <= i < |init| && CountsToward(frames, textures, i);
      UnionOfIsSmallest(init, textures, c);
      var acc := UnionOf(init, textures);
      var lr := FrameRect(last, textures[last.frame]);
      assert UnionOf(frames, textures) == Union(acc, lr);
      var lastCounts := CountsToward(frames, textures, |frames| - 1);
      assert lastCounts <==> !lr.IsZero();
      if exists i :: CountsToward(init, textures, i) {
        var i :| CountsToward(init, textures, i);
        assert acc.Contains(FrameRect(init[i], textures[init[i].frame]));
        assert !acc.IsZero();
        if (forall i :: CountsToward(frames, textures, i) ==> c.Contains(FrameRect(frames[i], textures[frames[i].frame]))) {
          assert c.Contains(acc);
          assert lastCounts ==> c.Contains(lr);
        }
      } else if lastCounts {
        assert UnionOf(frames, textures) == lr;
      }
    }
  }

  /**
   * `get_bounding_box`: an animation without frames has none; a frame
   * whose texture is not loaded fails the whole box; otherwise the union of
   * the frame rectangles.
   */
  method GetBoundingBox(frames: seq<AnimationFrame>, textures: map<Path, Size>) returns (r: Result<Rect, BoundingBoxError>)
    ensures frames == [] ==> r == Err(EmptyAnimation)
    ensures frames != [] && (exists f :: f in frames && f.frame !in textures) ==> r == Err(FrameDataNotLoaded)
    ensures frames != [] && (forall f :: f in frames ==> f.frame in textures) ==> r == Ok(UnionOf(frames, textures))
  {
    if |frames| == 0 {
      return Err(EmptyAnimation);
    }
    var box := ZeroRect;
    for i := 0 to |frames|
      invariant forall f :: f in frames[..i] ==> f.frame in textures
      invariant box == UnionOf(frames[..i], textures)
    {
      if frames[i].frame !in textures {
        return Err(FrameDataNotLoaded);
      }
      assert frames[..i + 1][..i] == frames[..i];
      box := Union(box, FrameRect(frames[i], textures[frames[i].frame]));
    }
    assert frames[..|frames|] == frames;
    return Ok(box);
  }
}
