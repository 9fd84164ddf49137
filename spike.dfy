/** objects/spike.py: the spike's outer and inner triangles and its collision rectangle. */
module Spikes {
  import opened Config
  import opened Geometry

  type Point = (int, int)

  /** An upward-pointing triangle: apex first, then base-left and base-right on one line below it,
      symmetric about the apex's x. */
  predicate Upright(p: seq<Point>)
  {
    && |p| == 3
    && p[1].0 + p[2].0 == 2 * p[0].0
    && p[1].0 <= p[0].0 <= p[2].0
    && p[1].1 == p[2].1
    && p[0].1 <= p[1].1
  }

  /** `outer_points` after update_size on a screen of sw x sh pixels. */
  function OuterTriangle(x: int, y: int, sw: nat, sh: nat): (p: seq<Point>)
    ensures Upright(p)
  {
    var cx := Scale(x as real, sw, ScreenWidth);
    var cy := Scale(y as real, sh, ScreenHeight);
    var w := Scale(SpikeOuterWidth as real, sw, ScreenWidth);
    var h := Scale(SpikeOuterHeight as real, sh, ScreenHeight);
    [(cx, cy - h / 2), (cx - w / 2, cy + h / 2), (cx + w / 2, cy + h / 2)]
  }

  /** `inner_points` after update_size: from the 55 px inner size, apex 2 px lower and base
      corners 2 px further in. */
  function InnerTriangle(x: int, y: int, sw: nat, sh: nat): (p: seq<Point>)
    ensures |p| == 3 && p[1].0 + p[2].0 == 2 * p[0].0 && p[1].1 == p[2].1
  {
    var cx := Scale(x as real, sw, ScreenWidth);
    var cy := Scale(y as real, sh, ScreenHeight);
    var w := Scale(SpikeInnerWidth as real, sw, ScreenWidth);
    var h := Scale(SpikeInnerHeight as real, sh, ScreenHeight);
    [(cx, cy - h / 2 + 2), (cx + 2 - w / 2, cy + h / 2), (cx - 2 + w / 2, cy + h / 2)]
  }

  /** get_collision_rect: left from the base-left vertex, top from the apex, size NOT rescaled. */
  function CollisionRectOf(points: seq<Point>): Rect
    requires |points| >= 2
  {
    Rect(points[1].0, points[0].1, SpikeOuterWidth, SpikeOuterHeight)
  }

  /** p lies in r, its right and bottom edges included. */
  predicate Covers(r: Rect, p: Point)
  {
    r.left <= p.0 <= r.Right() && r.top <= p.1 <= r.Bottom()
  }

  /** Which vertices of an upright triangle the unscaled 60 x 60 collision rectangle holds: the
      apex while the triangle is at most 120 px wide, the base-left vertex while it is at most
      60 px tall, and the base-right vertex only while it is at most 60 px in both directions. */
  lemma RectCoversUpright(t: seq<Point>)
    requires Upright(t)
    ensures var r, width, height := CollisionRectOf(t), t[2].0 - t[1].0, t[1].1 - t[0].1;
            && (Covers(r, t[0]) <==> width <= 2 * SpikeOuterWidth)
            && (Covers(r, t[1]) <==> height <= SpikeOuterHeight)
            && (Covers(r, t[2]) <==> width <= SpikeOuterWidth && height <= SpikeOuterHeight)
  {
  }

  /** The outer triangle on a screen of sw x sh pixels spans twice the halved scaled size. */
  lemma {:induction false} OuterTriangleExtent(x: int, y: int, sw: nat, sh: nat)
    ensures var t := OuterTriangle(x, y, sw, sh);
            && t[2].0 - t[1].0 == 2 * (Scale(SpikeOuterWidth as real, sw, ScreenWidth) / 2)
            && t[1].1 - t[0].1 == 2 * (Scale(SpikeOuterHeight as real, sh, ScreenHeight) / 2)
  {
  }

  /** On every screen the rectangle holds the apex while the scaled outer width W is at most
      121, the base-left vertex while the scaled height H is at most 61, and the base-right
      vertex exactly when both are at most 61 (pixel halves are rounded down). */
  lemma {:induction false} CollisionRectOnScreen(x: int, y: int, sw: nat, sh: nat)
    ensures var t := OuterTriangle(x, y, sw, sh);
            var r := CollisionRectOf(t);
            var w, h := Scale(SpikeOuterWidth as real, sw, ScreenWidth), Scale(SpikeOuterHeight as real, sh, ScreenHeight);
            && (Covers(r, t[0]) <==> w <= 121)
            && (Covers(r, t[1]) <==> h <= 61)
            && (Covers(r, t[2]) <==> w <= 61 && h <= 61)
  {
    OuterTriangleExtent(x, y, sw, sh);
    RectCoversUpright(OuterTriangle(x, y, sw, sh));
  }

  /** Scaling a non-negative length onto an axis no longer than the design never enlarges it. */
  lemma ScaleShrinks(v: nat, size: nat, design: int)
    requires 0 < design && size <= design
    ensures Scale(v as real, size, design) <= v
  {
    var q := size as real / design as real;
    assert q <= 1.0;
    assert v as real * q <= v as real * 1.0 by {
      NonNegProduct(v as real, 1.0 - q);
    }
  }

  /** On a window no larger than 1600 x 900 the collision rectangle holds all three vertices. */
  lemma {:induction false} SmallScreenRectCovers(x: int, y: int, sw: nat, sh: nat)
    requires sw <= ScreenWidth && sh <= ScreenHeight
    ensures var t := OuterTriangle(x, y, sw, sh);
            Covers(CollisionRectOf(t), t[0]) && Covers(CollisionRectOf(t), t[1]) && Covers(CollisionRectOf(t), t[2])
  {
    CollisionRectOnScreen(x, y, sw, sh);
    ScaleShrinks(SpikeOuterWidth, sw, ScreenWidth);
    ScaleShrinks(SpikeOuterHeight, sh, ScreenHeight);
  }

  /** From 1654 px wide on, the scaled triangle is at least 62 px wide and its base-right corner
      sticks out of the unscaled rectangle: collisions there are missed. */
  lemma {:induction false} WideScreenMissesCorner(x: int, y: int, sw: nat, sh: nat)
    requires sw >= 1654
    ensures var t := OuterTriangle(x, y, sw, sh);
            !Covers(CollisionRectOf(t), t[2])
  {
    CollisionRectOnScreen(x, y, sw, sh);
    var q := sw as real / ScreenWidth as real;
    assert q >= 1654.0 / 1600.0;
    assert SpikeOuterWidth as real * q >= 62.0 by {
      NonNegProduct(SpikeOuterWidth as real, q - 1654.0 / 1600.0);
    }
    TruncBetween(SpikeOuterWidth as real * q, 62, SpikeOuterWidth * sw);
  }

  /** At the design resolution the outer triangle has its apex 30 px above (x, y) and its base
      30 px below, 60 px wide. */
  lemma {:induction false} OuterTriangleAtDesign(x: int, y: int)
    ensures OuterTriangle(x, y, ScreenWidth, ScreenHeight) == [(x, y - 30), (x - 30, y + 30), (x + 30, y + 30)]
  {
    ScaleAtDesign(x as real, ScreenWidth);
    TruncOfInt(x);
    ScaleAtDesign(y as real, ScreenHeight);
    TruncOfInt(y);
    ScaleAtDesign(SpikeOuterWidth as real, ScreenWidth);
    TruncOfInt(SpikeOuterWidth);
    ScaleAtDesign(SpikeOuterHeight as real, ScreenHeight);
    TruncOfInt(SpikeOuterHeight);
  }

  lemma {:induction false} InnerTriangleAtDesign(x: int, y: int)
    ensures InnerTriangle(x, y, ScreenWidth, ScreenHeight) == [(x, y - 25), (x - 25, y + 27), (x + 25, y + 27)]
  {
    ScaleAtDesign(x as real, ScreenWidth);
    TruncOfInt(x);
    ScaleAtDesign(y as real, ScreenHeight);
    TruncOfInt(y);
    ScaleAtDesign(SpikeInnerWidth as real, ScreenWidth);
    TruncOfInt(SpikeInnerWidth);
    ScaleAtDesign(SpikeInnerHeight as real, ScreenHeight);
    TruncOfInt(SpikeInnerHeight);
  }

  /** Twice the signed area of (a, b, p): positive when p is left of a->b in screen coordinates. */
  function Cross(a: Point, b: Point, p: Point): int
  {
    (b.0 - a.0) * (p.1 - a.1) - (b.1 - a.1) * (p.0 - a.0)
  }

  /** p lies in the closed triangle t (all three edge tests agree in sign). */
  predicate InTriangle(p: Point, t: seq<Point>)
    requires |t| == 3
  {
    var c0, c1, c2 := Cross(t[0], t[1], p), Cross(t[1], t[2], p), Cross(t[2], t[0], p);
    (c0 >= 0 && c1 >= 0 && c2 >= 0) || (c0 <= 0 && c1 <= 0 && c2 <= 0)
  }

  /** At the design resolution the inner triangle is drawn inside the outer one. */
  lemma {:induction false} InnerInsideOuterAtDesign(x: int, y: int)
    ensures var o, i := OuterTriangle(x, y, ScreenWidth, ScreenHeight), InnerTriangle(x, y, ScreenWidth, ScreenHeight);
            InTriangle(i[0], o) && InTriangle(i[1], o) && InTriangle(i[2], o)
  {
    OuterTriangleAtDesign(x, y);
    InnerTriangleAtDesign(x, y);
  }

  /** At the design resolution the collision rectangle is the outer triangle's bounding box:
      every vertex lies in it (edges included) and it touches the apex and both base corners. */
  lemma {:induction false} CollisionRectBoundsTriangleAtDesign(x: int, y: int)
    ensures var t := OuterTriangle(x, y, ScreenWidth, ScreenHeight);
            var r := CollisionRectOf(t);
            && r == Rect(x - 30, y - 30, 60, 60)
            && (forall k :: 0 <= k < 3 ==> r.left <= t[k].0 <= r.Right() && r.top <= t[k].1 <= r.Bottom())
            && t[0].1 == r.top && t[1].0 == r.left && t[2].0 == r.Right() && t[1].1 == r.Bottom()
  {
    OuterTriangleAtDesign(x, y);
  }

  class Spike {
    const x: int
    const y: int
    const outerWidth: int := SpikeOuterWidth
    const outerHeight: int := SpikeOuterHeight
    const innerWidth: int := SpikeInnerWidth
    const innerHeight: int := SpikeInnerHeight
    var outerPoints: seq<Point>
    var innerPoints: seq<Point>

    /** Before the first update_size both vertex lists are empty. */
    ghost predicate Valid()
      reads this
    {
      outerPoints == [] || Upright(outerPoints)
    }

    constructor (x: int, y: int)
      ensures this.x == x && this.y == y
      ensures outerPoints == [] && innerPoints == []
      ensures Valid()
    {
      this.x := x;
      this.y := y;
      outerPoints := [];
      innerPoints := [];
    }

    method UpdateSize(sw: nat, sh: nat)
      modifies this`outerPoints, this`innerPoints
      ensures outerPoints == OuterTriangle(x, y, sw, sh)
      ensures innerPoints == InnerTriangle(x, y, sw, sh)
      ensures Valid()
    {
      var cx := Scale(x as real, sw, ScreenWidth);
      var cy := Scale(y as real, sh, ScreenHeight);
      var w := Scale(outerWidth as real, sw, ScreenWidth);
      var h := Scale(outerHeight as real, sh, ScreenHeight);
      outerPoints := [(cx, cy - h / 2), (cx - w / 2, cy + h / 2), (cx + w / 2, cy + h / 2)];
      var iw := Scale(innerWidth as real, sw, ScreenWidth);
      var ih := Scale(innerHeight as real, sh, ScreenHeight);
      innerPoints := [(cx, cy - ih / 2 + 2), (cx + 2 - iw / 2, cy + ih / 2), (cx - 2 + iw / 2, cy + ih / 2)];
    }

    /** Fails (IndexError in the source) until update_size has run. After it, the rectangle
        holds the apex, the base-left and the base-right vertex exactly under the conditions of
        RectCoversUpright. */
    function GetCollisionRect(): (r: Rect)
      reads this
      requires |outerPoints| >= 2
      ensures r == CollisionRectOf(outerPoints)
      ensures Valid() && |outerPoints| == 3 ==>
                var width, height := outerPoints[2].0 - outerPoints[1].0, outerPoints[1].1 - outerPoints[0].1;
                && (Covers(r, outerPoints[0]) <==> width <= 2 * outerWidth)
                && (Covers(r, outerPoints[1]) <==> height <= outerHeight)
                && (Covers(r, outerPoints[2]) <==> width <= outerWidth && height <= outerHeight)
    {
      Rect(outerPoints[1].0, outerPoints[0].1, outerWidth, outerHeight)
    }

    /** The outer vertices themselves: empty before the first update_size, an upright triangle
        after it. */
    function GetCollisionPoints(): (p: seq<Point>)
      reads this
      ensures p == outerPoints
      ensures Valid() ==> p == [] || Upright(p)
    {
      outerPoints
    }
  }
}
