/** pygame.Rect as an integer record, and Python's int() on a float. */
module Geometry {

  /** Python's int(r) for a float r: truncation toward zero. */
  function Trunc(r: real): (n: int)
    ensures r >= 0.0 ==> n as real <= r < n as real + 1.0
    ensures r < 0.0 ==> n as real - 1.0 < r <= n as real
  {
    if r >= 0.0 then r.Floor else -((-r).Floor)
  }

  /** A truncated value stays between two integers that bound the real it came from. */
  lemma TruncBetween(r: real, lo: int, hi: int)
    requires lo as real <= r <= hi as real
    ensures lo <= Trunc(r) <= hi
  {
  }

  lemma TruncOfInt(n: int)
    ensures Trunc(n as real) == n
  {
  }

  /** The product of two non-negative reals is non-negative (a hint the solver needs for
      non-linear products). */
  lemma NonNegProduct(a: real, b: real)
    requires 0.0 <= a && 0.0 <= b
    ensures 0.0 <= a * b
  {
  }

  lemma PositiveProduct(a: real, b: real)
    requires a > 0.0 && b > 0.0
    ensures a * b > 0.0
  {
  }

  /** `int(v * (size / design))`: a length or coordinate laid out for a `design`-pixel axis,
      placed on an axis of `size` pixels. */
  function Scale(v: real, size: nat, design: int): (n: int)
    requires design > 0
    ensures 0.0 <= v ==> 0 <= n
  {
    var r := v * (size as real / design as real);
    assert 0.0 <= v ==> 0.0 <= r by {
      if 0.0 <= v { NonNegProduct(v, size as real / design as real); }
    }
    Trunc(r)
  }

  /** At the design size scaling is plain truncation. */
  lemma ScaleAtDesign(v: real, design: int)
    requires design > 0
    ensures Scale(v, design, design) == Trunc(v)
  {
    assert design as real / design as real == 1.0;
  }

  /** Scaling that comes out even: v * size == n * design gives exactly n. */
  lemma ScaleExact(v: int, size: nat, design: int, n: int)
    requires design > 0 && v * size == n * design
    ensures Scale(v as real, size, design) == n
  {
    var d := design as real;
    calc {
      v as real * (size as real / d);
      (v as real * size as real) / d;
      (v * size) as real / d;
      (n * design) as real / d;
      n as real;
    }
    TruncOfInt(n);
  }

  function Min(a: int, b: int): int { if a <= b then a else b }
  function Max(a: int, b: int): int { if a <= b then b else a }

  /** C's n / 2, which pygame uses when a rectangle is placed by its centre. */
  function HalfTrunc(n: int): (h: int)
    ensures n >= 0 ==> 2 * h <= n <= 2 * h + 1
    ensures n < 0 ==> 2 * h - 1 <= n <= 2 * h
  {
    if n >= 0 then n / 2 else -((-n) / 2)
  }

  /** pygame.Rect(left, top, w, h). */
  datatype Rect = Rect(left: int, top: int, w: int, h: int) {
    function Right(): int { left + w }
    function Bottom(): int { top + h }
    function CenterX(): int { left + HalfTrunc(w) }
    function CenterY(): int { top + HalfTrunc(h) }
  }

  /** A w-by-h rectangle after `rect.center = (cx, cy)`. */
  function CenteredAt(cx: int, cy: int, w: int, h: int): (r: Rect)
    ensures r.w == w && r.h == h
    ensures r.CenterX() == cx && r.CenterY() == cy
  {
    Rect(cx - HalfTrunc(w), cy - HalfTrunc(h), w, h)
  }

  /** `a.colliderect(b)`: strict overlap on both axes; empty rectangles never collide. */
  predicate Collide(a: Rect, b: Rect)
  {
    && a.w > 0 && a.h > 0 && b.w > 0 && b.h > 0
    && a.left < b.Right() && b.left < a.Right()
    && a.top < b.Bottom() && b.top < a.Bottom()
  }

  /** `r.collidepoint((px, py))`: the right and bottom edges are outside. */
  predicate ContainsPoint(r: Rect, px: int, py: int)
  {
    r.left <= px < r.Right() && r.top <= py < r.Bottom()
  }

  lemma CollideSymmetric(a: Rect, b: Rect)
    ensures Collide(a, b) <==> Collide(b, a)
  {
  }

  /** Rectangles that only touch along an edge do not collide. */
  lemma TouchingDoesNotCollide(a: Rect, b: Rect)
    requires a.Right() == b.left || a.Bottom() == b.top
    ensures !Collide(a, b)
  {
  }

  /** Two non-empty rectangles that share an interior point collide. */
  lemma SharedPointCollides(a: Rect, b: Rect, px: int, py: int)
    requires ContainsPoint(a, px, py) && ContainsPoint(b, px, py)
    ensures Collide(a, b)
  {
  }
}
