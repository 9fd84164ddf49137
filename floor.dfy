/** game/floor.py: the ground line, kept as a ratio of the screen height. */
module Floors {
  import opened Config
  import opened Geometry

  /** `int(screen_height * floor_y_ratio)`. */
  function ScreenFloorY(sh: nat, ratio: real): int
  {
    Trunc(sh as real * ratio)
  }

  /** At the design height the floor is where it was constructed. */
  lemma ScreenFloorYAtDesign(y: int)
    ensures ScreenFloorY(ScreenHeight, y as real / ScreenHeight as real) == y
  {
    assert 900.0 * (y as real / 900.0) == y as real;
    TruncOfInt(y);
  }

  /** A taller screen never moves a floor of non-negative ratio up. */
  lemma ScreenFloorYMonotone(sh1: nat, sh2: nat, ratio: real)
    requires sh1 <= sh2 && 0.0 <= ratio
    ensures ScreenFloorY(sh1, ratio) <= ScreenFloorY(sh2, ratio)
  {
    assert sh1 as real * ratio <= sh2 as real * ratio by {
      MulMono(sh1 as real, sh2 as real, ratio);
    }
  }

  lemma MulMono(a: real, b: real, c: real)
    requires a <= b && 0.0 <= c
    ensures a * c <= b * c
  {
  }

  class Floor {
    /** Fixed at construction: no method changes it. */
    const floorYRatio: real
    var floorY: int
    var outerRect: Rect
    var innerRect: Rect

    constructor (y: int)
      requires y > 0
      ensures floorYRatio == y as real / ScreenHeight as real && floorY == y
      ensures outerRect == Rect(0, y, ScreenWidth, FloorOuterHeight)
      ensures innerRect == Rect(0, y, ScreenWidth, ScreenHeight - y)
      ensures innerRect.Bottom() == ScreenHeight
    {
      floorYRatio := y as real / ScreenHeight as real;
      floorY := y;
      var outer := Rect(0, y, ScreenWidth, FloorOuterHeight);
      outerRect := outer.(left := ScreenWidth / 2 - HalfTrunc(outer.w));
      var inner := Rect(0, y, ScreenWidth, ScreenHeight - y);
      innerRect := inner.(left := ScreenWidth / 2 - HalfTrunc(inner.w));
    }

    function GetScreenFloorY(sh: nat): int
    {
      ScreenFloorY(sh, floorYRatio)
    }

    /** Rescales the floor to a screen of sw x sh pixels; the dark band reaches the bottom edge. */
    method UpdateSize(sw: nat, sh: nat)
      modifies this`floorY, this`outerRect, this`innerRect
      ensures floorY == GetScreenFloorY(sh)
      ensures outerRect == Rect(0, floorY, sw, Trunc(sh as real * (FloorOuterHeight as real / ScreenHeight as real)))
      ensures innerRect == Rect(0, floorY, sw, sh - floorY)
      ensures innerRect.top == floorY && innerRect.Bottom() == sh
    {
      floorY := Trunc(sh as real * floorYRatio);
      var outerHeight := Trunc(sh as real * (FloorOuterHeight as real / ScreenHeight as real));
      var outer := Rect(0, floorY, sw, outerHeight);
      outerRect := outer.(left := sw / 2 - HalfTrunc(outer.w));
      var innerHeight := sh - floorY;
      var inner := Rect(0, floorY, sw, innerHeight);
      innerRect := inner.(left := sw / 2 - HalfTrunc(inner.w));
    }
  }
}
