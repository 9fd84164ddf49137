/** ui/slider.py: a horizontal slider whose handle is dragged between two track bounds. The
    mouse x position, which the source asks pygame for while dragging, is passed in. */
module Sliders {
  import opened Config
  import opened Geometry
  import opened Colors
  import opened Events

  /** The left and right limits of the handle's centre on a track `outer`, for a handle
      `handleSize` pixels wide: 10 px of margin past half a handle at each end. */
  function TrackBounds(outer: Rect, handleSize: int): (b: (int, int))
    ensures b.1 - b.0 == outer.w - 2 * (handleSize / 2) - 20
  {
    (outer.left + handleSize / 2 + 10, outer.Right() - handleSize / 2 - 10)
  }

  /** The relative position set by a drag with the cursor at `mouseX`: the cursor clamped to the
      track, as a fraction of it. A degenerate track (`minX == maxX`) divides by zero. */
  function DragPosition(mouseX: int, minX: int, maxX: int): (r: real)
    requires minX != maxX
    ensures 0.0 <= r <= 1.0
    ensures minX < maxX ==> (r == 0.0 <==> mouseX <= minX) && (r == 1.0 <==> maxX <= mouseX)
    ensures maxX < minX ==> r == 0.0
  {
    var clamped := Max(minX, Min(mouseX, maxX));
    (clamped - minX) as real / (maxX - minX) as real
  }

  /** Moving the cursor right never moves the handle left. */
  lemma DragMonotone(m1: int, m2: int, minX: int, maxX: int)
    requires minX != maxX && m1 <= m2
    ensures DragPosition(m1, minX, maxX) <= DragPosition(m2, minX, maxX)
  {
    if minX < maxX {
      var c1, c2 := Max(minX, Min(m1, maxX)), Max(minX, Min(m2, maxX));
      var d := (maxX - minX) as real;
      assert (c2 - minX) as real / d - (c1 - minX) as real / d == (c2 - c1) as real / d;
    }
  }

  /** The value shown for a relative position. */
  function SliderValue(minVal: real, maxVal: real, rel: real): real
  {
    minVal + rel * (maxVal - minVal)
  }

  /** The value stays in range; it is the minimum exactly at the left end and the maximum exactly
      at the right end. */
  lemma ValueInRange(minVal: real, maxVal: real, rel: real)
    requires minVal < maxVal && 0.0 <= rel <= 1.0
    ensures minVal <= SliderValue(minVal, maxVal, rel) <= maxVal
    ensures SliderValue(minVal, maxVal, rel) == minVal <==> rel == 0.0
    ensures SliderValue(minVal, maxVal, rel) == maxVal <==> rel == 1.0
  {
    var d := maxVal - minVal;
    NonNegProduct(rel, d);
    NonNegProduct(1.0 - rel, d);
    assert SliderValue(minVal, maxVal, rel) == maxVal - (1.0 - rel) * d;
    if rel != 0.0 {
      assert rel * d > 0.0 by { assert rel > 0.0; PositiveProduct(rel, d); }
    }
    if rel != 1.0 {
      assert (1.0 - rel) * d > 0.0 by { PositiveProduct(1.0 - rel, d); }
    }
  }

  lemma FractionBounds(a: real, d: real)
    requires 0.0 <= a <= d && 0.0 < d
    ensures 0.0 <= a / d <= 1.0
  {
  }

  /** The x of the handle's centre that _update_size draws for a relative position. */
  function HandleX(minX: int, maxX: int, rel: real): (r: int)
    ensures 0.0 <= rel <= 1.0 && minX <= maxX ==> minX <= r <= maxX
  {
    var p := minX as real + rel * (maxX - minX) as real;
    assert 0.0 <= rel <= 1.0 && minX <= maxX ==> minX as real <= p <= maxX as real by {
      if 0.0 <= rel <= 1.0 && minX <= maxX {
        NonNegProduct(rel, (maxX - minX) as real);
        NonNegProduct(1.0 - rel, (maxX - minX) as real);
      }
    }
    assert 0.0 <= rel <= 1.0 && minX <= maxX ==> minX <= Trunc(p) <= maxX by {
      if 0.0 <= rel <= 1.0 && minX <= maxX {
        TruncBetween(p, minX, maxX);
      }
    }
    Trunc(p)
  }

  /** Drag then redraw: the handle is drawn right under a cursor inside the track. */
  lemma HandleFollowsCursor(mouseX: int, minX: int, maxX: int)
    requires minX < maxX && minX <= mouseX <= maxX
    ensures HandleX(minX, maxX, DragPosition(mouseX, minX, maxX)) == mouseX
  {
    var d := (maxX - minX) as real;
    var rel := DragPosition(mouseX, minX, maxX);
    assert rel == (mouseX - minX) as real / d;
    assert rel * d == (mouseX - minX) as real;
    assert minX as real + rel * d == mouseX as real;
    TruncOfInt(mouseX);
  }

  class Slider {
    const x: int
    const y: int
    const width: int
    const height: int
    const minVal: real
    const maxVal: real
    const color: Color
    const innerColor: Color
    const sliderSize: real
    var value: real
    var dragging: bool
    var relativePosition: real
    var outerRect: Rect
    var innerRect: Rect
    var sliderRect: Rect

    /** The position is a fraction of the track and the value follows it. */
    predicate Valid()
      reads this
    {
      && minVal < maxVal
      && 0.0 <= relativePosition <= 1.0
      && value == SliderValue(minVal, maxVal, relativePosition)
    }

    constructor (x: int, y: int, width: int, height: int, minVal: real, maxVal: real,
                 startVal: real, color: Color)
      requires width > 0 && height > 0
      requires minVal < maxVal && minVal <= startVal <= maxVal
      requires ValidColor(color)
      ensures this.x == x && this.y == y && this.width == width && this.height == height
      ensures this.minVal == minVal && this.maxVal == maxVal && this.color == color
      ensures Valid() && value == startVal && !dragging
      ensures relativePosition == (startVal - minVal) / (maxVal - minVal)
      ensures innerColor == Brighten(color, 1.2) && sliderSize == height as real * 0.6
      ensures outerRect == Rect(0, 0, width, height) && innerRect == outerRect
      ensures sliderRect == Rect(0, 0, Trunc(sliderSize), Trunc(sliderSize))
    {
      this.x, this.y := x, y;
      this.width, this.height := width, height;
      this.minVal, this.maxVal := minVal, maxVal;
      value := startVal;
      this.color := color;
      innerColor := Brighten(color, 1.2);
      sliderSize := height as real * 0.6;
      dragging := false;
      var rel := (startVal - minVal) / (maxVal - minVal);
      assert rel * (maxVal - minVal) == startVal - minVal;
      FractionBounds(startVal - minVal, maxVal - minVal);
      relativePosition := rel;
      outerRect := Rect(0, 0, width, height);
      innerRect := Rect(0, 0, width, height);
      sliderRect := Rect(0, 0, Trunc(height as real * 0.6), Trunc(height as real * 0.6));
    }

    /** is_hovered: the cursor is on the handle. */
    predicate IsHovered(mx: int, my: int)
      reads this
    {
      ContainsPoint(sliderRect, mx, my)
    }

    /** handle_event. A left press on the handle starts a drag and a left release ends it; while
        dragging, any other event moves the handle to the cursor. `ok` is false where the source
        raises ZeroDivisionError (a track with no room), and nothing changes then. */
    method HandleEvent(ev: Event, mouseX: int) returns (ok: bool)
      requires Valid()
      modifies this`dragging, this`relativePosition, this`value
      ensures Valid()
      ensures IsLeftDown(ev) ==> ok && dragging == (old(dragging) || old(IsHovered(ev.x, ev.y)))
                                 && relativePosition == old(relativePosition)
      ensures IsLeftUp(ev) ==> ok && !dragging && relativePosition == old(relativePosition)
      ensures !IsLeftDown(ev) && !IsLeftUp(ev) ==>
                var (minX, maxX) := TrackBounds(outerRect, sliderRect.w);
                && dragging == old(dragging)
                && ok == (!dragging || minX != maxX)
                && relativePosition == (if dragging && ok then DragPosition(mouseX, minX, maxX)
                                        else old(relativePosition))
    {
      ok := true;
      if IsLeftDown(ev) {
        if IsHovered(ev.x, ev.y) {
          dragging := true;
        }
      } else if IsLeftUp(ev) {
        dragging := false;
      } else if dragging {
        var (minX, maxX) := TrackBounds(outerRect, sliderRect.w);
        if minX == maxX {
          ok := false;
          return;
        }
        relativePosition := DragPosition(mouseX, minX, maxX);
        value := SliderValue(minVal, maxVal, relativePosition);
      }
    }

    /** _update_size: the track, its inner bar and the handle for a `sw` x `sh` screen. */
    method UpdateSize(sw: nat, sh: nat)
      requires Valid()
      modifies this`outerRect, this`innerRect, this`sliderRect
      ensures Valid()
      ensures var cx, cy := Scale(x as real, sw, ScreenWidth), Scale(y as real, sh, ScreenHeight);
              var ow, oh := Scale(width as real, sw, ScreenWidth), Scale(height as real, sh, ScreenHeight);
              var s := Scale(sliderSize, sh, ScreenHeight);
              && outerRect == CenteredAt(cx, cy, ow, oh)
              && innerRect == CenteredAt(cx, cy, ow - s, oh - s)
              && sliderRect.w == s && sliderRect.h == s
              && sliderRect.CenterY() == cy
      ensures var (minX, maxX) := TrackBounds(outerRect, sliderRect.w);
              && sliderRect.CenterX() == HandleX(minX, maxX, relativePosition)
              && (minX <= maxX ==> minX <= sliderRect.CenterX() <= maxX)
    {
      var ow := Scale(width as real, sw, ScreenWidth);
      var oh := Scale(height as real, sh, ScreenHeight);
      var s := Scale(sliderSize, sh, ScreenHeight);
      var cx := Scale(x as real, sw, ScreenWidth);
      var cy := Scale(y as real, sh, ScreenHeight);
      outerRect := CenteredAt(cx, cy, ow, oh);
      innerRect := CenteredAt(cx, cy, ow - s, oh - s);
      var (minX, maxX) := TrackBounds(outerRect, s);
      sliderRect := CenteredAt(HandleX(minX, maxX, relativePosition), outerRect.CenterY(), s, s);
    }
  }
}
