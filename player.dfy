/** game/player.py: the player's kinematic state and its on-screen rectangles. */
module Players {
  import opened Config
  import opened Geometry

  /** The fields the physics reads and writes, as one value. */
  datatype Kinematics = Kinematics(x: real, y: real, velocityY: real, onGround: bool, rotation: int)

  /** Screen coordinate of a design coordinate `v` on an axis of `size` pixels designed as `design`. */
  function ScaleCoord(size: nat, v: real, design: int): (n: int)
    requires design > 0
    ensures 0.0 <= v ==> 0 <= n
  {
    var r := size as real * (v / design as real);
    assert 0.0 <= v ==> 0.0 <= r by {
      if 0.0 <= v { NonNegProduct(size as real, v / design as real); }
    }
    Trunc(r)
  }

  /** `outer_rect` as update_size builds it: the side follows the screen WIDTH. */
  function OuterRectAt(sw: nat, sh: nat, x: real, y: real): Rect
  {
    var side := ScaleCoord(sw, PlayerOuterSize as real, ScreenWidth);
    CenteredAt(ScaleCoord(sw, x, ScreenWidth), ScaleCoord(sh, y, ScreenHeight), side, side)
  }

  /** `inner_rect` as update_size builds it: the side follows the screen HEIGHT. */
  function InnerRectAt(sw: nat, sh: nat, x: real, y: real): Rect
  {
    var side := ScaleCoord(sh, PlayerInnerSize as real, ScreenHeight);
    CenteredAt(ScaleCoord(sw, x, ScreenWidth), ScaleCoord(sh, y, ScreenHeight), side, side)
  }

  /** Both rectangles are squares centred on the same scaled point, whatever the screen. */
  lemma RectsShareCentre(sw: nat, sh: nat, x: real, y: real)
    ensures OuterRectAt(sw, sh, x, y).CenterX() == InnerRectAt(sw, sh, x, y).CenterX()
    ensures OuterRectAt(sw, sh, x, y).CenterY() == InnerRectAt(sw, sh, x, y).CenterY()
    ensures OuterRectAt(sw, sh, x, y).w == OuterRectAt(sw, sh, x, y).h >= 0
    ensures InnerRectAt(sw, sh, x, y).w == InnerRectAt(sw, sh, x, y).h >= 0
  {
    var cx, cy := ScaleCoord(sw, x, ScreenWidth), ScaleCoord(sh, y, ScreenHeight);
    var so, si := ScaleCoord(sw, PlayerOuterSize as real, ScreenWidth), ScaleCoord(sh, PlayerInnerSize as real, ScreenHeight);
    assert OuterRectAt(sw, sh, x, y) == CenteredAt(cx, cy, so, so);
    assert InnerRectAt(sw, sh, x, y) == CenteredAt(cx, cy, si, si);
  }

  /** At the design resolution the outer square is 60x60 around (int(x), int(y)). */
  lemma {:induction false} OuterRectAtDesign(x: real, y: real)
    ensures OuterRectAt(ScreenWidth, ScreenHeight, x, y) == Rect(Trunc(x) - 30, Trunc(y) - 30, 60, 60)
    ensures OuterRectAt(ScreenWidth, ScreenHeight, x, y).Bottom() == Trunc(y) + 30
  {
    assert 1600.0 * (x / 1600.0) == x;
    assert 900.0 * (y / 900.0) == y;
    assert 1600.0 * (60.0 / 1600.0) == 60.0;
    TruncOfInt(60);
  }

  class Player {
    var x: real
    var y: real
    /** Set once from the configuration and never changed. */
    const outerSize: int := PlayerOuterSize
    const innerSize: int := PlayerInnerSize
    var outerRect: Rect
    var innerRect: Rect
    const speed: int := PlayerSpeed
    var velocityY: real
    var rotation: int
    var onGround: bool

    function Kin(): Kinematics
      reads this
    {
      Kinematics(x, y, velocityY, onGround, rotation)
    }

    /** Spawns standing on the configured floor, not yet marked grounded. */
    constructor ()
      ensures Kin() == Kinematics(PlayerStartX as real, (FloorY - PlayerOuterSize / 2) as real, 0.0, false, 0)
      ensures Kin() == Kinematics(120.0, 690.0, 0.0, false, 0)
      ensures outerRect == CenteredAt(120, 690, outerSize, outerSize) == Rect(90, 660, 60, 60)
      ensures innerRect == CenteredAt(120, 690, innerSize, innerSize)
      ensures outerRect.Bottom() == FloorY
    {
      x := PlayerStartX as real;
      y := (FloorY - PlayerOuterSize / 2) as real;
      outerRect := CenteredAt(PlayerStartX, FloorY - PlayerOuterSize / 2, PlayerOuterSize, PlayerOuterSize);
      innerRect := CenteredAt(PlayerStartX, FloorY - PlayerOuterSize / 2, PlayerInnerSize, PlayerInnerSize);
      velocityY := 0.0;
      rotation := 0;
      onGround := false;
    }

    /** Rebuilds both rectangles for a screen of sw x sh pixels; the kinematic state is untouched. */
    method UpdateSize(sw: nat, sh: nat)
      modifies this`outerRect, this`innerRect
      ensures outerRect == OuterRectAt(sw, sh, x, y)
      ensures innerRect == InnerRectAt(sw, sh, x, y)
    {
      var outerSide := ScaleCoord(sw, outerSize as real, ScreenWidth);
      var innerSide := ScaleCoord(sh, innerSize as real, ScreenHeight);
      var rectX := ScaleCoord(sw, x, ScreenWidth);
      var rectY := ScaleCoord(sh, y, ScreenHeight);
      outerRect := CenteredAt(rectX, rectY, outerSide, outerSide);
      innerRect := CenteredAt(rectX, rectY, innerSide, innerSide);
    }
  }
}
