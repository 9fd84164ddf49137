/** game/engine.py: gravity, landing on the floor, jumping, resetting and the game-over test. */
module Physics {
  import opened Config
  import opened Geometry
  import opened Players
  import opened Floors

  const Gravity: real := 4500.0
  const JumpForce: real := -1350.0
  const ResetX: real := 100.0

  /** Gravity rescaled to the display height, so that play feels the same at any window size. */
  function ScaledGravity(sh: nat): real
  {
    Gravity * (sh as real / ScreenHeight as real)
  }

  function ScaledJumpForce(sh: nat): real
  {
    JumpForce * (sh as real / ScreenHeight as real)
  }

  /** One frame of free fall: gravity into the velocity, then the velocity into y. */
  function Fall(k: Kinematics, sh: nat, dt: real): Kinematics
  {
    var v := k.velocityY + ScaledGravity(sh) * dt;
    k.(velocityY := v, y := k.y + v * dt)
  }

  /** What update_player does to the kinematic state. `rectHeight` is the height of outer_rect
      BEFORE the rectangles are rebuilt; the landing test reads them AFTER, at the fallen position. */
  function Step(k: Kinematics, rectHeight: int, sw: nat, sh: nat, floorRatio: real, dt: real): Kinematics
  {
    var f := Fall(k, sh, dt);
    var floorY := ScreenFloorY(sh, floorRatio);
    if OuterRectAt(sw, sh, f.x, f.y).Bottom() >= floorY then
      f.(y := floorY as real - rectHeight as real / 2.0, velocityY := 0.0, onGround := true)
    else
      f.(onGround := false)
  }

  /** update_player as written: it calls `player.update_size(screen, self.floor)`, one argument
      more than Player.update_size accepts, so every call raises TypeError once gravity and the
      move are applied and before the landing test. This is the state the exception leaves. */
  function StepAsWritten(k: Kinematics, sh: nat, dt: real): (r: Kinematics)
    ensures r.onGround == k.onGround && r.x == k.x && r.rotation == k.rotation
  {
    Fall(k, sh, dt)
  }

  /** player_jump: only from the ground; flips the square by half a turn. */
  function Jump(k: Kinematics, sh: nat): Kinematics
  {
    if k.onGround then
      k.(velocityY := ScaledJumpForce(sh), onGround := false, rotation := (k.rotation + 180) % 360)
    else
      k
  }

  /** reset_player: back to x = 100 with the centre (not the bottom) on the floor line. */
  function ResetState(floorY: int): Kinematics
  {
    Kinematics(ResetX, floorY as real, 0.0, true, 0)
  }

  /** is_game_over: fell below the design screen height, or overlaps an obstacle. */
  predicate GameOver(y: real, outer: Rect, obstacles: seq<Rect>)
  {
    y > ScreenHeight as real || exists i :: 0 <= i < |obstacles| && Collide(outer, obstacles[i])
  }

  // ---------------------------------------------------------------- properties of the step

  /** Gravity only ever pushes the velocity down the screen (for a visible window). */
  lemma GravityAccelerates(k: Kinematics, sh: nat, dt: real)
    requires sh > 0 && dt > 0.0
    ensures Fall(k, sh, dt).velocityY > k.velocityY
    ensures sh == ScreenHeight ==> Fall(k, sh, dt).velocityY == k.velocityY + 4500.0 * dt
  {
    assert ScaledGravity(sh) > 0.0;
    PositiveProduct(ScaledGravity(sh), dt);
  }

  /** The landing rule: grounded exactly when the rebuilt bottom edge reaches or passes the
      screen floor; then the velocity is zero and y is the floor less half the old rect height;
      otherwise the fall is kept. x and rotation never change. */
  lemma LandingRule(k: Kinematics, rectHeight: int, sw: nat, sh: nat, floorRatio: real, dt: real)
    ensures var r := Step(k, rectHeight, sw, sh, floorRatio, dt);
            var f := Fall(k, sh, dt);
            && (r.onGround <==> OuterRectAt(sw, sh, k.x, f.y).Bottom() >= ScreenFloorY(sh, floorRatio))
            && (r.onGround ==> r.velocityY == 0.0 && r.y == ScreenFloorY(sh, floorRatio) as real - rectHeight as real / 2.0)
            && (!r.onGround ==> r.y == f.y && r.velocityY == f.velocityY)
            && r.x == k.x && r.rotation == k.rotation
  {
  }

  /** The design-resolution floor made from FLOOR_Y. */
  const DesignFloorRatio: real := FloorY as real / ScreenHeight as real

  lemma DesignFloor()
    ensures ScreenFloorY(ScreenHeight, DesignFloorRatio) == FloorY
  {
    ScreenFloorYAtDesign(FloorY);
  }

  /** A player resting on the floor (bottom edge on FLOOR_Y) stays there frame after frame. */
  lemma {:induction false} RestingIsStable(k: Kinematics, dt: real)
    requires k.y == 690.0 && k.velocityY == 0.0 && dt > 0.0
    ensures Step(k, PlayerOuterSize, ScreenWidth, ScreenHeight, DesignFloorRatio, dt) == k.(onGround := true)
  {
    var f := Fall(k, ScreenHeight, dt);
    PositiveProduct(4500.0 * dt, dt);
    assert f.y == 690.0 + 4500.0 * dt * dt;
    assert f.y >= 690.0;
    OuterRectAtDesign(f.x, f.y);
    assert Trunc(f.y) >= 690;
    DesignFloor();
  }

  /** reset_player leaves the player half sunk into the floor; the next frame puts it back on top. */
  lemma {:induction false} ResetThenStepLands(dt: real)
    requires dt > 0.0
    ensures var r := Step(ResetState(FloorY), PlayerOuterSize, ScreenWidth, ScreenHeight, DesignFloorRatio, dt);
            r == Kinematics(ResetX, 690.0, 0.0, true, 0)
  {
    var f := Fall(ResetState(FloorY), ScreenHeight, dt);
    PositiveProduct(4500.0 * dt, dt);
    assert f.y == 720.0 + 4500.0 * dt * dt;
    OuterRectAtDesign(f.x, f.y);
    assert Trunc(f.y) >= 720;
    DesignFloor();
  }

  /** As written the first frame after a reset never reaches the landing test: the player is left
      sinking below the floor line, still marked grounded, where the intended step stands it on
      top of the floor. */
  lemma {:induction false} StepAsWrittenSinks(dt: real)
    requires dt > 0.0
    ensures var r := StepAsWritten(ResetState(FloorY), ScreenHeight, dt);
            r.onGround && r.y > FloorY as real && r.velocityY > 0.0
    ensures StepAsWritten(ResetState(FloorY), ScreenHeight, dt)
            != Step(ResetState(FloorY), PlayerOuterSize, ScreenWidth, ScreenHeight, DesignFloorRatio, dt)
  {
    var f := Fall(ResetState(FloorY), ScreenHeight, dt);
    var v := 4500.0 * dt;
    PositiveProduct(v, dt);
    assert f.velocityY == v && f.y == 720.0 + v * dt;
    ResetThenStepLands(dt);
  }

  /** A jump from rest really leaves the ground on the next frame (for any frame shorter than
      the 0.3 s it takes gravity to cancel the jump). */
  lemma {:induction false} JumpLeavesGround(k: Kinematics, dt: real)
    requires k.onGround && k.y == 690.0 && 0.0 < dt < 0.3
    ensures var r := Step(Jump(k, ScreenHeight), PlayerOuterSize, ScreenWidth, ScreenHeight, DesignFloorRatio, dt);
            !r.onGround && r.y < 690.0 && r.velocityY < 0.0
  {
    var j := Jump(k, ScreenHeight);
    assert j.velocityY == -1350.0;
    var f := Fall(j, ScreenHeight, dt);
    var v := -1350.0 + 4500.0 * dt;
    assert f.velocityY == v;
    assert v < 0.0;
    PositiveProduct(-v, dt);
    assert f.y == 690.0 + v * dt;
    assert f.y < 690.0;
    assert v * dt >= -1350.0 * dt by { MulMono(-1350.0, v, dt); }
    assert f.y > 0.0;
    OuterRectAtDesign(f.x, f.y);
    assert Trunc(f.y) <= 689;
    DesignFloor();
  }

  // ---------------------------------------------------------------- properties of the jump

  /** Airborne, a jump is refused; a granted jump leaves the player airborne, so no double jump. */
  lemma NoDoubleJump(k: Kinematics, sh: nat)
    ensures !k.onGround ==> Jump(k, sh) == k
    ensures !Jump(k, sh).onGround
    ensures Jump(Jump(k, sh), sh) == Jump(k, sh)
  {
  }

  /** A granted jump points the velocity up the screen and keeps x and y. */
  lemma JumpGoesUp(k: Kinematics, sh: nat)
    requires k.onGround && sh > 0
    ensures Jump(k, sh).velocityY < 0.0
    ensures Jump(k, sh).x == k.x && Jump(k, sh).y == k.y
    ensures sh == ScreenHeight ==> Jump(k, sh).velocityY == JumpForce
  {
  }

  /** The rotation stays a multiple-of-180 angle in [0, 360): two granted jumps undo each other. */
  lemma JumpRotation(k: Kinematics, sh: nat)
    requires k.onGround && 0 <= k.rotation < 360
    ensures 0 <= Jump(k, sh).rotation < 360
    ensures var j := Jump(k, sh); Jump(j.(onGround := true), sh).rotation == k.rotation
  {
  }

  // ---------------------------------------------------------------- the engine object

  class Engine {
    const floor: Floor
    const gravity: real := Gravity
    const jumpForce: real := JumpForce
    const originalScreenHeight: int := ScreenHeight
    const originalScreenWidth: int := ScreenWidth

    constructor (floor: Floor)
      ensures this.floor == floor
    {
      this.floor := floor;
    }

    /** _check_player_coherence: the square is not below the floor line. */
    predicate CheckPlayerCoherence(player: Player)
      reads player, floor
    {
      player.outerRect.Bottom() <= floor.floorY
    }

    predicate CheckPlayerCollisionWithObject(player: Player, obstacle: Rect)
      reads player
    {
      Collide(player.outerRect, obstacle)
    }

    predicate CheckPlayerCollisionWithFloor(player: Player, sh: nat)
      reads player
    {
      player.outerRect.Bottom() >= floor.GetScreenFloorY(sh)
    }

    /** `displayHeight` is what pygame.display.get_surface() reports. */
    method ApplyGravity(player: Player, dt: real, displayHeight: nat)
      requires dt > 0.0
      modifies player`velocityY
      ensures player.velocityY == old(player.velocityY) + ScaledGravity(displayHeight) * dt
    {
      var scaledGravity := gravity * (displayHeight as real / originalScreenHeight as real);
      player.velocityY := player.velocityY + scaledGravity * dt;
    }

    /** update_player on a screen of sw x sh pixels, which is also the display gravity reads. */
    method UpdatePlayer(player: Player, dt: real, sw: nat, sh: nat)
      requires dt > 0.0
      modifies player
      ensures player.Kin() == Step(old(player.Kin()), old(player.outerRect.h), sw, sh, floor.floorYRatio, dt)
      ensures var f := Fall(old(player.Kin()), sh, dt);
              player.outerRect == OuterRectAt(sw, sh, f.x, f.y) && player.innerRect == InnerRectAt(sw, sh, f.x, f.y)
    {
      ghost var f := Fall(player.Kin(), sh, dt);
      ApplyGravity(player, dt, sh);
      player.y := player.y + player.velocityY * dt;
      assert player.Kin() == f;
      var floorYScreen := floor.GetScreenFloorY(sh);
      var groundY := floorYScreen as real - player.outerRect.h as real / 2.0;
      player.UpdateSize(sw, sh);
      assert player.outerRect == OuterRectAt(sw, sh, f.x, f.y);
      if CheckPlayerCollisionWithFloor(player, sh) {
        player.y := groundY;
        player.velocityY := 0.0;
        player.onGround := true;
      } else {
        player.onGround := false;
      }
    }

    method PlayerJump(player: Player, displayHeight: nat)
      modifies player`velocityY, player`onGround, player`rotation
      ensures player.Kin() == Jump(old(player.Kin()), displayHeight)
    {
      if player.onGround {
        var scaledJumpForce := jumpForce * (displayHeight as real / originalScreenHeight as real);
        player.velocityY := scaledJumpForce;
        player.onGround := false;
        player.rotation := (player.rotation + 180) % 360;
      }
    }

    /** Checks the fall first, then every obstacle in order. */
    method IsGameOver(player: Player, obstacles: seq<Rect>) returns (over: bool)
      ensures over <==> GameOver(player.y, player.outerRect, obstacles)
    {
      if player.y > ScreenHeight as real {
        return true;
      }
      var i := 0;
      while i < |obstacles|
        invariant 0 <= i <= |obstacles|
        invariant forall j :: 0 <= j < i ==> !Collide(player.outerRect, obstacles[j])
      {
        if CheckPlayerCollisionWithObject(player, obstacles[i]) {
          return true;
        }
        i := i + 1;
      }
      return false;
    }

    method ResetPlayer(player: Player)
      modifies player`x, player`y, player`velocityY, player`rotation, player`onGround
      ensures player.Kin() == ResetState(floor.floorY)
    {
      player.x := ResetX;
      player.y := floor.floorY as real;
      player.velocityY := 0.0;
      player.rotation := 0;
      player.onGround := true;
    }
  }
}
