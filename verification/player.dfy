// src/entities/Player.js: the runner's jump/death state machine.
// The physics engine (gravity, body integration) moves `y` and `vy` between
// frames; it is not part of this model. Screen coordinates grow downwards,
// so "above the ground" is `y < GroundY`.
module Players {

  const GroundY: real := 260.0
  const JumpForce: real := -450.0
  const RunX: real := 100.0

  class Player {
    var x: real
    var y: real
    var vx: real
    var vy: real
    var isJumping: bool
    var isDead: bool
    // `body.enable` and `body.allowGravity`, which the source always sets together
    var bodyEnabled: bool

    /** The constructor's position is overridden by `init`. */
    constructor (x0: real, y0: real)
      ensures !isJumping && !isDead && bodyEnabled
      ensures x == RunX && y == GroundY && vx == 0.0 && vy == 0.0
    {
      x, y := x0, y0;
      new;
      Init();
    }

    /** Resets every state flag, re-enables physics and puts the player at its start point. */
    method Init()
      modifies this
      ensures !isJumping && !isDead && bodyEnabled
      ensures x == RunX && y == GroundY && vx == 0.0 && vy == 0.0
    {
      isJumping := false;
      isDead := false;
      bodyEnabled := true;
      x, y := RunX, GroundY;
      vx, vy := 0.0, 0.0;
    }

    /** Only a live player on the ground jumps; a second call while airborne changes nothing. */
    method Jump()
      modifies this
      ensures old(!isJumping && !isDead) ==> isJumping && vy == JumpForce
      ensures old(isJumping || isDead) ==> vy == old(vy) && isJumping == old(isJumping)
      ensures isDead == old(isDead) && x == old(x) && y == old(y) && vx == old(vx)
      ensures bodyEnabled == old(bodyEnabled)
    {
      if !isJumping && !isDead {
        isJumping := true;
        vy := JumpForce;
      }
    }

    /** `lives` is the scene's life count. With no lives left the player dies on the ground. */
    method Hit(lives: int)
      modifies this
      ensures old(!isDead) && lives <= 0 ==>
        isDead && y == GroundY && vy == 0.0 && !bodyEnabled
      ensures old(isDead) || lives > 0 ==> unchanged(this)
      ensures isJumping == old(isJumping) && x == old(x) && vx == old(vx)
    {
      if !isDead {
        if lives <= 0 {
          isDead := true;
          y := GroundY;
          vy := 0.0;
          bodyEnabled := false;
        }
      }
    }

    /**
     * One frame. A dead player is only pinned to the ground. A live one is
     * held at the running column, clamped to the ground (landing ends the
     * jump), and jumps when space is held and it is not already jumping.
     */
    method Update(spaceDown: bool)
      modifies this
      ensures old(isDead) ==>
        isDead && y == GroundY && vy == 0.0 && x == old(x) && isJumping == old(isJumping)
      ensures !old(isDead) ==> !isDead && x == RunX
      ensures y <= GroundY
      ensures !old(isDead) ==>
        var landed := old(y) >= GroundY;
        var airborneJump := old(isJumping) && !landed;
        var jumps := spaceDown && !airborneJump;
        && y == (if landed then GroundY else old(y))
        && isJumping == (airborneJump || jumps)
        && vy == (if jumps then JumpForce else if landed then 0.0 else old(vy))
      ensures vx == old(vx) && bodyEnabled == old(bodyEnabled)
    {
      if isDead {
        y := GroundY;
        vy := 0.0;
        return;
      }
      x := RunX;
      if y >= GroundY {
        y := GroundY;
        vy := 0.0;
        if isJumping {
          isJumping := false;
        }
      }
      if !isDead && spaceDown && !isJumping {
        Jump();
      }
    }
  }
}
