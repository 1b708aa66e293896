// src/systems/PowerupManager.js: the single-slot heart powerup.
// The clock reading (`scene.time.now`), the camera width and this frame's
// leftward scroll of a powerup are inputs; the random delay is a draw.
module Powerups {
  import opened Scene

  const MinSpawnDelayMs: int := 30000
  const MaxSpawnDelayMs: int := 90000
  /** Powerups appear this far right of the camera's right edge. */
  const SpawnMargin: real := 50.0
  /** No obstacle may be this close to the spawn point. */
  const SpawnClearance: real := 200.0

  datatype Powerup = Powerup(x: real, width: real)

  /** The earliest time of the next spawn: `now` plus a delay drawn from [30000, 90000] ms. */
  function NextSpawnTime(now: int, delayDraw: int): (t: int)
    requires MinSpawnDelayMs <= delayDraw <= MaxSpawnDelayMs
    ensures now + MinSpawnDelayMs <= t <= now + MaxSpawnDelayMs
    ensures t - now == delayDraw
  {
    now + delayDraw
  }

  ghost predicate SpawnPointClear(obs: seq<Obstacle>, spawnX: real)
  {
    forall i :: 0 <= i < |obs| ==> Abs(obs[i].x - spawnX) >= SpawnClearance
  }

  /** The obstacle scan of `update`: `canSpawn` starts true and any close obstacle clears it. */
  method CheckSpawnClear(obs: seq<Obstacle>, spawnX: real) returns (canSpawn: bool)
    ensures canSpawn <==> SpawnPointClear(obs, spawnX)
  {
    canSpawn := true;
    var i := 0;
    while i < |obs|
      invariant 0 <= i <= |obs|
      invariant canSpawn <==> forall j :: 0 <= j < i ==> Abs(obs[j].x - spawnX) >= SpawnClearance
    {
      if Abs(obs[i].x - spawnX) < SpawnClearance {
        canSpawn := false;
      }
      i := i + 1;
    }
  }

  predicate PastLeftEdge(p: Powerup) { p.x < -p.width }

  /** The powerup group after scrolling `dx`: every powerup moved, those past the left edge gone. */
  function Scrolled(ps: seq<Powerup>, dx: real): seq<Powerup>
  {
    if ps == [] then []
    else
      var q := ps[|ps| - 1].(x := ps[|ps| - 1].x + dx);
      Scrolled(ps[..|ps| - 1], dx) + (if PastLeftEdge(q) then [] else [q])
  }

  lemma {:induction false} ScrolledMembers(ps: seq<Powerup>, dx: real, q: Powerup)
    ensures q in Scrolled(ps, dx) <==> (exists p :: p in ps && q == p.(x := p.x + dx)) && !PastLeftEdge(q)
  {
    if ps != [] {
      var init := ps[..|ps| - 1];
      ScrolledMembers(init, dx, q);
      assert ps == init + [ps[|ps| - 1]];
    }
  }

  lemma {:induction false} ScrolledShrinks(ps: seq<Powerup>, dx: real)
    ensures |Scrolled(ps, dx)| <= |ps|
    ensures |Scrolled(ps, dx)| == |ps| <==> forall i :: 0 <= i < |ps| ==> !PastLeftEdge(ps[i].(x := ps[i].x + dx))
  {
    if ps != [] {
      var init := ps[..|ps| - 1];
      ScrolledShrinks(init, dx);
      forall i | 0 <= i < |init| ensures init[i] == ps[i] { }
    }
  }

  /** The powerup loop of `update`; `released` tells whether any powerup left the screen. */
  method ScrollPowerups(ps: seq<Powerup>, dx: real) returns (kept: seq<Powerup>, released: bool)
    ensures kept == Scrolled(ps, dx)
    ensures released <==> exists i :: 0 <= i < |ps| && PastLeftEdge(ps[i].(x := ps[i].x + dx))
  {
    kept := [];
    released := false;
    var i := 0;
    while i < |ps|
      invariant 0 <= i <= |ps|
      invariant kept == Scrolled(ps[..i], dx)
      invariant released <==> exists j :: 0 <= j < i && PastLeftEdge(ps[j].(x := ps[j].x + dx))
    {
      assert ps[..i + 1][..i] == ps[..i];
      var q := ps[i].(x := ps[i].x + dx);
      if PastLeftEdge(q) {
        released := true;
      } else {
        kept := kept + [q];
      }
      i := i + 1;
    }
    assert ps[..|ps|] == ps;
  }

  class PowerupManager {
    const scene: GameScene
    /** `powerup.width` of the heart sprite. */
    const heartWidth: real
    var powerups: seq<Powerup>
    var nextSpawnTime: int
    var hasActivePowerup: bool

    /** The slot invariant: at most one powerup exists, and the flag says whether one does. */
    ghost predicate Valid()
      reads this
    {
      |powerups| <= 1 && (hasActivePowerup <==> |powerups| == 1)
    }

    constructor (s: GameScene, width: real, now: int, delayDraw: int)
      requires MinSpawnDelayMs <= delayDraw <= MaxSpawnDelayMs
      ensures Valid() && scene == s && heartWidth == width
      ensures !hasActivePowerup && powerups == []
      ensures nextSpawnTime == NextSpawnTime(now, delayDraw)
    {
      scene := s;
      heartWidth := width;
      powerups := [];
      nextSpawnTime := NextSpawnTime(now, delayDraw);
      hasActivePowerup := false;
    }

    /**
     * One frame. Nothing happens once the game is over. A heart spawns at the
     * right edge only when the slot is free, lives are below the cap, the
     * spawn time has passed and no obstacle is near the spawn point; the next
     * spawn time is then redrawn. Every powerup then scrolls by `dx`, and one
     * past the left edge is destroyed, freeing the slot.
     */
    method Update(now: int, viewWidth: real, dx: real, delayDraw: int)
      requires Valid()
      requires MinSpawnDelayMs <= delayDraw <= MaxSpawnDelayMs
      modifies this
      ensures Valid()
      ensures scene.isGameOver ==>
        powerups == old(powerups) && nextSpawnTime == old(nextSpawnTime)
        && hasActivePowerup == old(hasActivePowerup)
      ensures !scene.isGameOver ==>
        var spawns := !old(hasActivePowerup) && scene.lives < MaxLives && now > old(nextSpawnTime)
                      && SpawnPointClear(scene.obstacles, viewWidth + SpawnMargin);
        && powerups == Scrolled(old(powerups) + (if spawns then [Powerup(viewWidth + SpawnMargin, heartWidth)] else []), dx)
        && nextSpawnTime == (if spawns then NextSpawnTime(now, delayDraw) else old(nextSpawnTime))
    {
      if scene.isGameOver {
        return;
      }
      var currentTime := now;
      if !hasActivePowerup && scene.lives < MaxLives && currentTime > nextSpawnTime {
        var spawnX := viewWidth + SpawnMargin;
        var canSpawn := CheckSpawnClear(scene.obstacles, spawnX);
        if canSpawn {
          powerups := powerups + [Powerup(spawnX, heartWidth)];
          nextSpawnTime := NextSpawnTime(now, delayDraw);
          hasActivePowerup := true;
        }
      }
      ScrolledShrinks(powerups, dx);
      var kept, released := ScrollPowerups(powerups, dx);
      powerups := kept;
      if released {
        hasActivePowerup := false;
      }
    }

    /**
     * The player touched powerup `k`. Below the life cap it grants exactly
     * one life and frees the slot; at the cap nothing changes.
     */
    method HandlePowerupCollision(k: nat)
      requires Valid() && scene.Valid() && k < |powerups|
      modifies this, scene
      ensures Valid() && scene.Valid()
      ensures old(scene.lives) < MaxLives ==>
        scene.lives == old(scene.lives) + 1 && scene.livesShown == scene.lives
        && powerups == [] && !hasActivePowerup
      ensures old(scene.lives) >= MaxLives ==> unchanged(this) && unchanged(scene)
      ensures scene.lives <= MaxLives
      ensures nextSpawnTime == old(nextSpawnTime)
      ensures scene.isGameOver == old(scene.isGameOver) && scene.score == old(scene.score)
      ensures scene.obstacles == old(scene.obstacles) && scene.timers == old(scene.timers)
      ensures scene.physicsPaused == old(scene.physicsPaused)
      ensures scene.gameOverLaunched == old(scene.gameOverLaunched)
      ensures scene.gameMode == old(scene.gameMode) && scene.spawned == old(scene.spawned)
    {
      if scene.lives < MaxLives {
        scene.lives := scene.lives + 1;
        scene.livesShown := scene.lives;
        powerups := powerups[..k] + powerups[k + 1..];
        hasActivePowerup := false;
      }
    }
  }
}
