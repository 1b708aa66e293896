// src/scenes/GameScene.js: lives, score, obstacle bookkeeping and game over.
// Obstacle sprites are values in a sequence that the scene's methods
// reassign; positions are exact reals advanced by `speed * delta`.
module Scene {
  import opened Timers
  import opened Players

  const MaxLives: int := 3
  const ObstacleSpawnX: real := 600.0
  /** `obstacle.width`: the frame width of the 32x32 obstacle texture. */
  const ObstacleWidth: real := 32.0
  /** Obstacles closer than this to the player are cleared after a hit. */
  const ClearanceRadius: real := 200.0
  const DeathDelayMs: nat := 800
  /** The scene's four parallax layers. */
  const LayerCount: nat := 4

  datatype Obstacle = Obstacle(x: real, width: real, speed: int, scored: bool)

  /** The only timer the scene itself registers: the end of the death animation. */
  datatype SceneEvent = DeathAnimationDone

  function Abs(r: real): real { if r < 0.0 then -r else r }

  /** `data.gameMode || 'simple'`: a missing or empty mode falls back to "simple". */
  function ModeOrDefault(requested: Option<string>): (mode: string)
    ensures mode != ""
    ensures requested.Some? && requested.value != "" ==> mode == requested.value
    ensures requested.None? || requested.value == "" ==> mode == "simple"
  {
    if requested.Some? && requested.value != "" then requested.value else "simple"
  }

  // ---------------------------------------------------------------------
  // Specification of the per-obstacle loops

  /** The obstacles a hit leaves in place: those at least `ClearanceRadius` from the player. */
  function Far(obs: seq<Obstacle>, px: real): seq<Obstacle>
  {
    if obs == [] then []
    else
      var o := obs[|obs| - 1];
      Far(obs[..|obs| - 1], px) + (if Abs(o.x - px) < ClearanceRadius then [] else [o])
  }

  lemma {:induction false} FarMembers(obs: seq<Obstacle>, px: real, o: Obstacle)
    ensures o in Far(obs, px) <==> o in obs && Abs(o.x - px) >= ClearanceRadius
  {
    if obs != [] {
      var init := obs[..|obs| - 1];
      FarMembers(init, px, o);
      assert obs == init + [obs[|obs| - 1]];
    }
  }

  /** Every obstacle with its speed set to zero, nothing else changed. */
  function Stopped(obs: seq<Obstacle>): (r: seq<Obstacle>)
    ensures |r| == |obs|
    ensures forall i :: 0 <= i < |obs| ==> r[i] == obs[i].(speed := 0)
  {
    if obs == [] then [] else Stopped(obs[..|obs| - 1]) + [obs[|obs| - 1].(speed := 0)]
  }

  /** An obstacle after one frame of `delta` seconds, scored once it is fully past the player. */
  function Moved(o: Obstacle, delta: real, px: real): (m: Obstacle)
    ensures m.width == o.width && m.speed == o.speed
    ensures o.speed <= 0 && 0.0 <= delta ==> m.x <= o.x
    ensures m.scored <==> o.scored || m.x + m.width < px
  {
    var x := o.x + o.speed as real * delta;
    o.(x := x, scored := o.scored || x + o.width < px)
  }

  /** True when this frame scores the obstacle: it was unscored and is now past the player. */
  predicate ScoresNow(o: Obstacle, delta: real, px: real)
  {
    var m := Moved(o, delta, px);
    !o.scored && m.x + m.width < px
  }

  predicate OffScreen(o: Obstacle) { o.x < -o.width }

  /** The obstacle group after one frame: moved, flagged, and stripped of those off the left edge. */
  function Advanced(obs: seq<Obstacle>, delta: real, px: real): seq<Obstacle>
  {
    if obs == [] then []
    else
      var m := Moved(obs[|obs| - 1], delta, px);
      Advanced(obs[..|obs| - 1], delta, px) + (if OffScreen(m) then [] else [m])
  }

  /** How many points one frame awards. */
  function Gained(obs: seq<Obstacle>, delta: real, px: real): nat
  {
    if obs == [] then 0
    else Gained(obs[..|obs| - 1], delta, px) + (if ScoresNow(obs[|obs| - 1], delta, px) then 1 else 0)
  }

  function Unscored(obs: seq<Obstacle>): nat
  {
    if obs == [] then 0 else Unscored(obs[..|obs| - 1]) + (if obs[|obs| - 1].scored then 0 else 1)
  }

  /**
   * Scoring spends unscored obstacles: every point a frame awards turns one
   * unscored obstacle into a scored one, so no obstacle is ever scored twice.
   */
  lemma {:induction false} ScoringSpendsUnscored(obs: seq<Obstacle>, delta: real, px: real)
    ensures Unscored(Advanced(obs, delta, px)) + Gained(obs, delta, px) <= Unscored(obs)
  {
    if obs != [] {
      var init := obs[..|obs| - 1];
      ScoringSpendsUnscored(init, delta, px);
      var m := Moved(obs[|obs| - 1], delta, px);
      UnscoredAppend(Advanced(init, delta, px), if OffScreen(m) then [] else [m]);
    }
  }

  lemma {:induction false} UnscoredAppend(a: seq<Obstacle>, b: seq<Obstacle>)
    requires |b| <= 1
    ensures Unscored(a + b) == Unscored(a) + Unscored(b)
  {
    if b != [] {
      assert (a + b)[..|a + b| - 1] == a;
      assert b[..0] == [];
    } else {
      assert a + b == a;
    }
  }

  lemma {:induction false} UnscoredFar(obs: seq<Obstacle>, px: real)
    ensures Unscored(Far(obs, px)) <= Unscored(obs)
  {
    if obs != [] {
      var o := obs[|obs| - 1];
      UnscoredFar(obs[..|obs| - 1], px);
      UnscoredAppend(Far(obs[..|obs| - 1], px), if Abs(o.x - px) < ClearanceRadius then [] else [o]);
    }
  }

  lemma {:induction false} UnscoredStopped(obs: seq<Obstacle>)
    ensures Unscored(Stopped(obs)) == Unscored(obs)
  {
    if obs != [] {
      UnscoredStopped(obs[..|obs| - 1]);
      assert Stopped(obs)[..|obs| - 1] == Stopped(obs[..|obs| - 1]);
    }
  }

  /** A frame never clears the flag of an obstacle it keeps, and only keeps on-screen ones. */
  lemma {:induction false} AdvancedMembers(obs: seq<Obstacle>, delta: real, px: real, m: Obstacle)
    ensures m in Advanced(obs, delta, px) <==>
      (exists o :: o in obs && m == Moved(o, delta, px)) && !OffScreen(m)
  {
    if obs != [] {
      var init := obs[..|obs| - 1];
      AdvancedMembers(init, delta, px, m);
      assert obs == init + [obs[|obs| - 1]];
    }
  }

  // ---------------------------------------------------------------------
  // The scene

  class GameScene {
    var isGameOver: bool
    var score: int
    var lives: int
    /** The count of hearts `livesText` shows. */
    var livesShown: int
    var gameMode: string
    var obstacles: seq<Obstacle>
    var timers: seq<Timer<SceneEvent>>
    var physicsPaused: bool
    var gameOverLaunched: bool
    /** Obstacles ever spawned into this scene. */
    ghost var spawned: nat
    const player: Player
    /** Scroll speed of each parallax layer (`bg.speed`), written by the level manager. */
    const backgrounds: array<real>

    /**
     * The scene's invariant: lives never exceed the cap, a non-positive life
     * count means the game is over, and every point of the score was paid
     * for by a distinct spawned obstacle that is no longer unscored.
     */
    ghost predicate Valid()
      reads this
    {
      Bookkept() && (lives <= 0 ==> isGameOver)
    }

    /** Everything `Valid` says except the link between lives and game over. */
    ghost predicate Bookkept()
      reads this
    {
      && lives <= MaxLives
      && backgrounds.Length == LayerCount
      && 0 <= score
      && score + Unscored(obstacles) <= spawned
    }

    constructor (p: Player)
      ensures Valid() && fresh(backgrounds) && player == p
      ensures !isGameOver && score == 0 && lives == MaxLives && livesShown == MaxLives
      ensures gameMode == "simple" && obstacles == [] && timers == [] && !physicsPaused
      ensures !gameOverLaunched && spawned == 0
      ensures forall i :: 0 <= i < backgrounds.Length ==> backgrounds[i] == 0.0
    {
      isGameOver, score, lives, livesShown := false, 0, MaxLives, MaxLives;
      gameMode := "simple";
      obstacles, timers := [], [];
      physicsPaused, gameOverLaunched := false, false;
      spawned := 0;
      player := p;
      backgrounds := new real[LayerCount](_ => 0.0);
    }

    /** Scene (re)start: the game is running again with a fresh score and full lives. */
    method Init(requestedMode: Option<string>)
      requires Valid()
      modifies this
      ensures Valid()
      ensures !isGameOver && score == 0 && lives == MaxLives && !physicsPaused
      ensures gameMode == ModeOrDefault(requestedMode)
      ensures obstacles == old(obstacles) && timers == old(timers) && livesShown == old(livesShown)
      ensures gameOverLaunched == old(gameOverLaunched) && spawned == old(spawned)
    {
      isGameOver := false;
      score := 0;
      lives := MaxLives;
      gameMode := ModeOrDefault(requestedMode);
      physicsPaused := false;
    }

    /** Adds one unscored obstacle at the right edge moving at `speed`, unless the game is over. */
    method SpawnObstacle(speed: int)
      requires Valid()
      modifies this
      ensures Valid()
      ensures old(isGameOver) ==> obstacles == old(obstacles)
      ensures !old(isGameOver) ==>
        obstacles == old(obstacles) + [Obstacle(ObstacleSpawnX, ObstacleWidth, speed, false)]
      ensures isGameOver == old(isGameOver) && score == old(score) && lives == old(lives)
      ensures old(isGameOver) ==> unchanged(this)
      ensures livesShown == old(livesShown) && timers == old(timers) && gameMode == old(gameMode)
      ensures physicsPaused == old(physicsPaused) && gameOverLaunched == old(gameOverLaunched)
    {
      if !isGameOver {
        UnscoredAppend(obstacles, [Obstacle(ObstacleSpawnX, ObstacleWidth, speed, false)]);
        obstacles := obstacles + [Obstacle(ObstacleSpawnX, ObstacleWidth, speed, false)];
        spawned := spawned + 1;
      }
    }

    method IncrementScore()
      modifies this
      ensures score == old(score) + 1
      ensures isGameOver == old(isGameOver) && lives == old(lives) && obstacles == old(obstacles)
      ensures livesShown == old(livesShown) && timers == old(timers) && spawned == old(spawned)
      ensures physicsPaused == old(physicsPaused) && gameOverLaunched == old(gameOverLaunched)
      ensures gameMode == old(gameMode)
    {
      score := score + 1;
    }

    /**
     * An obstacle touched the player. A dead player is ignored. Otherwise a
     * life is lost; with none left the game ends, else the player flashes
     * and every obstacle within `ClearanceRadius` of it is removed.
     */
    method HandleCollision()
      requires Valid()
      modifies this, player
      ensures Valid()
      ensures old(player.isDead) ==> unchanged(this)
      ensures !old(player.isDead) ==> lives == old(lives) - 1
      ensures !old(player.isDead) ==> livesShown == if lives >= 0 then lives else old(livesShown)
      ensures !old(player.isDead) && lives <= 0 ==>
        isGameOver
        && obstacles == (if old(isGameOver) then old(obstacles) else Stopped(old(obstacles)))
        && timers == (if old(isGameOver) then old(timers) else old(timers) + [Timer(DeathDelayMs, DeathAnimationDone)])
      ensures !old(player.isDead) && lives > 0 ==>
        isGameOver == old(isGameOver) && timers == old(timers) && obstacles == Far(old(obstacles), player.x)
      ensures score == old(score) && physicsPaused == old(physicsPaused) && gameMode == old(gameMode)
      ensures gameOverLaunched == old(gameOverLaunched)
      ensures unchanged(player)
    {
      if !player.isDead {
        lives := lives - 1;
        if lives >= 0 {
          livesShown := lives;
        }
        if lives <= 0 {
          GameOver();
        } else {
          player.Hit(lives);
          UnscoredFar(obstacles, player.x);
          obstacles := ClearNearby(obstacles, player.x);
        }
      }
    }

    /** Ends the game once: freezes every obstacle and starts the death animation timer. */
    method GameOver()
      requires Bookkept()
      modifies this
      ensures Valid() && isGameOver
      ensures old(isGameOver) ==> unchanged(this)
      ensures !old(isGameOver) ==>
        obstacles == Stopped(old(obstacles))
        && timers == old(timers) + [Timer(DeathDelayMs, DeathAnimationDone)]
      ensures score == old(score) && lives == old(lives) && livesShown == old(livesShown)
      ensures physicsPaused == old(physicsPaused) && gameOverLaunched == old(gameOverLaunched)
      ensures gameMode == old(gameMode) && spawned == old(spawned)
    {
      if !isGameOver {
        isGameOver := true;
        UnscoredStopped(obstacles);
        obstacles := StopAll(obstacles);
        timers := timers + [Timer(DeathDelayMs, DeathAnimationDone)];
      }
    }

    /**
     * The death-animation timer fires: the player is pinned dead on the
     * ground with physics off, and the game-over scene is launched.
     */
    method RunNextTimer()
      requires Valid() && timers != []
      modifies this, player
      ensures Valid()
      ensures timers == old(timers[1..])
      ensures player.isDead && player.y == GroundY && player.vy == 0.0 && !player.bodyEnabled
      ensures physicsPaused && gameOverLaunched
      ensures player.x == old(player.x) && player.vx == old(player.vx)
      ensures player.isJumping == old(player.isJumping)
      ensures isGameOver == old(isGameOver) && score == old(score) && lives == old(lives)
      ensures livesShown == old(livesShown) && gameMode == old(gameMode)
      ensures obstacles == old(obstacles) && spawned == old(spawned)
    {
      timers := timers[1..];
      player.isDead := true;
      player.y := GroundY;
      player.vy := 0.0;
      player.bodyEnabled := false;
      physicsPaused := true;
      gameOverLaunched := true;
    }

    /**
     * One frame before the level manager's turn: nothing once the game is
     * over; otherwise the player updates, then every obstacle moves, is
     * scored once it is past the player, and is removed off the left edge.
     */
    method Update(delta: real, spaceDown: bool)
      requires Valid()
      modifies this, player
      ensures Valid()
      ensures old(isGameOver) ==> unchanged(this) && unchanged(player)
      ensures !old(isGameOver) ==>
        obstacles == Advanced(old(obstacles), delta, player.x)
        && score == old(score) + Gained(old(obstacles), delta, player.x)
        && player.y <= GroundY
      ensures isGameOver == old(isGameOver) && lives == old(lives) && livesShown == old(livesShown)
      ensures timers == old(timers) && spawned == old(spawned) && gameMode == old(gameMode)
      ensures physicsPaused == old(physicsPaused) && gameOverLaunched == old(gameOverLaunched)
      ensures player.isDead == old(player.isDead) && player.vx == old(player.vx)
      ensures player.bodyEnabled == old(player.bodyEnabled)
    {
      if isGameOver {
        return;
      }
      player.Update(spaceDown);
      var obs := obstacles;
      var s0 := score;
      ghost var px := player.x;
      var kept: seq<Obstacle> := [];
      var i := 0;
      while i < |obs|
        invariant 0 <= i <= |obs|
        invariant kept == Advanced(obs[..i], delta, px)
        invariant score == s0 + Gained(obs[..i], delta, px)
        invariant player.x == px && player.y <= GroundY
        invariant isGameOver == old(isGameOver) && lives == old(lives) && livesShown == old(livesShown)
        invariant timers == old(timers) && spawned == old(spawned) && obstacles == obs
        invariant physicsPaused == old(physicsPaused) && gameOverLaunched == old(gameOverLaunched)
        invariant gameMode == old(gameMode) && player.isDead == old(player.isDead)
        invariant player.vx == old(player.vx) && player.bodyEnabled == old(player.bodyEnabled)
      {
        assert obs[..i + 1][..i] == obs[..i];
        var o := obs[i];
        var m := Moved(o, delta, player.x);
        if !o.scored && m.x + m.width < player.x {
          IncrementScore();
        }
        if !OffScreen(m) {
          kept := kept + [m];
        }
        i := i + 1;
      }
      assert obs[..|obs|] == obs;
      ScoringSpendsUnscored(obs, delta, px);
      obstacles := kept;
    }
  }

  /** The obstacle loop of a hit: destroys those within `ClearanceRadius` of `px`. */
  method ClearNearby(obs: seq<Obstacle>, px: real) returns (kept: seq<Obstacle>)
    ensures kept == Far(obs, px)
  {
    kept := [];
    var i := 0;
    while i < |obs|
      invariant 0 <= i <= |obs|
      invariant kept == Far(obs[..i], px)
    {
      assert obs[..i + 1][..i] == obs[..i];
      if !(Abs(obs[i].x - px) < ClearanceRadius) {
        kept := kept + [obs[i]];
      }
      i := i + 1;
    }
    assert obs[..|obs|] == obs;
  }

  /** The obstacle loop of game over: sets every obstacle's speed to zero. */
  method StopAll(obs: seq<Obstacle>) returns (stopped: seq<Obstacle>)
    ensures stopped == Stopped(obs)
  {
    stopped := [];
    var i := 0;
    while i < |obs|
      invariant 0 <= i <= |obs|
      invariant stopped == Stopped(obs[..i])
    {
      assert obs[..i + 1][..i] == obs[..i];
      stopped := stopped + [obs[i].(speed := 0)];
      i := i + 1;
    }
    assert obs[..|obs|] == obs;
  }
}
