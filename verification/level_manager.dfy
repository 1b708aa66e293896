// src/systems/LevelManager.js: the series/level state machine.
// A series is 1 to 3 obstacle spawns spaced `ObstacleSpacingMs` apart plus
// one completion timer. The re-entrancy guard `isSpawningSeries` keeps one
// series in flight, so every pending timer's delay is measured from the
// moment that series was generated.
module Levels {
  import opened Timers
  import opened Scene
  import opened Players

  const BaseObstacleSpeed: int := -300
  const ObstacleSpacingMs: nat := 2000
  const SeriesSpacingMs: nat := 5000
  const MinSeriesPerLevel: int := 5
  const MaxSeriesPerLevel: int := 10
  const MinObstaclesPerSeries: nat := 1
  const MaxObstaclesPerSeries: nat := 3
  /** Frames per second assumed when converting px/s to px/frame. */
  const FramesPerSecond: real := 60.0

  datatype SeriesEvent = SpawnObstacle | SeriesComplete

  // ---------------------------------------------------------------------
  // Difficulty curve

  /**
   * The obstacle speed of a level, in px/s (negative: leftwards). The source
   * computes `-300 * (1 + (level - 1) * 0.2)` in floating point; this is the
   * exact integer it denotes.
   */
  function ObstacleSpeed(level: int): (speed: int)
    requires level >= 1
    ensures speed as real == BaseObstacleSpeed as real * (1.0 + (level - 1) as real * 0.2)
    ensures speed <= BaseObstacleSpeed
  {
    BaseObstacleSpeed - 60 * (level - 1)
  }

  /** Each level is strictly faster than every earlier one. */
  lemma SpeedEscalates(level: int, later: int)
    requires 1 <= level < later
    ensures ObstacleSpeed(later) < ObstacleSpeed(level) <= BaseObstacleSpeed
    ensures ObstacleSpeed(level) - ObstacleSpeed(later) == 60 * (later - level)
  {
  }

  /**
   * The share of the ground speed a parallax layer scrolls at. Layer 3 (the
   * ground) is special-cased to 1 in the source, which is what the general
   * rule `(index + 1) * 0.25` gives there anyway.
   */
  function LayerMultiplier(index: nat): (m: real)
    ensures m == (index + 1) as real * 0.25
    ensures index < LayerCount ==> 0.0 < m <= 1.0
  {
    if index == 3 then 1.0 else (index + 1) as real * 0.25
  }

  /** The px/frame scroll of layer `index` when obstacles move at `speed` px/s. */
  function LayerSpeed(speed: int, index: nat): (r: real)
    ensures 0.0 <= r
  {
    (if speed < 0 then -speed else speed) as real / FramesPerSecond * LayerMultiplier(index)
  }

  /**
   * Layer `index` scrolls (index + 1) quarters of the obstacles' px/frame
   * rate, and the ground layer exactly that rate.
   */
  lemma LayerSpeedScales(speed: int, index: nat)
    ensures LayerSpeed(speed, index) * FramesPerSecond * 4.0
            == (index + 1) as real * (if speed < 0 then -speed else speed) as real
    ensures index == LayerCount - 1 ==>
      LayerSpeed(speed, index) * FramesPerSecond == (if speed < 0 then -speed else speed) as real
  {
  }

  /** Nearer layers never scroll slower, and the ground moves with the obstacles. */
  lemma LayersNonDecreasing(speed: int, i: nat, j: nat)
    requires i <= j
    ensures 0.0 <= LayerSpeed(speed, i) <= LayerSpeed(speed, j)
    ensures LayerSpeed(speed, 3) * FramesPerSecond == (if speed < 0 then -speed else speed) as real
  {
    var base := (if speed < 0 then -speed else speed) as real / FramesPerSecond;
    assert base >= 0.0;
    assert LayerMultiplier(i) <= LayerMultiplier(j);
    MulMonotone(base, LayerMultiplier(i), LayerMultiplier(j));
    assert LayerSpeed(speed, i) == base * LayerMultiplier(i);
    assert LayerSpeed(speed, j) == base * LayerMultiplier(j);
  }

  lemma MulMonotone(a: real, b: real, c: real)
    requires 0.0 <= a && 0.0 <= b <= c
    ensures 0.0 <= a * b <= a * c
  {
  }

  // ---------------------------------------------------------------------
  // The schedule of one series

  /** The spawn timers of a series of `n` obstacles, one every `ObstacleSpacingMs` from 0. */
  function SpawnTimers(n: nat): (r: seq<Timer<SeriesEvent>>)
    ensures |r| == n
  {
    if n == 0 then [] else SpawnTimers(n - 1) + [Timer((n - 1) * ObstacleSpacingMs, SpawnObstacle)]
  }

  lemma {:induction false} SpawnTimersAt(n: nat, i: nat)
    requires i < n
    ensures SpawnTimers(n)[i] == Timer(i * ObstacleSpacingMs, SpawnObstacle)
  {
    if i < n - 1 {
      SpawnTimersAt(n - 1, i);
    }
  }

  /** Every timer `generateSeries` registers for a series of `count` obstacles, in order. */
  function SeriesSchedule(count: nat): seq<Timer<SeriesEvent>>
  {
    SpawnTimers(count) + [Timer(count * ObstacleSpacingMs + SeriesSpacingMs, SeriesComplete)]
  }

  /**
   * A series of `count` obstacles: spawn `i` at `i * 2000` ms, then exactly
   * one completion at `count * 2000 + 5000` ms, strictly after the last
   * spawn; the timers are in firing order.
   */
  lemma ScheduleShape(count: nat)
    ensures |SeriesSchedule(count)| == count + 1
    ensures forall i :: 0 <= i < count ==>
      SeriesSchedule(count)[i] == Timer(i * ObstacleSpacingMs, SpawnObstacle)
    ensures SeriesSchedule(count)[count] == Timer(count * ObstacleSpacingMs + SeriesSpacingMs, SeriesComplete)
    ensures count > 0 ==>
      SeriesSchedule(count)[count - 1].delayMs < SeriesSchedule(count)[count].delayMs
    ensures InFiringOrder(SeriesSchedule(count))
  {
    var s := SeriesSchedule(count);
    forall i | 0 <= i < count
      ensures s[i] == Timer(i * ObstacleSpacingMs, SpawnObstacle)
    {
      SpawnTimersAt(count, i);
    }
    forall i, j | 0 <= i < j < |s|
      ensures s[i].delayMs <= s[j].delayMs
    {
      assert s[i].delayMs == i * ObstacleSpacingMs;
      if j < count {
        assert s[j].delayMs == j * ObstacleSpacingMs;
      }
    }
  }

  // ---------------------------------------------------------------------
  // The manager

  class LevelManager {
    const scene: GameScene
    var currentLevel: int
    var currentSeries: int
    var seriesInLevel: int
    var isSpawningSeries: bool
    var currentSpeed: int
    /** The timers of the series in flight that have not fired yet. */
    var pending: seq<Timer<SeriesEvent>>
    /** The obstacle count of the series in flight. */
    ghost var seriesSize: nat

    /**
     * The state-machine invariant: the level is at least 1, the series
     * target is in [5, 10], the series counter stays in [0, target] and is
     * below the target whenever the guard is down; pending timers exist only
     * under the guard and are the unfired tail of one series' schedule; the
     * speed and the parallax layers follow the level.
     */
    ghost predicate Valid()
      reads this, scene.backgrounds
    {
      && currentLevel >= 1
      && MinSeriesPerLevel <= seriesInLevel <= MaxSeriesPerLevel
      && 0 <= currentSeries <= seriesInLevel
      && (!isSpawningSeries ==> currentSeries < seriesInLevel && pending == [])
      && currentSpeed == ObstacleSpeed(currentLevel)
      && LayersFollow(currentSpeed)
      && (pending != [] ==>
            && MinObstaclesPerSeries <= seriesSize <= MaxObstaclesPerSeries
            && |pending| <= seriesSize + 1
            && pending == SeriesSchedule(seriesSize)[seriesSize + 1 - |pending|..])
    }

    ghost predicate LayersFollow(speed: int)
      reads scene.backgrounds
    {
      forall i :: 0 <= i < scene.backgrounds.Length ==> scene.backgrounds[i] == LayerSpeed(speed, i)
    }

    /** A new manager is on level 1 with no series started and `seriesDraw` series to play. */
    constructor (s: GameScene, seriesDraw: int)
      requires MinSeriesPerLevel <= seriesDraw <= MaxSeriesPerLevel
      modifies s.backgrounds
      ensures Valid() && scene == s
      ensures currentLevel == 1 && currentSeries == 0 && seriesInLevel == seriesDraw
      ensures !isSpawningSeries && currentSpeed == BaseObstacleSpeed && pending == []
    {
      scene := s;
      currentLevel := 1;
      currentSeries := 0;
      seriesInLevel := seriesDraw;
      isSpawningSeries := false;
      currentSpeed := BaseObstacleSpeed;
      pending := [];
      new;
      UpdateBackgroundSpeeds();
    }

    /** Sets every parallax layer's scroll from the current obstacle speed. */
    method UpdateBackgroundSpeeds()
      modifies scene.backgrounds
      ensures LayersFollow(currentSpeed)
    {
      var bgs := scene.backgrounds;
      var index := 0;
      while index < bgs.Length
        invariant 0 <= index <= bgs.Length
        invariant forall i :: 0 <= i < index ==> bgs[i] == LayerSpeed(currentSpeed, i)
      {
        bgs[index] := LayerSpeed(currentSpeed, index);
        index := index + 1;
      }
    }

    /**
     * Starts a series when none is in flight and the game is running. A
     * call made while the guard is up, or after game over, changes nothing.
     */
    method Update(obstacleDraw: nat)
      requires Valid()
      requires MinObstaclesPerSeries <= obstacleDraw <= MaxObstaclesPerSeries
      modifies this
      ensures Valid()
      ensures old(isSpawningSeries) || scene.isGameOver ==>
        isSpawningSeries == old(isSpawningSeries) && pending == old(pending)
        && currentSeries == old(currentSeries)
      ensures !old(isSpawningSeries) && !scene.isGameOver ==>
        isSpawningSeries && pending == SeriesSchedule(obstacleDraw)
        && currentSeries == old(currentSeries) + 1
      ensures old(isSpawningSeries) ==> isSpawningSeries
      ensures currentLevel == old(currentLevel) && seriesInLevel == old(seriesInLevel)
      ensures currentSpeed == old(currentSpeed)
    {
      if !isSpawningSeries && !scene.isGameOver {
        isSpawningSeries := true;
        GenerateSeries(obstacleDraw);
      }
    }

    /**
     * Registers the timers of one series of `obstacleCount` spawns and counts
     * the series as started; does nothing once the game is over. Its one
     * caller, `Update`, has just raised the guard with nothing pending.
     */
    method GenerateSeries(obstacleCount: nat)
      requires Valid() && isSpawningSeries && pending == [] && currentSeries < seriesInLevel
      requires MinObstaclesPerSeries <= obstacleCount <= MaxObstaclesPerSeries
      modifies this
      ensures Valid() && isSpawningSeries
      ensures scene.isGameOver ==> pending == [] && currentSeries == old(currentSeries)
      ensures !scene.isGameOver ==>
        pending == SeriesSchedule(obstacleCount) && currentSeries == old(currentSeries) + 1
      ensures currentLevel == old(currentLevel) && seriesInLevel == old(seriesInLevel)
      ensures currentSpeed == old(currentSpeed)
    {
      if scene.isGameOver {
        return;
      }
      // The loop's `delayedCall`s, collected and registered together.
      var spawns: seq<Timer<SeriesEvent>> := [];
      var delay := 0;
      var i := 0;
      while i < obstacleCount
        invariant 0 <= i <= obstacleCount
        invariant delay == i * ObstacleSpacingMs
        invariant spawns == SpawnTimers(i)
      {
        spawns := spawns + [Timer(delay, SpawnObstacle)];
        delay := delay + ObstacleSpacingMs;
        i := i + 1;
      }
      currentSeries := currentSeries + 1;
      pending := spawns + [Timer(delay + SeriesSpacingMs, SeriesComplete)];
      seriesSize := obstacleCount;
      assert pending == SeriesSchedule(seriesSize)[seriesSize + 1 - |pending|..];
    }

    /**
     * The earliest pending timer fires. A spawn asks the scene for one
     * obstacle at the speed current at firing time. The completion lowers
     * the guard and completes the level when the level's series are all
     * started; `seriesDraw` is the next level's series target.
     */
    method RunNextTimer(seriesDraw: int)
      requires Valid() && scene.Valid() && pending != []
      requires MinSeriesPerLevel <= seriesDraw <= MaxSeriesPerLevel
      modifies this, scene, scene.backgrounds
      ensures Valid() && scene.Valid()
      ensures pending == old(pending[1..])
      ensures old(pending[0].action) == SpawnObstacle <==> |old(pending)| > 1
      ensures old(|pending|) > 1 ==>
        && isSpawningSeries && currentLevel == old(currentLevel)
        && currentSeries == old(currentSeries) && seriesInLevel == old(seriesInLevel)
        && scene.obstacles == (if scene.isGameOver then old(scene.obstacles)
                               else old(scene.obstacles) + [Obstacle(ObstacleSpawnX, ObstacleWidth, currentSpeed, false)])
      ensures old(|pending|) == 1 ==> !isSpawningSeries && scene.obstacles == old(scene.obstacles)
      ensures old(|pending|) == 1 && old(currentSeries) >= old(seriesInLevel) ==>
        currentLevel == old(currentLevel) + 1 && currentSeries == 0 && seriesInLevel == seriesDraw
      ensures old(|pending|) == 1 && old(currentSeries) < old(seriesInLevel) ==>
        currentLevel == old(currentLevel) && currentSeries == old(currentSeries)
        && seriesInLevel == old(seriesInLevel)
      ensures old(|pending|) == 1 ==> unchanged(scene)
      ensures scene.isGameOver == old(scene.isGameOver) && scene.lives == old(scene.lives)
      ensures scene.score == old(scene.score) && scene.livesShown == old(scene.livesShown)
      ensures scene.timers == old(scene.timers) && scene.gameMode == old(scene.gameMode)
      ensures scene.physicsPaused == old(scene.physicsPaused)
      ensures scene.gameOverLaunched == old(scene.gameOverLaunched)
    {
      ScheduleShape(seriesSize);
      var t := pending[0];
      pending := pending[1..];
      match t.action
      case SpawnObstacle =>
        scene.SpawnObstacle(currentSpeed);
      case SeriesComplete =>
        isSpawningSeries := false;
        if currentSeries >= seriesInLevel {
          CompleteLevel(seriesDraw);
        }
    }

    /**
     * Moves to the next level: one level up, series counter reset, a new
     * series target, a faster speed and parallax to match, guard lowered.
     * Its one caller is the completion timer, the last of its series.
     */
    method CompleteLevel(seriesDraw: int)
      requires currentLevel >= 1 && pending == []
      requires MinSeriesPerLevel <= seriesDraw <= MaxSeriesPerLevel
      modifies this, scene.backgrounds
      ensures Valid()
      ensures currentLevel == old(currentLevel) + 1 && currentSeries == 0 && seriesInLevel == seriesDraw
      ensures currentSpeed == ObstacleSpeed(currentLevel) < ObstacleSpeed(old(currentLevel))
      ensures !isSpawningSeries && pending == []
    {
      currentLevel := currentLevel + 1;
      currentSeries := 0;
      seriesInLevel := seriesDraw;
      currentSpeed := ObstacleSpeed(currentLevel);
      UpdateBackgroundSpeeds();
      isSpawningSeries := false;
    }
  }

  /**
   * One frame of `GameScene.update`: the scene's own work, then its last
   * statement, `levelManager.update()`.
   */
  method SceneFrame(lm: LevelManager, delta: real, spaceDown: bool, obstacleDraw: nat)
    requires lm.Valid() && lm.scene.Valid()
    requires MinObstaclesPerSeries <= obstacleDraw <= MaxObstaclesPerSeries
    modifies lm, lm.scene, lm.scene.player
    ensures lm.Valid() && lm.scene.Valid()
    ensures old(lm.isSpawningSeries) ==> lm.isSpawningSeries && lm.pending == old(lm.pending)
    ensures lm.scene.isGameOver == old(lm.scene.isGameOver)
  {
    lm.scene.Update(delta, spaceDown);
    lm.Update(obstacleDraw);
  }

  /**
   * Level 1 with two obstacles drawn: spawns at 0 and 2000 ms, completion at
   * 9000 ms, and an `update` under the guard starts nothing.
   */
  method SeriesScenario()
  {
    var p := new Player(100.0, 260.0);
    var s := new GameScene(p);
    var lm := new LevelManager(s, 5);
    lm.Update(2);
    ScheduleShape(2);
    assert lm.pending == [Timer(0, SpawnObstacle), Timer(2000, SpawnObstacle), Timer(9000, SeriesComplete)];
    assert lm.currentSeries == 1;
    lm.Update(3);
    assert lm.currentSeries == 1 && |lm.pending| == 3;
    lm.RunNextTimer(7);
    lm.RunNextTimer(7);
    assert s.obstacles == [Obstacle(600.0, 32.0, -300, false), Obstacle(600.0, 32.0, -300, false)];
    lm.RunNextTimer(7);
    assert !lm.isSpawningSeries && lm.currentLevel == 1 && lm.currentSeries == 1;
  }
}
