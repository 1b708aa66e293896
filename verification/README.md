# Runner minigame rules in Dafny

This project models the turn-by-turn rules of a side-scrolling Phaser minigame:

- the obstacle series and level progression (`LevelManager`);
- the single-slot heart powerup (`PowerupManager`);
- the arithmetic mode's question engine and countdown (`MathMode`);
- lives, score and game over (`GameScene`);
- the player's jump/death state machine (`Player`).

Each source class becomes a Dafny class holding the source's state fields, plus
fields for state the host keeps:

- `GameScene` gains a queue of its timers, whether physics is paused, whether the
  game-over scene was launched, and a ghost count of spawned obstacles.
- `LevelManager` gains its pending series timers (`pending`) and a ghost count of
  the series in flight (`seriesSize`).
- `MathMode` gains the remaining countdown firings (`countdownFires`), a count of
  obstacle requests (`obstacleRequests`) and its own timer queue (`timers`).
- `Player` gains `bodyEnabled` for the physics body's enable and gravity flags.

Text objects become the strings they show: `livesShown`, `questionText` and
`countdownText`. The scene's reference to its level manager is dropped. Fixed
fields such as `groundY`, `jumpForce`, `baseObstacleSpeed` and the two series
spacings become module constants. GameScene.js never creates `this.player`, and
MathMode.js never creates `this.levelManager`, so the model takes both as
constructor parameters. The methods are proved against the state they leave behind. The pure parts become functions
with lemmas about them: the difficulty curve, the series schedule, the
per-obstacle loops, the question, its hidden digit and the countdown length.

Modules follow the source files:

| module | file | source |
|---|---|---|
| `Timers` | timers.dfy | the host clock's one-shot timers, as explicit queues |
| `Players` | player.dfy | src/entities/Player.js |
| `Scene` | game_scene.dfy | src/scenes/GameScene.js |
| `Levels` | level_manager.dfy | src/systems/LevelManager.js |
| `Powerups` | powerup_manager.dfy | src/systems/PowerupManager.js |
| `MathQuiz` | math_mode.dfy | src/scenes/MathMode.js |

Conventions:

- Random draws (`Phaser.Math.Between`, `Phaser.Math.RND.pick`, `Math.random`) are method
  parameters, with preconditions giving the ranges the source draws from.
- `time.delayedCall` is a queue of `Timer(delayMs, action)` values owned by the component
  that schedules them. A method runs the queue's head, which is the timer the clock fires next.
- `LevelManager` measures its timers' delays from the moment the series was generated. This
  is sound because its guard keeps at most one series in flight.
- `time.now`, the camera width, a frame's `delta` and the powerup's scroll per frame are
  parameters.
- Positions are exact reals. Speeds are exact integers: the source's
  `-300 * (1 + (level - 1) * 0.2)` is the integer `-300 - 60 * (level - 1)`, and
  `Levels.ObstacleSpeed` proves the two equal in real arithmetic.
- The countdown length `max(2, ceil(5 * 0.8^(level-1)))` is computed in exact arithmetic.
  For levels 1 to 6 it gives 5, 4, 4, 3, 3, 2. In double precision the only close case is
  level 2, where 5 × 0.8 rounds to exactly 4, so the table is the same.
- Phaser's `Group.each` iterates over a copy of the group. Destroying members inside the loop
  is therefore a filter, and that is how the loops are modelled.

The model follows what the code does, including where a reader might expect otherwise:

- A series completes `count * 2000 + 5000` ms after it starts, not `count * 2000` ms after.
- The series counter rises when a series starts, not when it completes.
- Levels 1 and 2 ask only additions. Subtraction appears from level 3 and multiplication from level 7.
- The hidden digit is always the last digit. There is no tens-digit variant.
- The powerup delay is always drawn from [30000, 90000] ms. It does not shrink with the level.
- Game over cancels no timers. A spawn timer that fires after game over asks the scene for an
  obstacle, and `spawnObstacle` ignores it. The series guard is not frozen at game over.
- Lives can go below 0. After the hit that takes lives to 0, the player is marked dead only
  when the 800 ms death timer fires. Collisions in that window keep decrementing lives, which
  is why the source refreshes the lives display only while lives ≥ 0. `Scene.GameScene.Valid`
  therefore states `lives <= 3` and `lives <= 0 ==> isGameOver`, not `lives >= 0`.

## Model

| member | source | states |
|---|---|---|
| `Players.Player.constructor` | src/entities/Player.js:2-9 | the position passed in is overridden: the player starts not jumping, not dead, at (100, 260) with zero velocity |
| `Players.Player.Init` | src/entities/Player.js:11-43 | resets `isJumping` and `isDead` to false, re-enables the body, puts the player at (100, groundY = 260) with zero velocity |
| `Players.Player.Jump` | src/entities/Player.js:75-81 | a live player that is not jumping starts jumping with vy = −450; otherwise nothing changes (no double jump); `isDead` is untouched |
| `Players.Player.Hit` | src/entities/Player.js:83-105 | a dead player is unaffected; with lives ≤ 0 a live player dies on the ground with vy = 0 and its body disabled; with lives left nothing changes; `isDead` is never reset |
| `Players.Player.Update` | src/entities/Player.js:107-132 | a dead player is only pinned to the ground; a live player is held at x = 100 and clamped to the ground (landing ends the jump); a jump is triggered only by space on a non-jumping player; afterwards y ≤ groundY; `isDead` never becomes false |
| `Scene.ModeOrDefault` | src/scenes/GameScene.js:21 | a missing or empty requested mode becomes "simple", any other mode is kept |
| `Scene.GameScene.constructor` | src/scenes/GameScene.js:7-15 | a new scene is not over, has score 0, 3 lives, mode "simple", no obstacles, and four still background layers |
| `Scene.GameScene.Init` | src/scenes/GameScene.js:17-26 | restarting sets game over to false, score to 0, lives to 3, picks the mode, resumes physics and keeps the invariant |
| `Scene.GameScene.SpawnObstacle` | src/scenes/GameScene.js:130-140 | adds exactly one unscored obstacle at x = 600 with the given speed, and nothing after game over |
| `Scene.GameScene.IncrementScore` | src/scenes/GameScene.js:142-145 | score rises by exactly one and nothing else changes |
| `Scene.GameScene.HandleCollision` | src/scenes/GameScene.js:147-167 | a dead player changes nothing; otherwise lives drop by exactly 1, the display follows only while lives ≥ 0, at lives ≤ 0 the game is over, and otherwise exactly the obstacles within 200 px of the player are removed and all others kept |
| `Scene.GameScene.GameOver` | src/scenes/GameScene.js:169-198 | takes effect once: the first call sets game over, stops every obstacle and schedules the 800 ms death timer; later calls change nothing |
| `Scene.GameScene.RunNextTimer` | src/scenes/GameScene.js:182-196 | the death timer pins the player dead on the ground with vy = 0 and body disabled, pauses physics and launches the game-over scene |
| `Scene.GameScene.Update` | src/scenes/GameScene.js:200-225 | after game over nothing changes; otherwise the obstacle group becomes `Advanced` of the old one and the score rises by `Gained`, and the scene invariant (each point paid by a distinct obstacle) is kept |
| `Scene.Moved` | src/scenes/GameScene.js:215-219 | a frame moves an obstacle by its speed times delta (leftwards for a negative speed), keeps its width and speed, and flags it scored if and only if it already was or is now wholly left of the player |
| `Scene.FarMembers` | src/scenes/GameScene.js:160-164 | an obstacle survives a hit if and only if it was there and is at least 200 px from the player |
| `Scene.Stopped` | src/scenes/GameScene.js:174-176 | game over keeps every obstacle in place and order with its speed set to 0 |
| `Scene.ClearNearby` | src/scenes/GameScene.js:160-164 | the loop of a hit leaves exactly `Far` of the group |
| `Scene.StopAll` | src/scenes/GameScene.js:174-176 | the loop of game over leaves exactly `Stopped` of the group |
| `Scene.ScoringSpendsUnscored` | src/scenes/GameScene.js:217-220 | the points a frame awards never exceed the unscored obstacles it turns into scored ones, so no obstacle is scored twice |
| `Scene.AdvancedMembers` | src/scenes/GameScene.js:214-225 | after a frame an obstacle is in the group if and only if it is a moved old obstacle (flagged scored once past the player) that is not past the left edge |
| `Levels.ObstacleSpeed` | src/systems/LevelManager.js:81 | the integer speed equals −300 · (1 + 0.2 · (level − 1)) exactly and is never slower than the base speed |
| `Levels.SpeedEscalates` | src/systems/LevelManager.js:81 | every later level is strictly faster, by 60 px/s per level |
| `Levels.LayerMultiplier` | src/systems/LevelManager.js:62-69 | layer i scrolls at (i + 1) · 25 % of the ground speed; the ground layer's special case gives the same 100 % |
| `Levels.LayerSpeed` | src/systems/LevelManager.js:58 | a layer's px/frame rate is taken from the absolute obstacle speed, so it is never negative |
| `Levels.LayerSpeedScales` | src/systems/LevelManager.js:58-71 | layer i scrolls at (i + 1) quarters of the absolute obstacle speed divided by 60, and the ground layer at exactly that quotient |
| `Levels.LayersNonDecreasing` | src/systems/LevelManager.js:56-73 | layer speeds are non-negative and non-decreasing in the layer index, and the ground layer moves at the obstacle speed per frame |
| `Levels.SpawnTimersAt` | src/systems/LevelManager.js:33-41 | the i-th spawn timer of a series fires at i · 2000 ms |
| `Levels.ScheduleShape` | src/systems/LevelManager.js:33-53 | a series of n obstacles has n spawns at 0, 2000, …, (n − 1) · 2000 ms and exactly one completion at n · 2000 + 5000 ms, strictly after the last spawn; its timers are in firing order |
| `Levels.LevelManager.constructor` | src/systems/LevelManager.js:2-25 | starts at level 1, series 0, a series target drawn from [5, 10], guard down, speed −300, with the layers set from the speed |
| `Levels.LevelManager.UpdateBackgroundSpeeds` | src/systems/LevelManager.js:56-73 | every layer's speed is set from the current obstacle speed |
| `Levels.LevelManager.Update` | src/systems/LevelManager.js:95-100 | with the guard up or the game over nothing starts; otherwise the guard is raised and exactly one series is scheduled; the guard is never lowered here |
| `Levels.LevelManager.GenerateSeries` | src/systems/LevelManager.js:27-54 | after game over nothing is scheduled; otherwise the pending timers become the series schedule for the drawn count and the series counter rises by exactly 1 |
| `Levels.LevelManager.RunNextTimer` | src/systems/LevelManager.js:37-53 | a spawn timer, which is every timer but the last, adds one obstacle at the speed current when it fires and keeps the guard; the completion timer lowers the guard and completes the level if and only if the series counter has reached the target, leaving the scene untouched; no timer changes the scene's own timers, lives display, mode or pause and launch flags |
| `Levels.LevelManager.CompleteLevel` | src/systems/LevelManager.js:75-93 | level + 1, series counter 0, a new target in [5, 10], a strictly faster speed for the new level with matching layers, guard down |
| `Levels.SceneFrame` | src/scenes/GameScene.js:200-229 | a scene frame followed by the level manager's update keeps both invariants and never starts a second series while one is in flight |
| `Powerups.NextSpawnTime` | src/systems/PowerupManager.js:14-17 | the next spawn time is between 30000 and 90000 ms after now |
| `Powerups.CheckSpawnClear` | src/systems/PowerupManager.js:25-32 | the scan allows a spawn if and only if every obstacle is at least 200 px from the spawn point |
| `Powerups.ScrollPowerups` | src/systems/PowerupManager.js:41-48 | the loop leaves exactly `Scrolled` of the group and reports a release if and only if some powerup went past the left edge |
| `Powerups.ScrolledMembers` | src/systems/PowerupManager.js:41-48 | after scrolling a powerup is kept if and only if it is a moved old one that is not past the left edge |
| `Powerups.ScrolledShrinks` | src/systems/PowerupManager.js:44-47 | scrolling never adds powerups, and keeps them all if and only if none went past the left edge |
| `Powerups.PowerupManager.constructor` | src/systems/PowerupManager.js:4-12 | no powerup is active and the first spawn time is 30000 to 90000 ms after now |
| `Powerups.PowerupManager.Update` | src/systems/PowerupManager.js:19-49 | after game over nothing changes; a heart spawns only when the slot is free, lives < 3, now has passed the spawn time and the spawn point is clear, and the spawn time is then redrawn; all powerups scroll and one past the left edge frees the slot; at most one powerup ever exists |
| `Powerups.PowerupManager.HandlePowerupCollision` | src/systems/PowerupManager.js:74-102 | below 3 lives it grants exactly one life, destroys the powerup and frees the slot; at 3 lives lives, powerup and flag are untouched; lives never exceed 3 |
| `MathQuiz.DifficultySettings` | src/scenes/MathMode.js:4-31 | levels 1 to 6 share one range among at least one operator; levels 7 to 10 give each operator its own range |
| `MathQuiz.OperatorsByLevel` | src/scenes/MathMode.js:121-134 | levels 1 to 2 ask only '+', levels 3 to 6 '+' or '-', level 7 and above one of '+', '-', '*'; every level from 10 on behaves like level 10 |
| `MathQuiz.Pose` | src/scenes/MathMode.js:137-148 | the chosen operator is used, both operands lie in its range and are the drawn pair, and subtraction puts the larger first |
| `MathQuiz.Evaluate` | src/scenes/MathMode.js:140-151 | a difference added back to the second operand gives the first; a product with a positive second operand is at least the first; non-negative operands, larger first for subtraction, give a non-negative answer |
| `MathQuiz.PosedAnswerNonNegative` | src/scenes/MathMode.js:140-151 | every question's answer is at least 0 |
| `MathQuiz.NatToString` | src/scenes/MathMode.js:153 | the answer text is a non-empty string of decimal digits with no leading zero whose last digit is the answer mod 10 |
| `MathQuiz.ParseNatToString` | src/scenes/MathMode.js:153 | the answer text reads back as the answer |
| `MathQuiz.Hide` | src/scenes/MathMode.js:154 | the shown answer has the answer's length, keeps all but the last character, and ends in '_' |
| `MathQuiz.HideRestoreRoundTrip` | src/scenes/MathMode.js:153-159 | writing the expected digit into the blank restores the answer text, which parses to the answer; the expected digit is the answer's last digit |
| `MathQuiz.OnlyExpectedDigitRestores` | src/scenes/MathMode.js:154-158 | a digit restores the answer if and only if it is the expected one |
| `MathQuiz.MakeQuestion` | src/scenes/MathMode.js:153-159 | the question shows "num1 op num2 = " with the hidden answer, and its expected key is the digit of the answer mod 10 |
| `MathQuiz.JumpKeyCodes` | src/scenes/MathMode.js:102-111 | digit d binds exactly two keys, 48 + d (in 48..57) and 96 + d (in 96..105) |
| `MathQuiz.JumpKeysDisjoint` | src/scenes/MathMode.js:102-111 | different digits bind disjoint key codes |
| `MathQuiz.CountdownStart` | src/scenes/MathMode.js:176-178 | the start value is the least integer that is at least both 2 and 5 · 0.8^(level − 1) |
| `MathQuiz.CountdownTable` | src/scenes/MathMode.js:176-178 | the countdown starts at 5 on level 1, 4 on levels 2 to 3, 3 on levels 4 to 5, and 2 from level 6 |
| `MathQuiz.CountdownShrinks` | src/scenes/MathMode.js:176-178 | the countdown start lies in [2, 5] and never grows with the level |
| `MathQuiz.MathMode.constructor` | src/scenes/MathMode.js:34-42 | no question, no countdown timer, no jump keys, guard down |
| `MathQuiz.MathMode.ClearQuestion` | src/scenes/MathMode.js:223-234 | the question is forgotten, both texts are blank and the countdown timer is destroyed; the guard is untouched |
| `MathQuiz.MathMode.SetupJumpKeys` | src/scenes/MathMode.js:95-115 | the old keys are replaced by exactly the two keys of the answer digit |
| `MathQuiz.MathMode.GenerateQuestion` | src/scenes/MathMode.js:117-167 | the current question is the posed problem for the level and draws, it is shown, and its digit's keys are bound |
| `MathQuiz.MathMode.StartCountdown` | src/scenes/MathMode.js:169-206 | the countdown restarts at the level's start value, ticks once per remaining second, shows the value, and raises the series guard; the level manager's level, counters, speed and timers are untouched |
| `MathQuiz.MathMode.CountdownTick` | src/scenes/MathMode.js:187-202 | each tick lowers the time left by 1; only the last tick blanks the text, lowers the question guard, requests exactly one obstacle and schedules completion 1000 ms later |
| `MathQuiz.MathMode.SpawnSeries` | src/scenes/MathMode.js:208-221 | with the question guard up neither the mode nor the level manager changes; otherwise the guard is raised, the old question is cleared, a new one is posed and its countdown started |

## Left out

- Rendering and presentation are not modelled: tweens, tints, animations, text styling, sounds, asset loading, `tilePositionX` scrolling, the "+1" popup and the level-text update in `completeLevel`.
- `console.log` output is not modelled.
- Collision detection and physics integration belong to the host. `handleCollision` and `handlePowerupCollision` run when the host reports an overlap. Gravity moves the player's `y` and `vy` between frames.
- Obstacle and powerup sprites are values in a sequence. Two references to the same sprite (aliasing) are not modelled. The obstacle's `y` and scale, and the powerup's `y`, are not modelled.
- The heart's `powerup.width` is a constructor parameter, because the image's size is not part of this model.
- MathMode calls `spawnObstacle`, `completeSeries` and `levelManager.getObstacleSpeed`, which it never defines. The model counts the spawn requests and queues the completion timer without running it.
- The powerup's scroll per frame depends on `levelManager.getObstacleSpeed` and `speedMultipliers`, which are not defined in the shown code. It is a parameter.
- `GameScene.create`, `preload` and `initMathMode`, and `MathMode.create` and `update`, are wiring and are not modelled. In `create` the level manager is built before the four background layers exist and sets their speeds a second time afterwards. The model builds the layers first; the resulting speeds are the same.
- The game-over scene is launched with score, level and mode. The model records only that the launch happened.
- Scene.GameScene.Init: the host's scene shutdown is not modelled, so the previous run's obstacles and a pending death timer survive a restart. In Phaser, restarting the scene empties its clock and `create` builds a new obstacle group.
- Scene.GameScene.Update: states the player's part of a running frame only as `y ≤ groundY` with `isDead`, `vx` and the body flag kept; `Players.Player.Update` states it in full.
- Levels.LevelManager.GenerateSeries: requires the state its only caller, `update`, creates: guard raised, no timer pending, series counter below the target. Called in any other state, the source would put a second series in flight.
- Levels.LevelManager.CompleteLevel: requires that no series timer is pending, as holds in its only caller, the completion timer, which is the last of its series.
- `setupJumpKeys` stores the answer digit's key codes in `player.jumpKeyObj`, but nothing in Player reads that field; the player jumps on the space key only. The model keeps the bound codes as state, and they have no effect on jumping.
- Floating-point effects are not modelled. `scene.time.now` is fractional milliseconds in Phaser; the model takes it as an integer. Speeds, layer speeds and positions are exact, and bit-equality with JavaScript doubles is not claimed.
