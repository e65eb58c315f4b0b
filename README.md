# Mario-style Telegram platformer: gameplay rules in Dafny

This project models the gameplay core of a small Phaser platformer that runs as a
Telegram mini-app. The game has four platform rounds and a dragon boss round. It also
ships an older stand-alone canvas version. The model covers:

- **Progress** (`game_state.dfy`, `src/utils/GameState.js`): the run's score, coins,
  lives, round counter and per-round death count. It also covers the round bonus
  and the high-score rule (keep the larger score).
- **PlayerController** (`player.dfy`, `src/objects/Player.js`): the player's frame
  update. This covers coyote time, jump buffering, variable-height jumps,
  steering with drag, invincibility after a hit, knockback, roar pushes and reset.
- **EnemyPatrol** (`enemy.dfy`, `src/objects/Enemy.js`): the patrolling enemy's
  direction flip at its patrol bounds.
- **DragonBoss** (`dragon.dfy`, `src/objects/Dragon.js`): the boss. This covers HP,
  the phase table, attack cooldowns scaled by phase, the attack choice, flame traps
  and their lifetime, the weak-point cycle, damage and defeat.
- **ClassicGame** (`classic_game.dfy`, `game.js`): the stand-alone canvas game's
  loop. This covers integration, platform resolution, enemy patrol and stomps,
  coin pickup and the end of the game.
- **Transition** (`transition.dfy`, `src/scenes/TransitionScene.js`): the screen
  between rounds and where its button leads.
- **RoundScene** (`game_scene.dfy`, `src/scenes/GameScene.js`): a platform round.
  This covers coin pickup, stomps and contact damage, fall-off, completing the
  round and game over.
- **BossRound** (`boss_scene.dfy`, `src/scenes/BossScene.js`): the boss round.
  This covers the HP bar and its colour bands, hits from the dragon, fireballs,
  flame traps and tail swipes, weak-point hits, victory, game over and retry.
- **Config** (`config.dfy`, `config.js`): the tunable constants and the level
  tables.

Stateful objects are Dafny classes with the source's fields. Each class has a pure
view (`Data()` or `State()`). Each method ensures that its new view equals a
transition function applied to the old view. The lemmas about those transition
functions carry the game's rules. Numbers are `real`, not IEEE floats, and JavaScript
integers are `int`.

Some inputs come from the physics engine, the keyboard, random numbers or a clock.
Each method takes these as parameters:

- whether the body is blocked below (`blockedDown`);
- which buttons are held;
- which flame traps the player overlaps (`touching`);
- whether the weak point is touched;
- whether the tail swipe reached the player (`inRange`);
- the random attack choice (`pick`, reduced modulo the number of available attacks);
- the random flame-trap positions (`spawnXs`);
- the clock that `resetAttackTimers` reads (`clock`).

In `RoundScene.GameScene.Update`, `completeKey` stands for both completion triggers:
the R key and the completion zone's overlap.

The tail swipe's hit is the delayed callback at its midpoint
(`BossScene.OnTailSwipeMidpoint`). The dragon's attack animations end through
`Dragon.AttackAnimationComplete`. A fireball that spawns is `Dragon.FireProjectile`.
A fireball that hits the player is `BossScene.OnFireballContact`.

## Model

| member | source | states |
|---|---|---|
| Progress.GameState.constructor | src/utils/GameState.js:5-7 | a new state is the reset run |
| Progress.GameState.Reset | src/utils/GameState.js:9-18 | the state becomes the fresh run: score 0, no coins, 3 lives, round 1, no completed rounds, zero totals |
| Progress.GameState.AddScore | src/utils/GameState.js:20-22 | only the score changes, by the points given |
| Progress.GameState.AddCoin | src/utils/GameState.js:24-28 | coin count and coin total rise by one and the coin value is scored |
| Progress.GameState.DefeatEnemy | src/utils/GameState.js:30-33 | the defeated-enemy total rises by one and the enemy value is scored |
| Progress.GameState.LoseLife | src/utils/GameState.js:35-39 | one life lost and one death counted; the result is true exactly when lives remain |
| Progress.GameState.CompleteRound | src/utils/GameState.js:41-54 | the round is recorded, the round bonus is scored and the death count is cleared |
| Progress.GameState.NextRound | src/utils/GameState.js:56-58 | the round counter advances by one |
| Progress.GameState.GetData | src/utils/GameState.js:60-67 | the summary carries exactly score, coins, lives and current round |
| Progress.NewRunIsEmpty | src/utils/GameState.js:9-18 | the fresh run: every counter zero, 3 lives, round 1, empty round list |
| Progress.CoinChangesOnlyCoinsAndScore | src/utils/GameState.js:24-28 | a coin adds 1 coin, 1 to the total and 50 points, and nothing else changes |
| Progress.EnemyChangesOnlyTotalAndScore | src/utils/GameState.js:30-33 | a defeated enemy adds 1 to its total and 100 points, and nothing else changes |
| Progress.ScoreNeverDecreases | src/utils/GameState.js:20-58 | no run operation lowers the score; coins, enemies and round completion raise it; losing a life or advancing leaves it |
| Progress.RoundBonusBreakdown | src/utils/GameState.js:41-54 | the bonus is 200 to 1000; at least 700 exactly when the round had no death; a multiple of 500 exactly when all coins were taken; deaths cleared, round appended, rest unchanged |
| Progress.LivesLostCounts | src/utils/GameState.js:35-39 | n losses lower lives by n and add n deaths, leaving score and round |
| Progress.ThirdLossEndsTheRun | src/utils/GameState.js:35-39 | from a fresh run the first two losses report lives left, the third reports none with 0 lives, and a fourth gives -1 |
| Progress.NextRoundAndSummary | src/utils/GameState.js:56-67 | advancing changes only the round (+1); the summary projects the four fields |
| Progress.EndToEndScenario | src/utils/GameState.js:9-54 | fresh run, one coin: 1 coin and 50 points; three losses end it; a death-free all-coins completion scores 1000 |
| Progress.HighScoreAfter | src/scenes/GameScene.js:309-312 | the saved high score is the larger of the stored one and the score, and changes only when the score beats it |
| Progress.HighScoreStore.constructor | src/scenes/GameScene.js:309 | the store starts from the value read |
| Progress.HighScoreStore.Save | src/scenes/GameScene.js:309-312 | the stored value becomes HighScoreAfter of the old value and the score |
| PlayerController.Seconds | src/objects/Player.js:82 | the frame delta in seconds is the milliseconds divided by 1000 |
| PlayerController.Dragged | src/objects/Player.js:131-143 | drag never raises the speed and never flips the sign: it removes exactly 800/60 or stops the body, and stops it only when the speed was at most 800/60 |
| PlayerController.Steered | src/objects/Player.js:121-145 | steering changes only horizontal velocity, acceleration and facing, and facing stays in {old, -1, 1} |
| PlayerController.HoldApplied | src/objects/Player.js:166-182 | after the variable-height step a jumping player is rising and airborne; a non-jumping player is untouched; only vy, isJumping and hold time change |
| PlayerController.InvincibilityTicked | src/objects/Player.js:105-115 | only the invincibility fields change, and invincibility is never gained by ticking |
| PlayerController.Faced | src/objects/Player.js:117-118 | the sprite is flipped exactly when facing left; nothing else changes |
| PlayerController.Player.constructor | src/objects/Player.js:20-31 | a new player at (x, y): not grounded or jumping, all counters 0, facing right, not invincible |
| PlayerController.Player.Update | src/objects/Player.js:81-119 | the frame is Stepped: timers, steering, jump, invincibility and facing in the source's order |
| PlayerController.Player.FaceSprite | src/objects/Player.js:117-118 | the sprite is flipped exactly when facing left (Faced) |
| PlayerController.Player.UpdateTimers | src/objects/Player.js:84-97 | grounded flag set, coyote counter refilled or drained, and the jump buffer drained only while positive |
| PlayerController.Player.UpdateInvincibility | src/objects/Player.js:105-115 | an invincible player's timer drops by dt and invincibility ends at zero or below (InvincibilityTicked) |
| PlayerController.Player.HandleHorizontalMovement | src/objects/Player.js:121-145 | exclusive left or right sets the acceleration and facing, otherwise drag applies (Steered) |
| PlayerController.Player.HandleJump | src/objects/Player.js:147-183 | buffer, then jump start, then variable height, in that order |
| PlayerController.Player.BufferJumpPress | src/objects/Player.js:154-159 | a rising edge arms the buffer and the latch records the button |
| PlayerController.Player.TryStartJump | src/objects/Player.js:161-164 | a jump starts when buffer and coyote counters are positive and no jump is running |
| PlayerController.Player.ApplyVariableHeight | src/objects/Player.js:166-182 | while jumping: hold time grows, an early release cuts the rise, and the jump ends at the apex or on the ground (HoldApplied) |
| PlayerController.Player.StartJump | src/objects/Player.js:185-196 | vy becomes the jump velocity, jumping set, hold time and both counters zero |
| PlayerController.Player.BounceOnEnemy | src/objects/Player.js:198-201 | vy becomes the enemy bounce velocity and the jump ends |
| PlayerController.Player.TakeDamage | src/objects/Player.js:203-217 | the state and answer are Damaged: refused while invincible, otherwise invincible with knockback |
| PlayerController.Player.SetInvincible | src/objects/Player.js:219-222 | invincible with the given timer |
| PlayerController.Player.Push | src/objects/Player.js:224-226 | velocity set to the force |
| PlayerController.Player.Reset | src/objects/Player.js:228-237 | position set, motion and jump state cleared |
| PlayerController.CoyoteCounterRule | src/objects/Player.js:87-92 | the coyote counter is refilled on the ground, drained by dt in the air, and zeroed when a jump starts |
| PlayerController.BufferArmsOnRisingEdgeOnly | src/objects/Player.js:154-159 | the buffer is re-armed exactly on a rising edge of the button, and the latch tracks the button |
| PlayerController.JumpStartsIff | src/objects/Player.js:161-164 | when the start condition holds a jump starts at the (possibly cut) jump velocity with hold time dt and both counters zero; otherwise the update only buffers the press; the jump velocity appears exactly when the condition holds |
| PlayerController.JumpingMeansRising | src/objects/Player.js:178-181 | after any frame a player still jumping is moving up and not grounded |
| PlayerController.GroundJumpSkipsShortHop | src/objects/Player.js:162-181 | a jump started on the ground ends in the same frame at full velocity, so a later release cannot cut it |
| PlayerController.BufferedPressJumpsOnLanding | src/objects/Player.js:155-164 | a buffered press jumps on the landing frame, at full velocity if held and cut if released early |
| PlayerController.CoyoteJumpWithinWindow | src/objects/Player.js:88-92 | a press while the coyote window outlasts the frame starts a jump in the air |
| PlayerController.NoJumpAfterCoyoteWindow | src/objects/Player.js:91 | once the coyote window is spent no jump starts in the air |
| PlayerController.ShortHopHalvesRise | src/objects/Player.js:170-176 | an early release multiplies an upward velocity by 0.5 (-850 becomes -425) and ends the jump |
| PlayerController.LateReleaseKeepsRise | src/objects/Player.js:171 | a release after the threshold leaves the velocity |
| PlayerController.SteeringRule | src/objects/Player.js:125-144 | exclusive left or right accelerates and faces that way with the speed untouched; otherwise no acceleration, exactly one drag step and unchanged facing |
| PlayerController.SecondHitIgnored | src/objects/Player.js:203-217 | a hit on an invincible player changes nothing; otherwise it sets 1.5 s invincibility and knockback (-dir*200, -300); a second hit is ignored |
| PlayerController.InvincibilityExpires | src/objects/Player.js:106-110 | the timer drops by dt and invincibility lasts exactly while it stays positive |
| PlayerController.ResetKeepsInvincibility | src/objects/Player.js:228-237 | reset zeroes motion and jump state but keeps invincibility, facing and the button latch |
| EnemyPatrol.PatrolVelocity | src/objects/Enemy.js:48-50 | the new velocity is the old one or its negation, of the same magnitude |
| EnemyPatrol.Enemy.constructor | src/objects/Enemy.js:6-22 | bounds and speed stored, moving right at the base speed |
| EnemyPatrol.Enemy.Update | src/objects/Enemy.js:46-54 | velocity is PatrolVelocity, the sprite faces left exactly when moving left, position unchanged |
| EnemyPatrol.FlipExactlyAtBounds | src/objects/Enemy.js:48-50 | a moving enemy reverses exactly when at or beyond a bound, and keeps its velocity strictly inside |
| EnemyPatrol.TurnsBackInward | src/objects/Enemy.js:48-50 | at the right bound moving right it turns left, and at the left bound moving left it turns right |
| EnemyPatrol.SpeedIsKept | src/objects/Enemy.js:48-50 | patrolling twice in place restores the velocity, and a moving enemy never stops |
| DragonBoss.InitialAttackTimes | src/objects/Dragon.js:101-109 | every attack gets a timestamp exactly its cooldown before the clock |
| DragonBoss.ScanPhase | src/objects/Dragon.js:155-168 | the scan from the last phase finds the highest index whose threshold is at least the HP fraction, or none exactly when every threshold is below it |
| DragonBoss.Available | src/objects/Dragon.js:185-204 | an attack is available exactly when it is off its phase-scaled cooldown (flame trap only from phase 2), without repeats |
| DragonBoss.TickTraps | src/objects/Dragon.js:139-149 | the trap filter never lengthens the list |
| DragonBoss.Dragon.constructor | src/objects/Dragon.js:6-45 | a new dragon: 30 HP, phase 0, not defeated or attacking, weak point hidden, no traps or fireballs, timers reset against the clock |
| DragonBoss.Dragon.ResetAttackTimers | src/objects/Dragon.js:101-109 | only the timestamps change, to InitialAttackTimes |
| DragonBoss.Dragon.Update | src/objects/Dragon.js:111-153 | the frame is Updated (inert when defeated); the player is pushed only by a roar chosen this frame |
| DragonBoss.Dragon.TickWeakPoint | src/objects/Dragon.js:119-125 | a visible weak point's timer drops by dt and it hides at zero |
| DragonBoss.Dragon.TickFlameTraps | src/objects/Dragon.js:139-149 | active traps burn down by dt and are dropped at zero, inactive ones stay, in order (TickTraps) |
| DragonBoss.Dragon.UpdatePhase | src/objects/Dragon.js:155-168 | the phase becomes the selected one; the answer is whether it changed |
| DragonBoss.Dragon.DecideAttack | src/objects/Dragon.js:185-210 | the state is Decided and the player is pushed only when the chosen attack is a roar |
| DragonBoss.Dragon.ExecuteAttack | src/objects/Dragon.js:212-230 | the attack is stamped at the time and the latch set; a flame trap spawns its traps and clears the latch |
| DragonBoss.Dragon.AttackFlameTrap | src/objects/Dragon.js:349-379 | two active 2-second traps are appended at the floor and the latch is cleared |
| DragonBoss.Dragon.AttackAnimationComplete | src/objects/Dragon.js:248-251 | the attack latch is cleared and nothing else changes |
| DragonBoss.Dragon.FireProjectile | src/objects/Dragon.js:255-258 | a live dragon gains one fireball; a defeated one fires nothing |
| DragonBoss.Dragon.DestroyFireball | src/scenes/BossScene.js:145-147 | one fireball fewer |
| DragonBoss.Dragon.WeakPointIntervalElapsed | src/objects/Dragon.js:381-390 | the cycle continues exactly while the dragon lives, and the weak point is shown |
| DragonBoss.Dragon.ShowWeakPoint | src/objects/Dragon.js:392-396 | a hidden weak point of a live dragon shows for 3 s; otherwise nothing changes |
| DragonBoss.Dragon.HideWeakPoint | src/objects/Dragon.js:427-433 | the weak point is hidden |
| DragonBoss.Dragon.HitWeakPoint | src/objects/Dragon.js:435-454 | refused while hidden or defeated; otherwise 3 damage, the point hidden and true (WeakPointHit) |
| DragonBoss.Dragon.TakeDamage | src/objects/Dragon.js:456-462 | HP falls by the amount and the dragon is defeated the first time HP reaches 0 (DamageTaken) |
| DragonBoss.Dragon.Defeat | src/objects/Dragon.js:464-471 | defeated, weak point hidden, fireballs and traps cleared |
| DragonBoss.Dragon.HpPercent | src/objects/Dragon.js:487-489 | the fraction times 30 is the HP, and it lies in (0, 1] while 0 < hp <= 30 |
| DragonBoss.PhaseAtShippedHp | src/objects/Dragon.js:155-168 | 30 HP is phase 0, 19 and 10 HP are phase 1, 9 HP is phase 2 |
| DragonBoss.PhaseSelectedFromTableUpToFullHealth | src/objects/Dragon.js:159-167 | the scan finds a phase exactly when the fraction is at most 1 |
| DragonBoss.PhaseNeverRecedes | src/objects/Dragon.js:155-168 | less HP never selects an earlier phase |
| DragonBoss.FreshDragonWaitsForClock | src/objects/Dragon.js:101-109 | against a timer reset with the same clock, fireball, tail swipe and roar are available exactly once the time passes that clock |
| DragonBoss.NothingLongBeforeTheResetClock | src/objects/Dragon.js:185-204 | at a time at least 2250 ms before the reset clock no attack is available in any phase |
| DragonBoss.LaterPhaseKeepsAvailability | src/objects/Dragon.js:187-203 | a later phase keeps every attack that was already available |
| DragonBoss.LatchBlocksAttacks | src/objects/Dragon.js:127-130 | while the latch is set no attack starts, timestamps stay and the latch stays set |
| DragonBoss.DefeatedDragonIsInert | src/objects/Dragon.js:112 | a defeated dragon's frame changes nothing |
| DragonBoss.ChosenAttackIsStamped | src/objects/Dragon.js:205-230 | the choice is available; nothing happens when none is; only the chosen attack is stamped; the latch is set except for flame traps, which spawn their traps |
| DragonBoss.RoarPushesAway | src/objects/Dragon.js:343-346 | the roar pushes the player away from the dragon at 400 and up at 200, with 0.3 s invincibility |
| DragonBoss.DefeatIsOneShot | src/objects/Dragon.js:456-462 | damage always lowers HP, defeats exactly when HP reaches 0 or below, and does nothing more once defeated |
| DragonBoss.BatteredHp | src/objects/Dragon.js:435-462 | n weak-point hits take 3n HP and defeat exactly when that reaches the HP |
| DragonBoss.TenthHitDefeats | src/objects/Dragon.js:435-462 | from full HP nine hits leave 3 HP and the tenth defeats |
| DragonBoss.WeakPointHitsOnce | src/objects/Dragon.js:435-454 | a hit is accepted exactly while the point is visible and the dragon alive; it costs 3 HP and hides the point, so an immediate second hit is refused |
| DragonBoss.ShownPointLastsThreeSeconds | src/objects/Dragon.js:392-396 | a shown point has 3 s, stays visible exactly while dt < 3, and showing again changes nothing |
| DragonBoss.TrapsBurnTwoSeconds | src/objects/Dragon.js:139-149 | fresh traps survive a frame shorter than 2 s and all go out at 2 s or more |
| DragonBoss.TickKeepsOnlyLiveTraps | src/objects/Dragon.js:139-149 | every kept active trap has time left; inactive traps are kept; no trap appears from nowhere |
| DragonBoss.TickTrapsMembers | src/objects/Dragon.js:139-149 | a trap is in the ticked list exactly when it is an inactive trap of the old list or an active one with time left after dt, its timer lowered by dt |
| DragonBoss.LongTrapSurvives | src/objects/Dragon.js:139-149 | an active trap with more than dt left is kept with its timer lowered by dt |
| ClassicGame.ResolvedAll | game.js:233-253 | platform resolution never changes horizontal velocity, speed, jump power, size or facing |
| ClassicGame.FoesUpdated | game.js:262-283 | the enemy pass keeps the enemy count and does not touch coins |
| ClassicGame.CoinsChecked | game.js:286-295 | the coin pass changes only coin flags, coin count and score |
| ClassicGame.CollectedCount | game.js:286-295 | at most one collected coin per coin |
| ClassicGame.Game.constructor | game.js:15-67 | the starting hero, platforms, coins and enemies, score 0, running, no report |
| ClassicGame.Game.GameLoop | game.js:352-371 | the frame is Frame: nothing once stopped, else player, enemies, coins |
| ClassicGame.Game.UpdatePlayer | game.js:195-259 | integrate, resolve against every platform in order, and end the game below the canvas (PlayerUpdated) |
| ClassicGame.Game.UpdateEnemies | game.js:262-283 | the state is FoesUpdated over every enemy in order |
| ClassicGame.Game.StepFoe | game.js:263-281 | one enemy's patrol and contact is FoeStep |
| ClassicGame.Game.CheckCoins | game.js:286-295 | the state is CoinsChecked over every coin in order |
| ClassicGame.Game.EndGame | game.js:312-323 | running stops and the score and coins are reported |
| ClassicGame.CollisionIsSymmetricAndStrict | game.js:298-303 | the overlap test is symmetric, and boxes that only share an edge do not collide |
| ClassicGame.IntegrationBounds | game.js:207-232 | fall speed capped at 15, grounded cleared, x kept on screen, gravity 0.5 in the air, a grounded jump gives -jumpPower + 0.5 |
| ClassicGame.SteeringRule | game.js:196-205 | left wins over right; with no key the velocity decays by the 0.8 friction |
| ClassicGame.ResolutionSeparates | game.js:234-252 | a landing puts the hero on top, stopped and grounded; a head bump puts it below, stopped; it still overlaps only when neither happened and it has no horizontal velocity |
| ClassicGame.OnlyLandingGrounds | game.js:236-239 | only a landing grounds the hero, and resolution zeroes vy or leaves it |
| ClassicGame.GroundedMeansResting | game.js:232-253 | a hero grounded by the platform pass has zero vertical velocity |
| ClassicGame.StompsScoreHundreds | game.js:272-281 | the enemy pass raises the score by a multiple of 100, at most 100 per enemy |
| ClassicGame.ContactStompsOrEnds | game.js:272-281 | a stomp bounces at -8, scores 100 and sends the enemy to x = -1000; any other contact ends the game and reports the score; no contact only patrols |
| ClassicGame.PatrolTurnsAtBounds | game.js:264-269 | the enemy moves by its velocity and reverses exactly when its box reaches a bound (or it is still) |
| ClassicGame.CollectedCoinIsInert | game.js:288 | a collected coin is skipped |
| ClassicGame.CollectedCountUpdate | game.js:288 | collecting a new coin adds one to the collected count |
| ClassicGame.CoinsPickedUp | game.js:286-295 | the coin pass leaves the hero alone, changes only collected flags, and a coin ends collected exactly when it was or it is among those checked and overlaps the hero |
| ClassicGame.CoinsScoreFifty | game.js:286-295 | the coin pass adds one coin and 50 points per newly collected coin, and never uncollects one |
| ClassicGame.EndedGameIsFrozen | game.js:352-353 | a stopped game's frame changes nothing; ending reports score and coins |
| Transition.ScreenOf | src/scenes/TransitionScene.js:38-77 | the all-coins mark and label show exactly when all coins were taken, the no-death label exactly when the round's death count is 0, the boss warning and "BOSS ROUND!" exactly for round 5, "CONTINUE" otherwise |
| Transition.Route | src/scenes/TransitionScene.js:98-107 | the button opens the boss scene exactly for round 5, otherwise level nextRound - 1 |
| Transition.NoDeathLabelAlwaysShows | src/scenes/TransitionScene.js:45 | the no-death label shows after every completed round, also after one with deaths, whose bonus lacks the 500 |
| Transition.RoundsLeadToTheBoss | src/scenes/TransitionScene.js:98-107 | rounds 1-3 lead to the level numbered r + 1, and round 4 leads to the boss round 5 |
| RoundScene.CoinIds | src/scenes/GameScene.js:141 | the coin ids are exactly 0 to n-1, n of them |
| RoundScene.Without | src/scenes/GameScene.js:213-216 | removes one occurrence when present (length - 1), else leaves the list; keeps every other enemy; keeps distinct lists distinct without e |
| RoundScene.SpawnEnemies | src/scenes/GameScene.js:145-157 | one fresh, distinct enemy per definition, scaled to the screen |
| RoundScene.CountCoins | src/scenes/GameScene.js:111-143 | the total is the number of coin definitions, and all of them are live |
| RoundScene.GameScene.constructor | src/scenes/GameScene.js:9-56 | the round opens: all coins live, nothing collected, player at (0.1 w, 0.8 h), enemies placed, latches clear |
| RoundScene.GameScene.Restart | src/scenes/GameScene.js:9-56 | a later start opens the new level with the latches cleared (corrected) |
| RoundScene.GameScene.Started | src/scenes/GameScene.js:30-43 | the scene's fields take the new level, player, coins and enemies |
| RoundScene.GameScene.CollectCoin | src/scenes/GameScene.js:185-188 | the coin leaves the live set, the round count and the run's coin count rise, 50 points |
| RoundScene.GameScene.HandlePlayerEnemyCollision | src/scenes/GameScene.js:202-230 | a stomp defeats and removes the enemy; other contact damages a vulnerable player, costing a life (EnemyContact) |
| RoundScene.GameScene.LoseLife | src/scenes/GameScene.js:241-247 | one life lost, then respawn or game over |
| RoundScene.GameScene.RespawnPlayer | src/scenes/GameScene.js:232-236 | the player is reset to (0.1 w, 0.8 h) |
| RoundScene.GameScene.Update | src/scenes/GameScene.js:238-275 | the frame is Framed: fall check, player step, enemy patrol, then completion on the key |
| RoundScene.GameScene.StepAndPatrol | src/scenes/GameScene.js:239-254 | fall check, player step, and every enemy patrolled |
| RoundScene.GameScene.CheckFallAndStep | src/scenes/GameScene.js:239-251 | fall check, then the player's frame |
| RoundScene.GameScene.CheckCompletionKey | src/scenes/GameScene.js:259-274 | the round completes exactly when a completion trigger fired |
| RoundScene.GameScene.UpdateEnemies | src/scenes/GameScene.js:254 | every enemy takes its patrol step, stated by the two-state predicate `RoundScene.PatrolStepped`: each enemy's new velocity and facing, with its position unchanged |
| RoundScene.GameScene.CompleteRound | src/scenes/GameScene.js:277-298 | once per latch: the run is completed and advanced, the scene paused and the transition launched (RoundCompletedFrom) |
| RoundScene.GameScene.AdvanceRun | src/scenes/GameScene.js:281-283 | the run is completed with the all-coins flag, then advanced |
| RoundScene.GameScene.GameOver | src/scenes/GameScene.js:300-316 | the first call latches game over and saves the high score; later calls do nothing (GameOverFrom) |
| RoundScene.OpenedIsConsistent | src/scenes/GameScene.js:36-39 | a new round is consistent, with one live coin per definition |
| RoundScene.CoinCollectedKeepsConsistency | src/scenes/GameScene.js:185-188 | collecting keeps collected + live = total, removes the coin, never exceeds the total, adds 1 coin and 50 points |
| RoundScene.StompDefeatsTheEnemy | src/scenes/GameScene.js:203-216 | a stomp bounces the player, counts the enemy and 100 points, removes it once, keeps consistency and costs no life |
| RoundScene.InvinciblePlayerIgnoresContact | src/scenes/GameScene.js:219 | a non-stomp contact with an invincible player changes nothing |
| RoundScene.ContactCostsOneLife | src/scenes/GameScene.js:217-236 | a non-stomp contact costs one life; with lives left the player respawns invincible; otherwise game over with the high score saved |
| RoundScene.FallIgnoresInvincibility | src/scenes/GameScene.js:239-248 | falling below h + 100 costs a life even while invincible; otherwise nothing changes |
| RoundScene.RoundCompletesOnce | src/scenes/GameScene.js:277-298 | completion records the round, advances, pauses and launches the transition with its data; a second completion changes nothing |
| RoundScene.GameOverOnce | src/scenes/GameScene.js:300-312 | game over is idempotent, keeps the run and saves a high score at least the score |
| RoundScene.SecondRoundNeverCompletesAsWritten | src/scenes/GameScene.js:277-279 | as written, after round 1 completes the next round's completion is a no-op and launches nothing |
| RoundScene.SecondRoundCompletes | src/scenes/GameScene.js:9-56 | with the latches cleared on start, round 2 completes and launches its transition for round 2 |
| BossRound.BandOf | src/scenes/BossScene.js:117-123 | red exactly above 0.66, orange exactly in (0.33, 0.66], yellow exactly at or below 0.33 |
| BossRound.BossScene.constructor | src/scenes/BossScene.js:15-53 | full red bar of 0.6 w - 4, player at (0.15 w, 0.8 h), a new dragon, latches clear |
| BossRound.BossScene.PlayerHitByBoss | src/scenes/BossScene.js:151-160 | a hit the player accepts costs a life, then respawn or game over; a refused hit changes nothing (HitByBoss) |
| BossRound.BossScene.LoseLife | src/scenes/BossScene.js:220-225 | one life lost, then respawn or game over |
| BossRound.BossScene.RespawnPlayer | src/scenes/BossScene.js:162-166 | the player is reset to (0.15 w, 0.8 h) |
| BossRound.BossScene.UpdateBossHP | src/scenes/BossScene.js:112-124 | the bar width is the maximum times the HP fraction and its colour is the fraction's band (BarRefreshed) |
| BossRound.BossScene.Update | src/scenes/BossScene.js:214-250 | the frame is Framed: frozen when halted, a fall ends the frame, else play |
| BossRound.BossScene.Play | src/scenes/BossScene.js:229-249 | player and dragon frames, then contacts |
| BossRound.BossScene.Advance | src/scenes/BossScene.js:229-233 | the player's frame, then the dragon's |
| BossRound.BossScene.CheckContacts | src/scenes/BossScene.js:235-249 | flame-trap hits, then the weak point |
| BossRound.BossScene.CheckFlameTraps | src/scenes/BossScene.js:235-240 | every active touched trap is a hit, in list order |
| BossRound.BossScene.OnWeakPointContact | src/scenes/BossScene.js:243-249 | an accepted weak-point hit damages the dragon and refreshes the bar; a refused one changes nothing (WeakPointTried) |
| BossRound.BossScene.OnFireballContact | src/scenes/BossScene.js:145-148 | the fireball is destroyed, then the player is hit |
| BossRound.BossScene.OnTailSwipeMidpoint | src/objects/Dragon.js:310-319 | the player is hit exactly when in range |
| BossRound.BossScene.BossDefeated | src/scenes/BossScene.js:252-283 | the first call latches victory, scores 5000 and saves the high score; later calls do nothing (BossDefeatedFrom) |
| BossRound.BossScene.GameOver | src/scenes/BossScene.js:347-361 | the first call latches game over and saves the high score; later calls do nothing (BossGameOver) |
| BossRound.BossScene.Retry | src/scenes/BossScene.js:409-413 | lives restored to 3 and the round reopened with the latches cleared (corrected) |
| BossRound.BarColourTracksPhase | src/scenes/BossScene.js:112-124 | the bar colour names the dragon's phase: red phase 0, orange phase 1, yellow phase 2 |
| BossRound.BarWidthFollowsHealth | src/scenes/BossScene.js:112-114 | the width is proportional to HP, within [0, max], and full and red at full HP |
| BossRound.InvinciblePlayerIgnoresHits | src/scenes/BossScene.js:151-160 | a hit on an invincible player changes nothing |
| BossRound.HitCostsOneLife | src/scenes/BossScene.js:151-166 | a hit costs one life and leaves the dragon; with lives left the player respawns; otherwise game over with the high score saved |
| BossRound.TrapsCostAtMostOneLife | src/scenes/BossScene.js:236-240 | however many traps are touched in one frame, at most one life is lost, because the first hit makes the player invincible |
| BossRound.HaltedSceneIsFrozen | src/scenes/BossScene.js:215 | after game over or victory a frame changes nothing |
| BossRound.FallEndsTheFrame | src/scenes/BossScene.js:218-227 | a fall costs a life and skips the dragon's frame; the player respawns or the game ends |
| BossRound.WeakPointTouchIsAllOrNothing | src/scenes/BossScene.js:243-249 | an accepted touch costs 3 HP, hides the point and refreshes the bar; otherwise nothing changes |
| BossRound.VictoryBonusOnce | src/scenes/BossScene.js:252-268 | victory adds 5000 once and saves the high score; a second call changes nothing |
| BossRound.BossGameOverOnce | src/scenes/BossScene.js:347-358 | game over is idempotent, keeps the run and saves the high score |
| BossRound.RetryFreezesAsWritten | src/scenes/BossScene.js:409-413 | as written, the retried round keeps the game-over latch, and every frame changes nothing |
| BossRound.RetryResumesPlay | src/scenes/BossScene.js:409-413 | with the latches cleared, the retried round runs: 3 lives, score kept, dragon at 30 HP, and the next frame advances the dragon |
| Config.LevelsAreNumbered | config.js:61-200 | there are four levels numbered 1 to 4, and the boss level is round 5 |
| Config.PhaseTableIsOrdered | config.js:250-255 | three phases, thresholds strictly falling from 1.0, multipliers strictly rising from 1.0 |
| Config.FlameTrapPhaseIsLastTier | config.js:241-255 | flame traps unlock at the last phase, threshold 0.33 |
| Config.EnemiesStartInsidePatrol | config.js:61-196 | every enemy starts inside a non-empty patrol range |
| Config.CoinValuesAgree | config.js:274 | the scoring coin value equals the player section's coin value, 50 |
| Config.GroundComesFirst | config.js:61-210 | every level, the boss level included, starts with the fixed ground strip reaching the bottom edge |
| Config.WeakPointShowsBriefly | config.js:258-264 | the weak point shows for less time than the interval between showings |

## Left out

- Physics: Arcade physics integration, collisions and overlaps are inputs to the
  model (blocked-below flag, touch sets, in-range flag). The engine's maximum
  velocity clamp is not modelled. Enemy motion between updates is not modelled,
  so `EnemyPatrol.Enemy.Update` keeps x and y.
- Moving platforms (`MovingPlatform.js`), touch controls, UI, menu, boot and
  `main.js` are not part of this model.
- Audio, tweens, graphics, camera shake and the dragon's idle bob are visual or
  audible only.
- The fireball telegraph and volley timing are not modelled, and neither are
  fireball trajectories or the destruction of fireballs that leave the screen.
  The model keeps only the number of live fireballs.
- Randomness: the attack pick and flame-trap positions are parameters.
- The tail swipe's distance test is the boolean `inRange`.
- Telegram `sendData` and `localStorage`: only the "keep the larger score" rule is
  kept (`Progress.HighScoreAfter`). The canvas game's reports are a list.
- Floating point: numbers are exact reals. For example, 10/30 is exactly one
  third, which is above 0.33, so 10 HP is phase 1, as the code computes.
- The completion zone of the round scene is created once per scene object. Its
  overlap is folded into `completeKey`. The model does not capture that, after a
  restart, the old destroyed zone is never re-created.
- The weak-point overlap registered in `setupCollisions` is bound to a null
  sprite and never fires. Only the per-frame check in `update` is modelled.
- Transition screen layout, texts other than the labels and button, and the
  button's colour are left out.
- DragonBoss.TickTraps: its own contract states only the length bound. The
  content properties are in `DragonBoss.TickTrapsMembers`,
  `DragonBoss.TickKeepsOnlyLiveTraps` and `DragonBoss.LongTrapSurvives`.

## Findings

| source | as written | input that shows it | evidently intended | confidence | as-written member | corrected member |
|---|---|---|---|---|---|---|
| src/scenes/GameScene.js:277-279 | `roundCompleted` is set by `completeRound` and never cleared. `create` does not reset it, and the scene object is reused by `scene.start`. | Complete round 1, then start round 2 and press R: `completeRound` returns at once and no transition is launched. | Each round starts with the latch clear, so every round can complete. | medium, not executed (depends on the scene object being reused across starts) | RoundScene.SecondRoundNeverCompletesAsWritten | RoundScene.SecondRoundCompletes |
| src/scenes/BossScene.js:409-413 | Retry restores lives and restarts the scene, but `isGameOver` stays true, and `update` returns at once while it is set. | Lose all lives in the boss round, then press RETRY BOSS: the new round never updates. | Retry starts a playable round with the latches clear. | medium, not executed (depends on the scene object being reused across restarts) | BossRound.RetryFreezesAsWritten | BossRound.RetryResumesPlay |
| src/objects/Dragon.js:104 | The attack timestamps are taken from `Date.now()` (wall-clock epoch milliseconds), but `decideAttack` compares them with the scene's `time` (milliseconds since the game started). | Scene time 10000 and wall clock 1.7e12: `time + 2250 <= clock`, so no attack is ever available. | The timestamps use the same clock as `decideAttack`, so the first attacks come as soon as the scene time passes the reset time. | high, not executed | DragonBoss.NothingLongBeforeTheResetClock | DragonBoss.FreshDragonWaitsForClock |

`DragonBoss.Dragon.constructor`, `BossRound.BossScene.constructor` and
`BossRound.BossScene.Retry` take the reset clock as a parameter. The corrected
behaviour is to pass the same scene time that `Update` later receives, and
`DragonBoss.FreshDragonWaitsForClock` states what that gives.
