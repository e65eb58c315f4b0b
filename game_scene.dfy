/**
 * A regular round (rounds 1 to 4): coins, patrolling enemies, the
 * stomp-or-get-hurt rule, falling off the level, completing the round once
 * and the once-only game over with its high-score rule.
 *
 * The physics engine decides overlaps: a coin overlap calls `CollectCoin`,
 * an enemy overlap calls `HandlePlayerEnemyCollision`, the completion zone
 * calls `CompleteRound`. `SceneData` is the value of everything the scene
 * holds (its own fields, the run tracker, the player and the high score);
 * each method is proved against a function on it.
 */
module RoundScene {
  import opened Config
  import opened Optional
  import opened Progress
  import opened PlayerController
  import opened EnemyPatrol
  import opened Transition

  datatype SceneData = SceneData(
    levelIndex: nat,
    coinsTotal: int,
    coinsCollected: int,
    liveCoins: set<nat>,
    roundCompleted: bool,
    isGameOver: bool,
    paused: bool,
    launched: Option<TransitionData>,
    enemies: seq<Enemy>,
    run: RunData,
    player: PlayerData,
    highScore: int)

  /** The ids of a level's coins: one per coin of its layout. */
  function CoinIds(n: int): (r: set<nat>)
    ensures forall i: nat :: i in r <==> i < n
    ensures n >= 0 ==> |r| == n
  {
    if n <= 0 then {} else CoinIds(n - 1) + {n - 1}
  }

  predicate Distinct(es: seq<Enemy>) {
    forall i, j :: 0 <= i < j < |es| ==> es[i] != es[j]
  }

  lemma DistinctSnoc(es: seq<Enemy>, a: Enemy)
    requires a !in es && Distinct(es)
    ensures Distinct(es + [a])
  {
  }

  lemma DistinctCons(a: Enemy, es: seq<Enemy>)
    requires a !in es && Distinct(es)
    ensures Distinct([a] + es)
  {
    forall i, j | 0 <= i < j < |[a] + es|
      ensures ([a] + es)[i] != ([a] + es)[j]
    {
      if i > 0 {
        assert ([a] + es)[i] == es[i - 1];
      }
      assert ([a] + es)[j] == es[j - 1];
    }
  }

  /** Every collected coin is counted once, every coin not yet collected is still in the level, and no enemy is listed twice. */
  predicate Consistent(s: SceneData) {
    && s.levelIndex < |Levels|
    && s.liveCoins <= CoinIds(s.coinsTotal)
    && s.coinsCollected + |s.liveCoins| == s.coinsTotal
    && Distinct(s.enemies)
  }

  /** `init` + `create`: the level's coins all live, nothing collected, the player at (0.1 w, 0.8 h), no latch set. */
  function Opened(index: nat, w: real, h: real, run: RunData, highScore: int, es: seq<Enemy>): SceneData
    requires index < |Levels|
  {
    SceneData(index, |Levels[index].coins|, 0, CoinIds(|Levels[index].coins|), false, false, false, None,
              es, run, Spawned(w * 0.1, h * 0.8), highScore)
  }

  /** A later start of the same scene: the run and the stored high score carry over, everything else is new. */
  function Restarted(prev: SceneData, index: nat, w: real, h: real, es: seq<Enemy>): SceneData
    requires index < |Levels|
  {
    Opened(index, w, h, prev.run, prev.highScore, es)
  }

  /** A coin the player touched: gone from the level, counted, and worth a coin to the run. */
  function CoinCollected(s: SceneData, id: nat): SceneData {
    s.(liveCoins := s.liveCoins - {id}, coinsCollected := s.coinsCollected + 1, run := WithCoin(s.run))
  }

  /** `respawnPlayer`: back to (0.1 w, 0.8 h). */
  function RespawnedAt(s: SceneData, w: real, h: real): SceneData {
    s.(player := ResetAt(s.player, w * 0.1, h * 0.8))
  }

  /** `gameOver`: the first call latches and saves the high score; later calls do nothing. */
  function GameOverFrom(s: SceneData): SceneData {
    if s.isGameOver then s
    else s.(isGameOver := true, highScore := HighScoreAfter(s.highScore, s.run.score))
  }

  /** A life is lost: game over when none remain, otherwise a respawn. */
  function LifeLostFrom(s: SceneData, w: real, h: real): SceneData {
    var t := s.(run := LifeLost(s.run));
    if HasLivesLeft(t.run) then RespawnedAt(t, w, h) else GameOverFrom(t)
  }

  /** The stomp test: falling, and more than 10 units above the enemy. */
  predicate IsStomp(p: PlayerData, enemyY: real) {
    p.body.vy > 0.0 && p.body.y < enemyY - 10.0
  }

  /** `indexOf` + `splice`: the first occurrence of `e` is removed, if there is one. */
  function Without(es: seq<Enemy>, e: Enemy): (r: seq<Enemy>)
    ensures e in es ==> |r| == |es| - 1
    ensures e !in es ==> r == es
    ensures forall x :: x in r ==> x in es
    ensures forall x :: x in es && x != e ==> x in r
    ensures Distinct(es) ==> Distinct(r) && e !in r
  {
    if |es| == 0 then es
    else if es[0] == e then es[1..]
    else
      var rest := Without(es[1..], e);
      assert Distinct(es) ==> Distinct(es[1..]) && es[0] !in es[1..];
      if Distinct(es) then DistinctCons(es[0], rest); [es[0]] + rest else [es[0]] + rest
  }

  /** `handlePlayerEnemyCollision` for an enemy at height `enemyY`. */
  function EnemyContact(s: SceneData, e: Enemy, enemyY: real, w: real, h: real): SceneData {
    if IsStomp(s.player, enemyY) then
      s.(player := Bounced(s.player), run := WithEnemyDefeated(s.run), enemies := Without(s.enemies, e))
    else
      var hurt := Damaged(s.player);
      if hurt.1 then LifeLostFrom(s.(player := hurt.0), w, h) else s
  }

  /** The fall-off check: below the bottom edge by more than 100. */
  predicate FellOff(s: SceneData, h: real) {
    s.player.body.y > h + 100.0
  }

  function FallChecked(s: SceneData, w: real, h: real): SceneData {
    if FellOff(s, h) then LifeLostFrom(s, w, h) else s
  }

  /**
   * `completeRound`: the first call records the round with its bonus, moves
   * to the next round, pauses the scene and launches the transition screen.
   */
  function RoundCompletedFrom(s: SceneData): SceneData
    requires s.levelIndex < |Levels|
  {
    if s.roundCompleted then s
    else
      var r := RoundAdvanced(RoundCompleted(s.run, s.coinsCollected == s.coinsTotal));
      s.(roundCompleted := true, run := r, paused := true,
         launched := Some(TransitionData(Levels[s.levelIndex].round, s.coinsCollected, s.coinsTotal,
                                         r.score, r.currentRound)))
  }

  /** One `update`: fall-off check, the player's frame, then the completion key. */
  function Framed(s: SceneData, delta: real, grounded: bool, b: Buttons, completeKey: bool, w: real, h: real): SceneData
    requires s.levelIndex < |Levels|
  {
    var f := FallChecked(s, w, h);
    var g := f.(player := Stepped(f.player, Seconds(delta), grounded, b));
    if completeKey then RoundCompletedFrom(g) else g
  }

  /** Each enemy of `es` was created from the matching entry of `defs`, scaled to the screen. */
  predicate Placed(es: seq<Enemy>, defs: seq<EnemyDef>, w: real, h: real)
    reads es
  {
    && |es| == |defs|
    && forall i :: 0 <= i < |es| ==>
         && es[i].x == defs[i].x * w && es[i].y == defs[i].y * h
         && es[i].minX == defs[i].patrolMin * w && es[i].maxX == defs[i].patrolMax * w
         && es[i].vx == defs[i].speed && es[i].baseSpeed == defs[i].speed
  }

  /** `createEnemies`: one new enemy per entry of the level's list. */
  method SpawnEnemies(defs: seq<EnemyDef>, w: real, h: real) returns (es: seq<Enemy>)
    ensures Distinct(es)
    ensures forall e :: e in es ==> fresh(e)
    ensures Placed(es, defs, w, h)
  {
    es := [];
    var i := 0;
    while i < |defs|
      invariant 0 <= i <= |defs| && |es| == i
      invariant Distinct(es)
      invariant forall j :: 0 <= j < i ==> fresh(es[j])
      invariant forall j :: 0 <= j < i ==>
                  && es[j].x == defs[j].x * w && es[j].y == defs[j].y * h
                  && es[j].minX == defs[j].patrolMin * w && es[j].maxX == defs[j].patrolMax * w
                  && es[j].vx == defs[j].speed && es[j].baseSpeed == defs[j].speed
    {
      var d := defs[i];
      var enemy := new Enemy(d.x * w, d.y * h, d.patrolMin * w, d.patrolMax * w, d.speed);
      DistinctSnoc(es, enemy);
      es := es + [enemy];
      i := i + 1;
    }
  }

  /** `createCoins`: one live coin per entry of the level's list, counted as it is placed. */
  method CountCoins(defs: seq<CoinDef>) returns (total: int, live: set<nat>)
    ensures total == |defs| && live == CoinIds(total) && |live| == total
  {
    total, live := 0, {};
    while total < |defs|
      invariant 0 <= total <= |defs|
      invariant live == CoinIds(total)
    {
      live := live + {total};
      total := total + 1;
    }
  }

  /** Every enemy of `es` took one patrol step since the previous state. */
  twostate predicate PatrolStepped(es: seq<Enemy>)
    reads es
  {
    forall i :: 0 <= i < |es| ==>
      && es[i].vx == PatrolVelocity(old(es[i].x), old(es[i].vx), es[i].minX, es[i].maxX)
      && es[i].flipX == FacesLeft(es[i].vx)
      && es[i].x == old(es[i].x) && es[i].y == old(es[i].y)
  }

  class GameScene {
    const gameWidth: real
    const gameHeight: real
    const gameState: GameState
    const store: HighScoreStore
    var levelIndex: nat
    var player: Player
    var enemies: seq<Enemy>
    var coinsTotal: int
    var coinsCollected: int
    var liveCoins: set<nat>
    var roundCompleted: bool
    var isGameOver: bool
    var paused: bool
    var launched: Option<TransitionData>

    function Data(): SceneData
      reads this, gameState, store, player
    {
      SceneData(levelIndex, coinsTotal, coinsCollected, liveCoins, roundCompleted, isGameOver, paused,
                launched, enemies, gameState.Data(), player.Data(), store.highScore)
    }

    predicate Valid()
      reads this, gameState, store, player
    {
      Consistent(Data())
    }

    /** The first start of the scene on level `index`. */
    constructor (index: nat, width: real, height: real, state: GameState, highScores: HighScoreStore)
      requires index < |Levels|
      ensures gameWidth == width && gameHeight == height && gameState == state && store == highScores
      ensures fresh(player) && forall e :: e in enemies ==> fresh(e)
      ensures Placed(enemies, Levels[index].enemies, width, height)
      ensures Data() == Opened(index, width, height, state.Data(), highScores.highScore, enemies)
      ensures Valid()
    {
      gameWidth, gameHeight := width, height;
      gameState, store := state, highScores;
      levelIndex := index;
      player := new Player(width * 0.1, height * 0.8);
      var total, live := CountCoins(Levels[index].coins);
      coinsTotal, liveCoins := total, live;
      coinsCollected := 0;
      var es := SpawnEnemies(Levels[index].enemies, width, height);
      enemies := es;
      roundCompleted, isGameOver, paused := false, false, false;
      launched := None;
    }

    /** A later start on level `index`: new player, coins and enemies; the run goes on. */
    method Restart(index: nat)
      requires index < |Levels|
      modifies this
      ensures fresh(player) && forall e :: e in enemies ==> fresh(e)
      ensures Placed(enemies, Levels[index].enemies, gameWidth, gameHeight)
      ensures Data() == Restarted(old(Data()), index, gameWidth, gameHeight, enemies)
      ensures Valid()
    {
      var level := Levels[index];
      var es := SpawnEnemies(level.enemies, gameWidth, gameHeight);
      var p := new Player(gameWidth * 0.1, gameHeight * 0.8);
      var total, live := CountCoins(level.coins);
      Started(index, p, total, live, es);
    }

    /** The fields `create` sets on every start. */
    method Started(index: nat, p: Player, total: int, live: set<nat>, es: seq<Enemy>)
      modifies this
      ensures levelIndex == index && player == p && enemies == es
      ensures coinsTotal == total && liveCoins == live && coinsCollected == 0
      ensures !roundCompleted && !isGameOver && !paused && launched == None
    {
      levelIndex, player, enemies := index, p, es;
      coinsTotal, liveCoins, coinsCollected := total, live, 0;
      roundCompleted, isGameOver, paused := false, false, false;
      launched := None;
    }

    /** The coin `id` is touched (the engine reports only coins still in the level). */
    method CollectCoin(id: nat)
      requires Valid() && id in liveCoins
      modifies this`liveCoins, this`coinsCollected, gameState
      ensures Valid()
      ensures Data() == CoinCollected(old(Data()), id)
    {
      liveCoins := liveCoins - {id};
      coinsCollected := coinsCollected + 1;
      gameState.AddCoin();
      CoinCollectedKeepsConsistency(old(Data()), id);
    }

    method HandlePlayerEnemyCollision(enemy: Enemy)
      requires Valid()
      modifies this`enemies, this`isGameOver, player, gameState, store
      ensures Valid()
      ensures Data() == EnemyContact(old(Data()), enemy, enemy.y, gameWidth, gameHeight)
    {
      if player.body.vy > 0.0 && player.body.y < enemy.y - 10.0 {
        player.BounceOnEnemy();
        gameState.DefeatEnemy();
        enemies := Without(enemies, enemy);
      } else {
        var applied := player.TakeDamage();
        if applied {
          LoseLife();
        }
      }
    }

    /** `loseLife`, then game over or a respawn. */
    method LoseLife()
      requires Valid()
      modifies this`isGameOver, player, gameState, store
      ensures Valid()
      ensures Data() == LifeLostFrom(old(Data()), gameWidth, gameHeight)
    {
      var livesRemain := gameState.LoseLife();
      if !livesRemain {
        GameOver();
      } else {
        RespawnPlayer();
      }
    }

    method RespawnPlayer()
      modifies player
      ensures Data() == RespawnedAt(old(Data()), gameWidth, gameHeight)
    {
      player.Reset(gameWidth * 0.1, gameHeight * 0.8);
    }

    /** One frame of a running round; `completeKey` is the R key's just-pressed state. */
    method Update(delta: real, blockedDown: bool, buttons: Buttons, completeKey: bool)
      requires Valid() && !paused
      modifies this`isGameOver, this`roundCompleted, this`paused, this`launched, player, gameState, store,
               set e | e in enemies
      ensures Valid()
      ensures Data() == Framed(old(Data()), delta, blockedDown, buttons, completeKey, gameWidth, gameHeight)
      ensures PatrolStepped(enemies)
    {
      StepAndPatrol(delta, blockedDown, buttons);
      CheckCompletionKey(completeKey);
    }

    /** The player's part of the frame, then the enemies' patrol. */
    method StepAndPatrol(delta: real, blockedDown: bool, buttons: Buttons)
      requires Valid()
      modifies this`isGameOver, player, gameState, store, set e | e in enemies
      ensures Valid()
      ensures Data() == var f := FallChecked(old(Data()), gameWidth, gameHeight);
                        f.(player := Stepped(f.player, Seconds(delta), blockedDown, buttons))
      ensures PatrolStepped(enemies)
    {
      CheckFallAndStep(delta, blockedDown, buttons);
      UpdateEnemies();
    }

    /** The fall-off check, then the player's own frame. */
    method CheckFallAndStep(delta: real, blockedDown: bool, buttons: Buttons)
      requires Valid()
      modifies this`isGameOver, player, gameState, store
      ensures Valid()
      ensures Data() == var f := FallChecked(old(Data()), gameWidth, gameHeight);
                        f.(player := Stepped(f.player, Seconds(delta), blockedDown, buttons))
    {
      if player.body.y > gameHeight + 100.0 {
        LoseLife();
      }
      player.Update(delta, blockedDown, buttons);
    }

    /** The R key completes the round. */
    method CheckCompletionKey(completeKey: bool)
      requires Valid()
      modifies this`roundCompleted, this`paused, this`launched, gameState
      ensures Valid()
      ensures Data() == if completeKey then RoundCompletedFrom(old(Data())) else old(Data())
    {
      if completeKey {
        CompleteRound();
      }
    }

    /** Every enemy still in the list takes its patrol step. */
    method UpdateEnemies()
      requires Distinct(enemies)
      modifies set e | e in enemies
      ensures PatrolStepped(enemies)
    {
      var i := 0;
      while i < |enemies|
        invariant 0 <= i <= |enemies|
        invariant forall j :: 0 <= j < i ==>
                    && enemies[j].vx == PatrolVelocity(old(enemies[j].x), old(enemies[j].vx), enemies[j].minX, enemies[j].maxX)
                    && enemies[j].flipX == FacesLeft(enemies[j].vx)
                    && enemies[j].x == old(enemies[j].x) && enemies[j].y == old(enemies[j].y)
        invariant forall j :: i <= j < |enemies| ==> unchanged(enemies[j])
      {
        enemies[i].Update();
        i := i + 1;
      }
    }

    method CompleteRound()
      requires Valid()
      modifies this`roundCompleted, this`paused, this`launched, gameState
      ensures Valid()
      ensures Data() == RoundCompletedFrom(old(Data()))
    {
      if roundCompleted {
        return;
      }
      var allCoinsCollected := coinsCollected == coinsTotal;
      AdvanceRun(allCoinsCollected);
      roundCompleted := true;
      paused := true;
      launched := Some(TransitionData(Levels[levelIndex].round, coinsCollected, coinsTotal,
                                      gameState.score, gameState.currentRound));
    }

    /** The run's side of `completeRound`: the round's bonus, then the next round. */
    method AdvanceRun(allCoinsCollected: bool)
      modifies gameState
      ensures gameState.Data() == RoundAdvanced(RoundCompleted(old(gameState.Data()), allCoinsCollected))
    {
      gameState.CompleteRound(allCoinsCollected);
      gameState.NextRound();
    }

    method GameOver()
      modifies this`isGameOver, store
      ensures Data() == GameOverFrom(old(Data()))
    {
      if isGameOver {
        return;
      }
      isGameOver := true;
      store.Save(gameState.score);
    }
  }

  // ----- properties of a round -----

  /** A freshly started round is consistent: every coin of the level is live and none is counted. */
  lemma OpenedIsConsistent(index: nat, w: real, h: real, run: RunData, highScore: int, es: seq<Enemy>)
    requires index < |Levels| && Distinct(es)
    ensures var s := Opened(index, w, h, run, highScore, es);
      Consistent(s) && s.coinsTotal == |Levels[index].coins| && |s.liveCoins| == s.coinsTotal
  {
  }

  /** Collecting a live coin keeps the books: it is gone, counted once, and worth 50 to the run. */
  lemma CoinCollectedKeepsConsistency(s: SceneData, id: nat)
    requires Consistent(s) && id in s.liveCoins
    ensures var r := CoinCollected(s, id);
      && Consistent(r) && id !in r.liveCoins
      && r.coinsCollected == s.coinsCollected + 1 && r.coinsCollected <= r.coinsTotal
      && r.run.coins == s.run.coins + 1 && r.run.score == s.run.score + CoinValue
  {
  }

  /** A stomp defeats the enemy once: it bounces the player, scores 100, and takes that enemy out of the list. */
  lemma StompDefeatsTheEnemy(s: SceneData, e: Enemy, enemyY: real, w: real, h: real)
    requires Consistent(s) && IsStomp(s.player, enemyY)
    ensures var r := EnemyContact(s, e, enemyY, w, h);
      && r.run == WithEnemyDefeated(s.run) && r.player == Bounced(s.player)
      && e !in r.enemies && |r.enemies| == |s.enemies| - (if e in s.enemies then 1 else 0)
      && Consistent(r) && r.isGameOver == s.isGameOver
  {
  }

  /** Any other contact while invincible changes nothing at all. */
  lemma InvinciblePlayerIgnoresContact(s: SceneData, e: Enemy, enemyY: real, w: real, h: real)
    requires !IsStomp(s.player, enemyY) && s.player.isInvincible
    ensures EnemyContact(s, e, enemyY, w, h) == s
  {
  }

  /**
   * Any other contact while vulnerable costs exactly one life: with lives
   * left, the player is back at (0.1 w, 0.8 h), at rest and invincible;
   * with none left, the round is over and the high score saved.
   */
  lemma ContactCostsOneLife(s: SceneData, e: Enemy, enemyY: real, w: real, h: real)
    requires !IsStomp(s.player, enemyY) && !s.player.isInvincible
    ensures var r := EnemyContact(s, e, enemyY, w, h);
      && r.run == LifeLost(s.run) && r.enemies == s.enemies
      && (r.run.lives > 0 ==>
            r.player.body == Body(w * 0.1, h * 0.8, 0.0, 0.0, 0.0, 0.0)
            && r.player.isInvincible && r.player.invincibleTimer == InvincibilityTime
            && r.isGameOver == s.isGameOver)
      && (r.run.lives <= 0 ==>
            r.isGameOver
            && r.highScore == (if s.isGameOver then s.highScore else HighScoreAfter(s.highScore, s.run.score)))
  {
  }

  /** Falling off costs a life even while invincible; staying on the level costs nothing. */
  lemma FallIgnoresInvincibility(s: SceneData, w: real, h: real)
    ensures FellOff(s, h) ==> FallChecked(s, w, h).run == LifeLost(s.run)
    ensures !FellOff(s, h) ==> FallChecked(s, w, h) == s
  {
  }

  /**
   * `completeRound` takes effect once: the round is recorded with the
   * all-coins test, the round number moves on by one, and the transition
   * screen gets the new score and the next round; a second call is a no-op.
   */
  lemma RoundCompletesOnce(s: SceneData)
    requires Consistent(s) && !s.roundCompleted
    ensures var r := RoundCompletedFrom(s);
      && r.run == RoundAdvanced(RoundCompleted(s.run, s.coinsCollected == s.coinsTotal))
      && r.paused && r.roundCompleted
      && r.launched == Some(TransitionData(s.levelIndex + 1, s.coinsCollected, s.coinsTotal,
                                           r.run.score, s.run.currentRound + 1))
      && RoundCompletedFrom(r) == r
  {
    LevelsAreNumbered();
  }

  /** `gameOver` takes effect once, and the stored high score becomes the larger of the two. */
  lemma GameOverOnce(s: SceneData)
    ensures GameOverFrom(GameOverFrom(s)) == GameOverFrom(s)
    ensures !s.isGameOver ==> GameOverFrom(s).highScore >= s.highScore
                              && GameOverFrom(s).highScore >= s.run.score
    ensures GameOverFrom(s).run == s.run && GameOverFrom(s).isGameOver
  {
  }

  // ----- the latches across a restart -----

  /**
   * The scene object is reused when the scene starts again, and `create`
   * does not clear `roundCompleted` or `isGameOver`: this is the start as
   * the code has it.
   */
  function RestartedAsWritten(prev: SceneData, index: nat, w: real, h: real, es: seq<Enemy>): SceneData
    requires index < |Levels|
  {
    Restarted(prev, index, w, h, es).(roundCompleted := prev.roundCompleted, isGameOver := prev.isGameOver)
  }

  /** As written, round 2 can never complete: the latch set by round 1 survives the restart. */
  lemma SecondRoundNeverCompletesAsWritten(w: real, h: real, run: RunData, highScore: int,
                                           es1: seq<Enemy>, es2: seq<Enemy>)
    ensures var round2 := RestartedAsWritten(RoundCompletedFrom(Opened(0, w, h, run, highScore, es1)), 1, w, h, es2);
      RoundCompletedFrom(round2) == round2 && round2.launched == None
  {
  }

  /** With the latches cleared on every start, round 2 completes and launches its transition screen. */
  lemma SecondRoundCompletes(w: real, h: real, run: RunData, highScore: int, es1: seq<Enemy>, es2: seq<Enemy>)
    ensures var round1 := RoundCompletedFrom(Opened(0, w, h, run, highScore, es1));
            var round2 := RoundCompletedFrom(Restarted(round1, 1, w, h, es2));
      round2.launched.Some? && round2.launched.value.round == 2
      && round2.launched.value.nextRound == run.currentRound + 2
      && |round2.run.roundsCompleted| == |run.roundsCompleted| + 2
  {
  }
}
