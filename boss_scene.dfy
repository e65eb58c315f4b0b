/**
 * The boss round (round 5): the player against the dragon. Hits from the
 * dragon's body, fireballs, the tail swipe and active flame traps cost a
 * life unless the player is invincible; landing on the shown weak point
 * damages the dragon; the HP bar follows the dragon's health; the victory
 * bonus and the game over each take effect once; a retry restores the lives.
 *
 * The physics engine decides overlaps and the tail-swipe range test; they
 * are inputs here. `BossData` is the value of everything the scene holds.
 */
module BossRound {
  import opened Config
  import opened Progress
  import opened PlayerController
  import opened DragonBoss

  /** The HP bar's fill: red, orange, yellow. */
  datatype Colour = Red | Orange | Yellow

  datatype BossData = BossData(
    isGameOver: bool,
    isBossDefeated: bool,
    run: RunData,
    player: PlayerData,
    dragon: DragonData,
    highScore: int,
    barWidth: real,
    barColour: Colour)

  /** The guard at the top of `update`. */
  predicate Halted(s: BossData) {
    s.isGameOver || s.isBossDefeated
  }

  /** The colour band of `updateBossHP`. */
  function BandOf(frac: real): (c: Colour)
    ensures c == Red <==> frac > 0.66
    ensures c == Orange <==> 0.33 < frac <= 0.66
    ensures c == Yellow <==> frac <= 0.33
  {
    if frac > 0.66 then Red else if frac > 0.33 then Orange else Yellow
  }

  /** `updateBossHP`: the bar's width is its full width times the health fraction; its colour is the fraction's band. */
  function BarRefreshed(s: BossData, maxWidth: real): BossData {
    var frac := HpFraction(s.dragon.hp);
    s.(barWidth := maxWidth * frac, barColour := BandOf(frac))
  }

  /** `create`: full bar, red, both latches clear, a new player at (0.15 w, 0.8 h) and a new dragon. */
  function Opened(run: RunData, highScore: int, w: real, h: real, clock: real, maxWidth: real): BossData {
    BossData(false, false, run, Spawned(w * 0.15, h * 0.8), NewDragon(clock), highScore, maxWidth, Red)
  }

  /** `gameOver`: the first call latches and saves the high score; later calls do nothing. */
  function BossGameOver(s: BossData): BossData {
    if s.isGameOver then s
    else s.(isGameOver := true, highScore := HighScoreAfter(s.highScore, s.run.score))
  }

  /** `respawnPlayer`: back to (0.15 w, 0.8 h). */
  function PlayerRespawned(s: BossData, w: real, h: real): BossData {
    s.(player := ResetAt(s.player, w * 0.15, h * 0.8))
  }

  /** A life is lost: game over when none remain, otherwise a respawn. */
  function LifeLostIn(s: BossData, w: real, h: real): BossData {
    var t := s.(run := LifeLost(s.run));
    if HasLivesLeft(t.run) then PlayerRespawned(t, w, h) else BossGameOver(t)
  }

  /** `playerHitByBoss`: nothing unless the player's `takeDamage` accepts the hit. */
  function HitByBoss(s: BossData, w: real, h: real): BossData {
    var hurt := Damaged(s.player);
    if hurt.1 then LifeLostIn(s.(player := hurt.0), w, h) else s
  }

  /** The flame-trap pass of `update`: every active trap the player touches is a hit, in list order. */
  function TrapHits(s: BossData, traps: seq<FlameTrapState>, touching: set<nat>, w: real, h: real): BossData {
    if |traps| == 0 then s
    else
      var t := TrapHits(s, traps[..|traps| - 1], touching, w, h);
      if traps[|traps| - 1].active && |traps| - 1 in touching then HitByBoss(t, w, h) else t
  }

  /** A touch on the weak point: if `hitWeakPoint` accepts it, the bar is refreshed. */
  function WeakPointTried(s: BossData, maxWidth: real): BossData {
    var hit := WeakPointHit(s.dragon);
    if hit.1 then BarRefreshed(s.(dragon := hit.0), maxWidth) else s
  }

  /** `bossDefeated`: the first call latches, adds the 5000 bonus and saves the high score. */
  function BossDefeatedFrom(s: BossData): BossData {
    if s.isBossDefeated then s
    else
      var r := Scored(s.run, DefeatBonusScore);
      s.(isBossDefeated := true, run := r, highScore := HighScoreAfter(s.highScore, r.score))
  }

  predicate FellOff(s: BossData, h: real) {
    s.player.body.y > h + 100.0
  }

  /** The player's frame, then the dragon's, which may roar at the player. */
  function Advanced(s: BossData, time: real, delta: real, grounded: bool, b: Buttons, pick: nat,
                    xs: seq<real>, trapY: real, dragonX: real): BossData
    requires Wf(s.dragon)
  {
    var p := Stepped(s.player, Seconds(delta), grounded, b);
    s.(player := if s.dragon.isDefeated then p else AfterAttack(p, FrameChoice(s.dragon, time, Seconds(delta), pick), dragonX),
       dragon := Updated(s.dragon, time, Seconds(delta), pick, xs, trapY))
  }

  /** The frame after the player and the dragon moved: flame traps, then the weak point. */
  function Contacts(s: BossData, touching: set<nat>, weakPointTouched: bool, w: real, h: real, maxWidth: real): BossData {
    var t := TrapHits(s, s.dragon.flameTraps, touching, w, h);
    if weakPointTouched then WeakPointTried(t, maxWidth) else t
  }

  /**
   * One `update`: nothing once halted; a fall costs a life and ends the
   * frame; otherwise the player and the dragon move and contacts are checked.
   */
  function Framed(s: BossData, time: real, delta: real, grounded: bool, b: Buttons, pick: nat, xs: seq<real>,
                  touching: set<nat>, weakPointTouched: bool, w: real, h: real, trapY: real, dragonX: real,
                  maxWidth: real): BossData
    requires Wf(s.dragon)
  {
    if Halted(s) then s
    else if FellOff(s, h) then LifeLostIn(s, w, h)
    else Contacts(Advanced(s, time, delta, grounded, b, pick, xs, trapY, dragonX), touching, weakPointTouched, w, h, maxWidth)
  }

  /** The retry button: lives back to three, then a new start of the scene. */
  function Retried(s: BossData, w: real, h: real, clock: real, maxWidth: real): BossData {
    Opened(s.run.(lives := StartLives), s.highScore, w, h, clock, maxWidth)
  }

  class BossScene {
    const gameWidth: real
    const gameHeight: real
    const maxHPBarWidth: real
    const gameState: GameState
    const store: HighScoreStore
    var player: Player
    var dragon: Dragon
    var isGameOver: bool
    var isBossDefeated: bool
    var hpBarWidth: real
    var hpBarColour: Colour

    function Data(): BossData
      reads this, gameState, store, player, dragon
    {
      BossData(isGameOver, isBossDefeated, gameState.Data(), player.Data(), dragon.Data(), store.highScore,
               hpBarWidth, hpBarColour)
    }

    /** The dragon stands at 0.7 of the width, on this arena's floor. */
    predicate Valid()
      reads this, dragon
    {
      dragon.Valid() && dragon.x == gameWidth * DragonPositionX && dragon.gameHeight == gameHeight
    }

    /** The first start of the boss round; `clock` is the wall-clock time the dragon's attack timers start from. */
    constructor (width: real, height: real, clock: real, state: GameState, highScores: HighScoreStore)
      ensures gameWidth == width && gameHeight == height && gameState == state && store == highScores
      ensures maxHPBarWidth == width * 0.6 - 4.0
      ensures fresh(player) && fresh(dragon)
      ensures Valid()
      ensures Data() == Opened(state.Data(), highScores.highScore, width, height, clock, maxHPBarWidth)
    {
      gameWidth, gameHeight := width, height;
      gameState, store := state, highScores;
      maxHPBarWidth := width * 0.6 - 4.0;
      player := new Player(width * 0.15, height * 0.8);
      dragon := new Dragon(width * DragonPositionX, width, height, clock);
      isGameOver, isBossDefeated := false, false;
      hpBarWidth, hpBarColour := width * 0.6 - 4.0, Red;
    }

    method PlayerHitByBoss()
      modifies this`isGameOver, player, gameState, store
      ensures Data() == HitByBoss(old(Data()), gameWidth, gameHeight)
    {
      var applied := player.TakeDamage();
      if applied {
        LoseLife();
      }
    }

    /** `loseLife`, then game over or a respawn. */
    method LoseLife()
      modifies this`isGameOver, player, gameState, store
      ensures Data() == LifeLostIn(old(Data()), gameWidth, gameHeight)
    {
      var livesRemain := gameState.LoseLife();
      if !livesRemain {
        GameOver();
      } else {
        RespawnPlayer();
      }
    }

    method RespawnPlayer()
      modifies player
      ensures Data() == PlayerRespawned(old(Data()), gameWidth, gameHeight)
    {
      player.Reset(gameWidth * 0.15, gameHeight * 0.8);
    }

    method UpdateBossHP()
      modifies this`hpBarWidth, this`hpBarColour
      ensures Data() == BarRefreshed(old(Data()), maxHPBarWidth)
    {
      var hpPercent := dragon.HpPercent();
      hpBarWidth := maxHPBarWidth * hpPercent;
      if hpPercent > 0.66 {
        hpBarColour := Red;
      } else if hpPercent > 0.33 {
        hpBarColour := Orange;
      } else {
        hpBarColour := Yellow;
      }
    }

    /**
     * One frame at scene time `time` after `delta` ms. `pick` and `spawnXs`
     * are the dragon's random draws, `touching` the indices of the flame
     * traps the player overlaps, `weakPointTouched` the weak-point overlap.
     */
    method Update(time: real, delta: real, blockedDown: bool, buttons: Buttons, pick: nat, spawnXs: seq<real>,
                  touching: set<nat>, weakPointTouched: bool)
      requires Valid() && |spawnXs| == FlameTrapCount
      modifies this`isGameOver, this`hpBarWidth, this`hpBarColour, player, dragon, gameState, store
      ensures Valid()
      ensures Data() == Framed(old(Data()), time, delta, blockedDown, buttons, pick, spawnXs, touching, weakPointTouched,
                               gameWidth, gameHeight, dragon.TrapY(), dragon.x, maxHPBarWidth)
    {
      if isGameOver || isBossDefeated {
        return;
      }
      if player.body.y > gameHeight + 100.0 {
        LoseLife();
        return;
      }
      Play(time, delta, blockedDown, buttons, pick, spawnXs, touching, weakPointTouched);
    }

    /** A frame in which the player is still on the level: movement, then contacts. */
    method Play(time: real, delta: real, blockedDown: bool, buttons: Buttons, pick: nat, spawnXs: seq<real>,
                touching: set<nat>, weakPointTouched: bool)
      requires Valid() && |spawnXs| == FlameTrapCount
      modifies this`isGameOver, this`hpBarWidth, this`hpBarColour, player, dragon, gameState, store
      ensures Valid()
      ensures Data() == Contacts(Advanced(old(Data()), time, delta, blockedDown, buttons, pick, spawnXs,
                                          dragon.TrapY(), dragon.x),
                                 touching, weakPointTouched, gameWidth, gameHeight, maxHPBarWidth)
    {
      Advance(time, delta, blockedDown, buttons, pick, spawnXs);
      CheckContacts(touching, weakPointTouched);
    }

    /** The player's update, then the dragon's. */
    method Advance(time: real, delta: real, blockedDown: bool, buttons: Buttons, pick: nat, spawnXs: seq<real>)
      requires Valid() && |spawnXs| == FlameTrapCount
      modifies player, dragon
      ensures Valid()
      ensures Data() == Advanced(old(Data()), time, delta, blockedDown, buttons, pick, spawnXs, dragon.TrapY(), dragon.x)
    {
      player.Update(delta, blockedDown, buttons);
      dragon.Update(time, delta, pick, player, spawnXs);
    }

    /** The flame traps, then the weak point. */
    method CheckContacts(touching: set<nat>, weakPointTouched: bool)
      requires Valid()
      modifies this`isGameOver, this`hpBarWidth, this`hpBarColour, player, dragon, gameState, store
      ensures Valid()
      ensures Data() == Contacts(old(Data()), touching, weakPointTouched, gameWidth, gameHeight, maxHPBarWidth)
    {
      CheckFlameTraps(touching);
      if weakPointTouched {
        OnWeakPointContact();
      }
    }

    /** Every active trap the player touches is a hit. */
    method CheckFlameTraps(touching: set<nat>)
      modifies this`isGameOver, player, gameState, store
      ensures Data() == TrapHits(old(Data()), old(dragon.flameTraps), touching, gameWidth, gameHeight)
    {
      var traps := dragon.flameTraps;
      var i := 0;
      while i < |traps|
        invariant 0 <= i <= |traps|
        invariant Data() == TrapHits(old(Data()), traps[..i], touching, gameWidth, gameHeight)
      {
        if traps[i].active && i in touching {
          PlayerHitByBoss();
        }
        assert traps[..i + 1][..i] == traps[..i];
        i := i + 1;
      }
      assert traps[..i] == traps;
    }

    /** The player overlaps the shown weak point. */
    method OnWeakPointContact()
      requires Valid()
      modifies this`hpBarWidth, this`hpBarColour, dragon
      ensures Valid()
      ensures Data() == WeakPointTried(old(Data()), maxHPBarWidth)
    {
      var hit := dragon.HitWeakPoint();
      if hit {
        UpdateBossHP();
      }
    }

    /** The player overlaps a fireball: it is destroyed, and the player is hit. */
    method OnFireballContact()
      requires Valid() && dragon.fireballs > 0
      modifies this`isGameOver, player, dragon, gameState, store
      ensures Valid()
      ensures Data() == HitByBoss(old(Data()).(dragon := old(Data()).dragon.(fireballs := old(dragon.fireballs) - 1)),
                                  gameWidth, gameHeight)
    {
      dragon.DestroyFireball();
      PlayerHitByBoss();
    }

    /** Halfway through a tail swipe: a hit if the player is within range; nothing else is checked. */
    method OnTailSwipeMidpoint(inRange: bool)
      modifies this`isGameOver, player, gameState, store
      ensures Data() == if inRange then HitByBoss(old(Data()), gameWidth, gameHeight) else old(Data())
    {
      if inRange {
        PlayerHitByBoss();
      }
    }

    method BossDefeated()
      modifies this`isBossDefeated, gameState, store
      ensures Data() == BossDefeatedFrom(old(Data()))
    {
      if isBossDefeated {
        return;
      }
      isBossDefeated := true;
      gameState.AddScore(DefeatBonusScore);
      store.Save(gameState.score);
    }

    method GameOver()
      modifies this`isGameOver, store
      ensures Data() == BossGameOver(old(Data()))
    {
      if isGameOver {
        return;
      }
      isGameOver := true;
      store.Save(gameState.score);
    }

    /** The retry button of the game-over screen; `clock` is the wall-clock time of the new start. */
    method Retry(clock: real)
      modifies this, gameState
      ensures fresh(player) && fresh(dragon)
      ensures Valid()
      ensures Data() == Retried(old(Data()), gameWidth, gameHeight, clock, maxHPBarWidth)
    {
      gameState.lives := StartLives;
      player := new Player(gameWidth * 0.15, gameHeight * 0.8);
      dragon := new Dragon(gameWidth * DragonPositionX, gameWidth, gameHeight, clock);
      isGameOver, isBossDefeated := false, false;
      hpBarWidth, hpBarColour := maxHPBarWidth, Red;
    }
  }

  // ----- properties of the boss round -----

  /** The bar's colour band is the dragon's phase: red in phase 0, orange in phase 1, yellow in phase 2. */
  lemma BarColourTracksPhase(hp: int, current: nat)
    requires hp <= DragonMaxHP
    ensures var phase := SelectedPhase(hp, current);
      BandOf(HpFraction(hp)) == (if phase == 0 then Red else if phase == 1 then Orange else Yellow)
  {
    PhaseSelectedFromTableUpToFullHealth(HpFraction(hp));
    var i := ScanPhase(HpFraction(hp), Phases, |Phases|).value;
    assert Phases[0].threshold == 1.0 && Phases[1].threshold == 0.66 && Phases[2].threshold == 0.33;
  }

  /** The bar's width is proportional to the dragon's health: full at full health, empty at zero. */
  lemma BarWidthFollowsHealth(s: BossData, maxWidth: real)
    requires 0 <= s.dragon.hp <= DragonMaxHP && maxWidth >= 0.0
    ensures var r := BarRefreshed(s, maxWidth);
      && r.barWidth * (DragonMaxHP as real) == maxWidth * (s.dragon.hp as real)
      && 0.0 <= r.barWidth <= maxWidth
      && (s.dragon.hp == DragonMaxHP ==> r.barWidth == maxWidth && r.barColour == Red)
  {
    var frac := HpFraction(s.dragon.hp);
    assert 0.0 <= frac <= 1.0;
    assert maxWidth * (1.0 - frac) >= 0.0;
    assert BarRefreshed(s, maxWidth).barWidth == maxWidth * frac;
  }

  /** A hit while invincible changes nothing. */
  lemma InvinciblePlayerIgnoresHits(s: BossData, w: real, h: real)
    requires s.player.isInvincible
    ensures HitByBoss(s, w, h) == s
  {
  }

  /**
   * A hit while vulnerable costs exactly one life and leaves the player
   * invincible: with lives left, back at (0.15 w, 0.8 h) and at rest; with
   * none left, the round is over and the high score saved.
   */
  lemma HitCostsOneLife(s: BossData, w: real, h: real)
    requires !s.player.isInvincible
    ensures var r := HitByBoss(s, w, h);
      && r.run == LifeLost(s.run) && r.dragon == s.dragon && r.player.isInvincible
      && (r.run.lives > 0 ==> r.player.body == Body(w * 0.15, h * 0.8, 0.0, 0.0, 0.0, 0.0) && r.isGameOver == s.isGameOver)
      && (r.run.lives <= 0 ==>
            r.isGameOver && r.highScore == (if s.isGameOver then s.highScore else HighScoreAfter(s.highScore, s.run.score)))
  {
  }

  /**
   * The flame-trap pass costs at most one life per frame: the first hit
   * makes the player invincible, so further traps do nothing; the dragon is
   * never touched.
   */
  lemma {:induction false} TrapsCostAtMostOneLife(s: BossData, traps: seq<FlameTrapState>, touching: set<nat>, w: real, h: real)
    ensures var r := TrapHits(s, traps, touching, w, h);
      && r.dragon == s.dragon
      && (r == s || (r.run == LifeLost(s.run) && r.player.isInvincible && !s.player.isInvincible))
  {
    if |traps| > 0 {
      TrapsCostAtMostOneLife(s, traps[..|traps| - 1], touching, w, h);
    }
  }

  /** The `update` guard: once the round is over or won, frames change nothing. */
  lemma HaltedSceneIsFrozen(s: BossData, time: real, delta: real, grounded: bool, b: Buttons, pick: nat, xs: seq<real>,
                            touching: set<nat>, weakPointTouched: bool, w: real, h: real, trapY: real, dragonX: real,
                            maxWidth: real)
    requires Wf(s.dragon) && Halted(s)
    ensures Framed(s, time, delta, grounded, b, pick, xs, touching, weakPointTouched, w, h, trapY, dragonX, maxWidth) == s
  {
  }

  /** A fall costs a life (even while invincible) and ends the frame: neither the player nor the dragon moves on. */
  lemma FallEndsTheFrame(s: BossData, time: real, delta: real, grounded: bool, b: Buttons, pick: nat, xs: seq<real>,
                         touching: set<nat>, weakPointTouched: bool, w: real, h: real, trapY: real, dragonX: real,
                         maxWidth: real)
    requires Wf(s.dragon) && !Halted(s) && FellOff(s, h)
    ensures var r := Framed(s, time, delta, grounded, b, pick, xs, touching, weakPointTouched, w, h, trapY, dragonX, maxWidth);
      && r.run == LifeLost(s.run) && r.dragon == s.dragon
      && (r.run.lives > 0 ==> r.player == ResetAt(s.player, w * 0.15, h * 0.8))
      && (r.run.lives <= 0 ==> r.player == s.player && r.isGameOver)
  {
  }

  /** A touch on the weak point either damages the dragon by 3 and refreshes the bar, or changes nothing. */
  lemma WeakPointTouchIsAllOrNothing(s: BossData, maxWidth: real)
    ensures var r := WeakPointTried(s, maxWidth);
      && (s.dragon.weakPointVisible && !s.dragon.isDefeated ==>
            r.dragon.hp == s.dragon.hp - WeakPointDamagePerHit && !r.dragon.weakPointVisible
            && r.barColour == BandOf(HpFraction(r.dragon.hp))
            && r.barWidth == maxWidth * HpFraction(r.dragon.hp)
            && r.run == s.run && r.player == s.player)
      && (!s.dragon.weakPointVisible || s.dragon.isDefeated ==> r == s)
  {
  }

  /** `bossDefeated` takes effect once: 5000 points exactly once, and the high score is saved. */
  lemma VictoryBonusOnce(s: BossData)
    ensures BossDefeatedFrom(BossDefeatedFrom(s)) == BossDefeatedFrom(s)
    ensures !s.isBossDefeated ==>
              && BossDefeatedFrom(s).run.score == s.run.score + 5000
              && BossDefeatedFrom(s).highScore == HighScoreAfter(s.highScore, s.run.score + 5000)
    ensures s.isBossDefeated ==> BossDefeatedFrom(s) == s
  {
  }

  /** `gameOver` takes effect once, and the stored high score becomes the larger of the two. */
  lemma BossGameOverOnce(s: BossData)
    ensures BossGameOver(BossGameOver(s)) == BossGameOver(s)
    ensures !s.isGameOver ==> BossGameOver(s).highScore == HighScoreAfter(s.highScore, s.run.score)
    ensures BossGameOver(s).run == s.run && BossGameOver(s).isGameOver
  {
  }

  // ----- the latches across a restart -----

  /**
   * The scene object is reused by `scene.restart`, and `create` does not
   * clear `isGameOver` or `isBossDefeated`: this is the retry as the code has it.
   */
  function RetriedAsWritten(s: BossData, w: real, h: real, clock: real, maxWidth: real): BossData {
    Retried(s, w, h, clock, maxWidth).(isGameOver := s.isGameOver, isBossDefeated := s.isBossDefeated)
  }

  /** As written, the retried boss round never runs: the game-over latch survives the restart and every frame is a no-op. */
  lemma RetryFreezesAsWritten(s: BossData, w: real, h: real, clock: real, maxWidth: real, time: real, delta: real,
                              grounded: bool, b: Buttons, pick: nat, xs: seq<real>, touching: set<nat>,
                              weakPointTouched: bool, trapY: real, dragonX: real)
    requires s.isGameOver
    ensures var r := RetriedAsWritten(s, w, h, clock, maxWidth);
      Wf(r.dragon)
      && Framed(r, time, delta, grounded, b, pick, xs, touching, weakPointTouched, w, h, trapY, dragonX, maxWidth) == r
  {
  }

  /**
   * With the latches cleared on every start, the retried round runs: three
   * lives, a dragon at full health, and a frame in which the player stays on
   * the level moves the dragon on.
   */
  lemma RetryResumesPlay(s: BossData, w: real, h: real, clock: real, maxWidth: real, time: real, delta: real,
                         grounded: bool, b: Buttons, pick: nat, xs: seq<real>, touching: set<nat>,
                         trapY: real, dragonX: real)
    requires h + 100.0 >= h * 0.8
    ensures var r := Retried(s, w, h, clock, maxWidth);
      && !Halted(r) && r.run.lives == StartLives && r.run.score == s.run.score && r.dragon.hp == DragonMaxHP
      && Wf(r.dragon)
      && Framed(r, time, delta, grounded, b, pick, xs, touching, false, w, h, trapY, dragonX, maxWidth).dragon
           == Updated(r.dragon, time, Seconds(delta), pick, xs, trapY)
  {
    var r := Retried(s, w, h, clock, maxWidth);
    var a := Advanced(r, time, delta, grounded, b, pick, xs, trapY, dragonX);
    TrapsCostAtMostOneLife(a, a.dragon.flameTraps, touching, w, h);
  }
}
