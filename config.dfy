/**
 * The game's tunable constants: physics, player, the four round layouts,
 * the boss round, the dragon's attacks, phases and weak point, and scoring.
 * Layout coordinates are fractions (0..1) of the viewport, scaled when a
 * round is created.
 */
module Config {

  // ----- physics -----
  const Gravity: real := 2200.0
  const JumpVelocity: real := -850.0
  const MaxHorizontalSpeed: real := 240.0
  const HorizontalAcceleration: real := 1200.0
  const HorizontalDrag: real := 800.0
  const CoyoteTime: real := 0.12
  const JumpBufferTime: real := 0.12
  const ShortJumpMultiplier: real := 0.5
  const VariableJumpThreshold: real := 0.12

  // ----- player -----
  const PlayerWidth: real := 32.0
  const PlayerHeight: real := 48.0
  const StartLives: int := 3
  const InvincibilityTime: real := 1.5
  const PlayerCoinValue: int := 50
  const EnemyBounceVelocity: real := -600.0

  // ----- level layouts -----
  datatype PlatformDef = PlatformDef(x: real, y: real, width: real, height: real, fixed: bool)
  datatype CoinDef = CoinDef(x: real, y: real)
  datatype EnemyDef = EnemyDef(x: real, y: real, patrolMin: real, patrolMax: real, speed: real)
  datatype MovingPlatformDef = MovingPlatformDef(startX: real, startY: real, endX: real, endY: real,
                                                 width: real, height: real, speed: real)
  datatype LevelDef = LevelDef(round: int, name: string, platforms: seq<PlatformDef>, coins: seq<CoinDef>,
                               enemies: seq<EnemyDef>, movingPlatforms: seq<MovingPlatformDef>)

  /** A floating (non-ground) platform. */
  function Ledge(x: real, y: real, width: real): PlatformDef {
    PlatformDef(x, y, width, 0.04, false)
  }

  /** The fixed ground strip every round starts its platform list with. */
  const Ground: PlatformDef := PlatformDef(0.0, 0.92, 1.0, 0.08, true)

  const Level1: LevelDef := LevelDef(1, "Getting Started",
    [Ground, Ledge(0.15, 0.75, 0.25), Ledge(0.50, 0.60, 0.25), Ledge(0.20, 0.45, 0.25), Ledge(0.60, 0.30, 0.25)],
    [CoinDef(0.27, 0.68), CoinDef(0.62, 0.53), CoinDef(0.32, 0.38), CoinDef(0.72, 0.23)],
    [EnemyDef(0.55, 0.88, 0.40, 0.70, 60.0)],
    [])

  const Level2: LevelDef := LevelDef(2, "Rising Up",
    [Ground, Ledge(0.10, 0.78, 0.20), Ledge(0.40, 0.68, 0.18), Ledge(0.70, 0.58, 0.20),
     Ledge(0.25, 0.48, 0.18), Ledge(0.55, 0.35, 0.20), Ledge(0.15, 0.22, 0.22)],
    [CoinDef(0.20, 0.71), CoinDef(0.49, 0.61), CoinDef(0.80, 0.51), CoinDef(0.34, 0.41),
     CoinDef(0.65, 0.28), CoinDef(0.26, 0.15)],
    [EnemyDef(0.45, 0.88, 0.30, 0.60, 80.0), EnemyDef(0.75, 0.54, 0.68, 0.88, 70.0)],
    [MovingPlatformDef(0.05, 0.55, 0.35, 0.55, 0.18, 0.04, 100.0)])

  const Level3: LevelDef := LevelDef(3, "Sky High",
    [Ground, Ledge(0.05, 0.80, 0.15), Ledge(0.30, 0.72, 0.15), Ledge(0.55, 0.64, 0.15), Ledge(0.75, 0.54, 0.18),
     Ledge(0.45, 0.44, 0.15), Ledge(0.15, 0.34, 0.18), Ledge(0.60, 0.24, 0.15), Ledge(0.30, 0.14, 0.20)],
    [CoinDef(0.12, 0.73), CoinDef(0.37, 0.65), CoinDef(0.62, 0.57), CoinDef(0.83, 0.47),
     CoinDef(0.52, 0.37), CoinDef(0.23, 0.27), CoinDef(0.68, 0.17), CoinDef(0.38, 0.07)],
    [EnemyDef(0.40, 0.88, 0.20, 0.55, 100.0), EnemyDef(0.70, 0.50, 0.60, 0.90, 90.0),
     EnemyDef(0.25, 0.30, 0.12, 0.40, 85.0)],
    [MovingPlatformDef(0.08, 0.58, 0.38, 0.58, 0.15, 0.04, 120.0),
     MovingPlatformDef(0.50, 0.38, 0.50, 0.20, 0.15, 0.04, 80.0)])

  const Level4: LevelDef := LevelDef(4, "Final Challenge",
    [Ground, Ledge(0.02, 0.82, 0.12), Ledge(0.20, 0.74, 0.12), Ledge(0.40, 0.68, 0.12), Ledge(0.60, 0.62, 0.12),
     Ledge(0.78, 0.54, 0.14), Ledge(0.50, 0.46, 0.12), Ledge(0.25, 0.38, 0.12), Ledge(0.65, 0.30, 0.14),
     Ledge(0.38, 0.20, 0.12), Ledge(0.10, 0.10, 0.15)],
    [CoinDef(0.08, 0.75), CoinDef(0.26, 0.67), CoinDef(0.46, 0.61), CoinDef(0.66, 0.55), CoinDef(0.86, 0.47),
     CoinDef(0.56, 0.39), CoinDef(0.31, 0.31), CoinDef(0.71, 0.23), CoinDef(0.44, 0.13), CoinDef(0.17, 0.03)],
    [EnemyDef(0.35, 0.88, 0.15, 0.50, 110.0), EnemyDef(0.70, 0.88, 0.55, 0.85, 120.0),
     EnemyDef(0.80, 0.50, 0.70, 0.95, 100.0), EnemyDef(0.30, 0.34, 0.18, 0.45, 95.0)],
    [MovingPlatformDef(0.05, 0.64, 0.35, 0.64, 0.12, 0.04, 140.0),
     MovingPlatformDef(0.70, 0.42, 0.70, 0.24, 0.12, 0.04, 100.0),
     MovingPlatformDef(0.15, 0.28, 0.45, 0.28, 0.12, 0.04, 130.0)])

  /** Rounds 1 to 4, in play order. */
  const Levels: seq<LevelDef> := [Level1, Level2, Level3, Level4]

  /** Round 5: the dragon arena, with no coins and no patrolling enemies. */
  const BossLevel: LevelDef := LevelDef(5, "Dragon Boss",
    [Ground, Ledge(0.05, 0.65, 0.15), Ledge(0.30, 0.50, 0.15), Ledge(0.55, 0.50, 0.15), Ledge(0.80, 0.65, 0.15)],
    [], [], [])

  // ----- dragon -----
  const DragonMaxHP: int := 30
  const DragonWidth: real := 120.0
  const DragonHeight: real := 100.0
  const DragonPositionX: real := 0.70
  const DragonPositionY: real := 0.70

  const FireballCount: nat := 3
  const FireballSpeed: real := 300.0
  const FireballDamage: int := 1
  const FireballCooldown: real := 3000.0
  const FireballTelegraphTime: real := 800.0

  const TailSwipeRange: real := 200.0
  const TailSwipeDamage: int := 1
  const TailSwipeCooldown: real := 4000.0
  const TailSwipeDuration: real := 600.0

  const RoarPushbackForce: real := 400.0
  const RoarCooldown: real := 6000.0
  const RoarInvulnerability: real := 0.3

  const FlameTrapCount: nat := 2
  const FlameTrapDuration: real := 2000.0
  const FlameTrapDamage: int := 1
  const FlameTrapCooldown: real := 5000.0
  const FlameTrapActivatesAtPhase: nat := 2

  /** One row of the phase table: the HP fraction at or below which the phase applies. */
  datatype PhaseDef = PhaseDef(threshold: real, attackSpeedMultiplier: real)

  const Phases: seq<PhaseDef> := [PhaseDef(1.0, 1.0), PhaseDef(0.66, 1.3), PhaseDef(0.33, 1.6)]

  const WeakPointShowInterval: real := 8000.0
  const WeakPointShowDuration: real := 3000.0
  const WeakPointDamagePerHit: int := 3
  const WeakPointFlashDuration: real := 200.0

  const DefeatBonusScore: int := 5000
  const DefeatBonusCoins: int := 0

  // ----- scoring -----
  const CoinValue: int := 50
  const EnemyDefeatValue: int := 100
  const RoundCompleteBonus: int := 200
  const NoDeathBonus: int := 500
  const AllCoinsBonus: int := 300

  // ----- data invariants of the shipped configuration -----

  /** Round i (0-based) of the level list is round i + 1, and the boss round is round 5. */
  lemma LevelsAreNumbered()
    ensures |Levels| == 4
    ensures forall i :: 0 <= i < |Levels| ==> Levels[i].round == i + 1
    ensures BossLevel.round == |Levels| + 1
  {
  }

  /** Thresholds strictly descend from 1.0 while the attack-speed multipliers strictly ascend from 1.0. */
  lemma PhaseTableIsOrdered()
    ensures |Phases| == 3 && Phases[0].threshold == 1.0 && Phases[0].attackSpeedMultiplier == 1.0
    ensures forall i, j :: 0 <= i < j < |Phases| ==> Phases[j].threshold < Phases[i].threshold
    ensures forall i, j :: 0 <= i < j < |Phases| ==>
              Phases[i].attackSpeedMultiplier < Phases[j].attackSpeedMultiplier
    ensures forall i :: 0 <= i < |Phases| ==> 0.0 < Phases[i].threshold && 0.0 < Phases[i].attackSpeedMultiplier
  {
  }

  /**
   * The flame trap's unlock phase is a valid phase index, and it is the last
   * (HP fraction at most 0.33) tier of the table rather than the 2/3 tier.
   */
  lemma FlameTrapPhaseIsLastTier()
    ensures FlameTrapActivatesAtPhase < |Phases|
    ensures FlameTrapActivatesAtPhase == |Phases| - 1
    ensures Phases[FlameTrapActivatesAtPhase].threshold == 0.33
  {
  }

  /** Every enemy starts inside its patrol range, and each range is non-empty. */
  lemma EnemiesStartInsidePatrol()
    ensures forall i, k :: 0 <= i < |Levels| && 0 <= k < |Levels[i].enemies| ==>
              var e := Levels[i].enemies[k];
              e.patrolMin < e.patrolMax && e.patrolMin <= e.x <= e.patrolMax
  {
    forall i, k | 0 <= i < |Levels| && 0 <= k < |Levels[i].enemies|
      ensures Levels[i].enemies[k].patrolMin < Levels[i].enemies[k].patrolMax
      ensures Levels[i].enemies[k].patrolMin <= Levels[i].enemies[k].x <= Levels[i].enemies[k].patrolMax
    {
      assert i == 0 || i == 1 || i == 2 || i == 3;
    }
  }

  /** The player's coin value and the scoring table's coin value agree. */
  lemma CoinValuesAgree()
    ensures PlayerCoinValue == CoinValue == 50
  {
  }

  /** Each round, the boss round included, lists the fixed ground strip first. */
  lemma GroundComesFirst()
    ensures forall i :: 0 <= i < |Levels| ==>
              |Levels[i].platforms| > 0 && Levels[i].platforms[0] == Ground
    ensures |BossLevel.platforms| > 0 && BossLevel.platforms[0] == Ground
    ensures Ground.fixed && Ground.y == 0.92 && Ground.height == 0.08 && Ground.y + Ground.height == 1.0
  {
  }

  /** The weak point is visible for less time than the pause between appearances. */
  lemma WeakPointShowsBriefly()
    ensures 0.0 < WeakPointShowDuration < WeakPointShowInterval
  {
  }
}
