/**
 * The dragon boss: phases chosen from the HP fraction, four attacks gated by
 * cooldowns that shrink with the phase, the `isAttacking` latch, flame traps
 * with a lifetime, the weak-point show/hide/hit cycle, damage and a one-shot
 * defeat.
 *
 * Animation completions and delayed calls are explicit methods the boss
 * round calls (`AttackAnimationComplete`, `FireProjectile`,
 * `WeakPointIntervalElapsed`). The random attack pick is an index the caller
 * supplies, reduced modulo the number of available attacks, and the random
 * flame-trap positions are a sequence the caller supplies.
 */
module DragonBoss {
  import opened Config
  import opened Optional
  import opened PlayerController

  datatype Attack = FireballVolley | TailSwipe | Roar | FlameTrap

  const AllAttacks: set<Attack> := {FireballVolley, TailSwipe, Roar, FlameTrap}

  function Cooldown(a: Attack): real {
    match a
    case FireballVolley => FireballCooldown
    case TailSwipe => TailSwipeCooldown
    case Roar => RoarCooldown
    case FlameTrap => FlameTrapCooldown
  }

  /** One burning patch on the floor; `timer` is its remaining lifetime in seconds. */
  datatype FlameTrapState = FlameTrapState(x: real, y: real, timer: real, active: bool)

  /** The dragon's state as a value; `fireballs` counts the live projectiles. */
  datatype DragonData = DragonData(
    hp: int,
    currentPhase: nat,
    isDefeated: bool,
    lastAttackTime: map<Attack, real>,
    isAttacking: bool,
    weakPointVisible: bool,
    weakPointTimer: real,
    flameTraps: seq<FlameTrapState>,
    fireballs: nat)

  /** Every attack has a timestamp and the phase indexes the phase table. */
  predicate Wf(d: DragonData) {
    d.lastAttackTime.Keys == AllAttacks && d.currentPhase < |Phases|
  }

  /**
   * `resetAttackTimers`: each attack's last use is set one cooldown before
   * `clock`, the timestamp the timers are reset against.
   */
  function InitialAttackTimes(clock: real): (m: map<Attack, real>)
    ensures m.Keys == AllAttacks
    ensures forall a :: a in m ==> clock - m[a] == Cooldown(a)
  {
    map[FireballVolley := clock - FireballCooldown, TailSwipe := clock - TailSwipeCooldown,
        Roar := clock - RoarCooldown, FlameTrap := clock - FlameTrapCooldown]
  }

  /** A new dragon: full health, phase 0, idle, weak point hidden, no traps or fireballs, timers reset against `clock`. */
  function NewDragon(clock: real): DragonData {
    DragonData(DragonMaxHP, 0, false, InitialAttackTimes(clock), false, false, 0.0, [], 0)
  }

  function HpFraction(hp: int): real {
    (hp as real) / (DragonMaxHP as real)
  }

  // ----- phases -----

  /**
   * The downward scan of `updatePhase` over the first `n` rows: the largest
   * index whose threshold is at least the fraction, or None when no row
   * qualifies.
   */
  function ScanPhase(frac: real, phases: seq<PhaseDef>, n: nat): (r: Option<nat>)
    requires n <= |phases|
    ensures r.Some? ==> r.value < n && frac <= phases[r.value].threshold
    ensures r.Some? ==> forall j :: r.value < j < n ==> frac > phases[j].threshold
    ensures r.None? <==> forall j :: 0 <= j < n ==> frac > phases[j].threshold
  {
    if n == 0 then None
    else if frac <= phases[n - 1].threshold then Some(n - 1)
    else ScanPhase(frac, phases, n - 1)
  }

  /** The phase `updatePhase` leaves: the scan's answer, or the old phase when nothing qualifies. */
  function SelectedPhase(hp: int, current: nat): nat {
    match ScanPhase(HpFraction(hp), Phases, |Phases|)
    case Some(i) => i
    case None => current
  }

  function PhaseSelected(d: DragonData): DragonData {
    d.(currentPhase := SelectedPhase(d.hp, d.currentPhase))
  }

  // ----- attacks -----

  /** Off cooldown: strictly more than the cooldown, divided by the phase's speed multiplier, has passed. */
  predicate OffCooldown(time: real, phase: nat, last: map<Attack, real>, a: Attack)
    requires phase < |Phases|
  {
    a in last && time - last[a] > Cooldown(a) / Phases[phase].attackSpeedMultiplier
  }

  /**
   * The attacks `decideAttack` may choose from, in the order it lists them:
   * those off cooldown, the flame trap only from its unlock phase on.
   */
  function Available(time: real, phase: nat, last: map<Attack, real>): (r: seq<Attack>)
    requires phase < |Phases| && AllAttacks <= last.Keys
    ensures forall a :: a in r <==> OffCooldown(time, phase, last, a) && (a == FlameTrap ==> phase >= FlameTrapActivatesAtPhase)
    ensures forall i, j :: 0 <= i < j < |r| ==> r[i] != r[j]
  {
    (if OffCooldown(time, phase, last, FireballVolley) then [FireballVolley] else [])
    + (if OffCooldown(time, phase, last, TailSwipe) then [TailSwipe] else [])
    + (if OffCooldown(time, phase, last, Roar) then [Roar] else [])
    + (if phase >= FlameTrapActivatesAtPhase && OffCooldown(time, phase, last, FlameTrap) then [FlameTrap] else [])
  }

  /** The attack `decideAttack` runs: the caller's pick among the available ones, or none. */
  function Choice(d: DragonData, time: real, pick: nat): Option<Attack>
    requires Wf(d)
  {
    var av := Available(time, d.currentPhase, d.lastAttackTime);
    if |av| == 0 then None else Some(av[pick % |av|])
  }

  /** The traps one flame-trap attack places, one per random x, all lit for the full duration. */
  function SpawnTraps(xs: seq<real>, y: real): seq<FlameTrapState> {
    seq(|xs|, i requires 0 <= i < |xs| => FlameTrapState(xs[i], y, FlameTrapDuration / 1000.0, true))
  }

  /**
   * `executeAttack`: latch and timestamp first, then the attack's own effect
   * on the dragon. Only the flame trap completes at once (it releases the
   * latch); the others release it when their animation completes.
   */
  function Executed(d: DragonData, a: Attack, time: real, xs: seq<real>, trapY: real): DragonData {
    var e := d.(isAttacking := true, lastAttackTime := d.lastAttackTime[a := time]);
    if a == FlameTrap then e.(flameTraps := e.flameTraps + SpawnTraps(xs, trapY), isAttacking := false) else e
  }

  function Decided(d: DragonData, time: real, pick: nat, xs: seq<real>, trapY: real): DragonData
    requires Wf(d)
  {
    match Choice(d, time, pick)
    case None => d
    case Some(a) => Executed(d, a, time, xs, trapY)
  }

  /** The roar's effect on the player: pushed away from the dragon and briefly invincible. */
  function Roared(p: PlayerData, dragonX: real): PlayerData {
    var direction := if p.body.x < dragonX then -1.0 else 1.0;
    MadeInvincible(Pushed(p, direction * RoarPushbackForce, -200.0), RoarInvulnerability)
  }

  function AfterAttack(p: PlayerData, choice: Option<Attack>, dragonX: real): PlayerData {
    if choice == Some(Roar) then Roared(p, dragonX) else p
  }

  // ----- timers -----

  function WeakPointTicked(d: DragonData, dt: real): DragonData {
    if d.weakPointVisible then
      if d.weakPointTimer - dt <= 0.0 then d.(weakPointTimer := d.weakPointTimer - dt, weakPointVisible := false)
      else d.(weakPointTimer := d.weakPointTimer - dt)
    else d
  }

  /** One trap after a frame: inactive traps stay as they are, active ones burn down and go out at zero. */
  function TrapTicked(t: FlameTrapState, dt: real): seq<FlameTrapState> {
    if !t.active then [t]
    else if t.timer - dt <= 0.0 then []
    else [t.(timer := t.timer - dt)]
  }

  /** The trap filter of `update`, over the list in order. */
  function TickTraps(s: seq<FlameTrapState>, dt: real): (r: seq<FlameTrapState>)
    ensures |r| <= |s|
    decreases |s|
  {
    if |s| == 0 then []
    else TickTraps(s[..|s| - 1], dt) + TrapTicked(s[|s| - 1], dt)
  }

  function XsOf(s: seq<FlameTrapState>): set<real> {
    set t | t in s :: t.x
  }

  function TrapsTicked(d: DragonData, dt: real): DragonData {
    d.(flameTraps := TickTraps(d.flameTraps, dt))
  }

  /** The dragon's part of a frame before the attack: phase, then the weak-point timer. */
  function Prepared(d: DragonData, dt: real): DragonData {
    WeakPointTicked(PhaseSelected(d), dt)
  }

  /** The attack `update` starts this frame, if any: none while the latch is set. */
  function FrameChoice(d: DragonData, time: real, dt: real, pick: nat): Option<Attack>
    requires Wf(d)
  {
    var e := Prepared(d, dt);
    if e.isAttacking then None else Choice(e, time, pick)
  }

  /** `update`: nothing once defeated; otherwise phase, weak-point timer, attack decision, trap filter. */
  function Updated(d: DragonData, time: real, dt: real, pick: nat, xs: seq<real>, trapY: real): DragonData
    requires Wf(d)
  {
    if d.isDefeated then d
    else
      var e := Prepared(d, dt);
      TrapsTicked(if e.isAttacking then e else Decided(e, time, pick, xs, trapY), dt)
  }

  // ----- weak point and damage -----

  function Shown(d: DragonData): DragonData {
    if d.weakPointVisible || d.isDefeated then d
    else d.(weakPointVisible := true, weakPointTimer := WeakPointShowDuration / 1000.0)
  }

  function Hidden(d: DragonData): DragonData {
    d.(weakPointVisible := false)
  }

  function Defeated(d: DragonData): DragonData {
    d.(isDefeated := true, weakPointVisible := false, fireballs := 0, flameTraps := [])
  }

  /** `takeDamage`: hp falls by the amount (it may go below zero); the first time it reaches zero the dragon is defeated. */
  function DamageTaken(d: DragonData, amount: int): DragonData {
    var e := d.(hp := d.hp - amount);
    if e.hp <= 0 && !e.isDefeated then Defeated(e) else e
  }

  /** `hitWeakPoint`: refused while hidden or once defeated; otherwise damage, then hide. */
  function WeakPointHit(d: DragonData): (DragonData, bool) {
    if !d.weakPointVisible || d.isDefeated then (d, false)
    else (Hidden(DamageTaken(d, WeakPointDamagePerHit)), true)
  }

  class Dragon {
    const x: real
    const gameWidth: real
    const gameHeight: real
    var hp: int
    var currentPhase: nat
    var isDefeated: bool
    var lastAttackTime: map<Attack, real>
    var isAttacking: bool
    var weakPointVisible: bool
    var weakPointTimer: real
    var flameTraps: seq<FlameTrapState>
    var fireballs: nat

    function Data(): DragonData
      reads this
    {
      DragonData(hp, currentPhase, isDefeated, lastAttackTime, isAttacking, weakPointVisible,
                 weakPointTimer, flameTraps, fireballs)
    }

    /** Alive exactly while hp is positive; once defeated nothing is shown, burning or flying. */
    predicate Valid()
      reads this
    {
      Wf(Data())
      && (!isDefeated ==> hp > 0)
      && (isDefeated ==> !weakPointVisible && flameTraps == [] && fireballs == 0)
    }

    /** The floor height of flame traps: 80 above the bottom of the arena. */
    function TrapY(): real
    {
      gameHeight - 80.0
    }

    /** A new dragon at `x0`; the attack timers are reset against `clock`. */
    constructor (x0: real, width: real, height: real, clock: real)
      ensures Valid()
      ensures x == x0 && gameWidth == width && gameHeight == height
      ensures Data() == NewDragon(clock)
    {
      x, gameWidth, gameHeight := x0, width, height;
      hp := DragonMaxHP;
      currentPhase := 0;
      isDefeated := false;
      isAttacking := false;
      weakPointVisible := false;
      weakPointTimer := 0.0;
      flameTraps := [];
      fireballs := 0;
      lastAttackTime := InitialAttackTimes(clock);
    }

    method ResetAttackTimers(clock: real)
      modifies this
      ensures Data() == old(Data()).(lastAttackTime := InitialAttackTimes(clock))
    {
      lastAttackTime := InitialAttackTimes(clock);
    }

    /** One frame at scene time `time` (ms) after `delta` ms; `pick` and `spawnXs` are the random draws. */
    method Update(time: real, delta: real, pick: nat, player: Player, spawnXs: seq<real>)
      requires Valid()
      requires |spawnXs| == FlameTrapCount
      modifies this, player
      ensures Valid()
      ensures Data() == Updated(old(Data()), time, Seconds(delta), pick, spawnXs, TrapY())
      ensures player.Data() ==
                if old(isDefeated) then old(player.Data())
                else AfterAttack(old(player.Data()), FrameChoice(old(Data()), time, Seconds(delta), pick), x)
    {
      if isDefeated {
        return;
      }
      var dt := Seconds(delta);
      var changed := UpdatePhase();
      TickWeakPoint(dt);
      if !isAttacking {
        DecideAttack(time, pick, player, spawnXs);
      }
      TickFlameTraps(dt);
    }

    /** The weak-point countdown of `update`. */
    method TickWeakPoint(dt: real)
      requires Valid()
      modifies this
      ensures Valid()
      ensures Data() == WeakPointTicked(old(Data()), dt)
    {
      if weakPointVisible {
        weakPointTimer := weakPointTimer - dt;
        if weakPointTimer <= 0.0 {
          HideWeakPoint();
        }
      }
    }

    /** The trap filter of `update`: each active trap burns down by dt and is dropped at zero. */
    method TickFlameTraps(dt: real)
      requires Valid()
      modifies this
      ensures Valid()
      ensures Data() == TrapsTicked(old(Data()), dt)
    {
      var traps := flameTraps;
      var kept: seq<FlameTrapState> := [];
      var i := 0;
      while i < |traps|
        invariant 0 <= i <= |traps|
        invariant kept == TickTraps(traps[..i], dt)
      {
        assert traps[..i + 1][..i] == traps[..i];
        kept := kept + TrapTicked(traps[i], dt);
        i := i + 1;
      }
      assert traps[..i] == traps;
      flameTraps := kept;
    }

    /**
     * `updatePhase`: scan the table from the last row down and take the first
     * row whose threshold the HP fraction does not exceed; `changed` reports
     * whether the phase-change cue (flash and roar) fires.
     */
    method UpdatePhase() returns (changed: bool)
      requires Valid()
      modifies this
      ensures Valid()
      ensures Data() == PhaseSelected(old(Data()))
      ensures changed <==> currentPhase != old(currentPhase)
    {
      var hpPercent := HpFraction(hp);
      changed := false;
      var i: int := |Phases| - 1;
      while i >= 0
        invariant -1 <= i < |Phases|
        invariant ScanPhase(hpPercent, Phases, |Phases|) == ScanPhase(hpPercent, Phases, i + 1)
        invariant Data() == old(Data()) && !changed
      {
        if hpPercent <= Phases[i].threshold {
          if currentPhase != i {
            currentPhase := i;
            changed := true;
          }
          break;
        }
        i := i - 1;
      }
    }

    /** `decideAttack`: run the picked attack among the available ones, or do nothing. */
    method DecideAttack(time: real, pick: nat, player: Player, spawnXs: seq<real>)
      requires Valid() && !isDefeated
      requires |spawnXs| == FlameTrapCount
      modifies this, player
      ensures Valid()
      ensures Data() == Decided(old(Data()), time, pick, spawnXs, TrapY())
      ensures player.Data() == AfterAttack(old(player.Data()), Choice(old(Data()), time, pick), x)
    {
      var availableAttacks := Available(time, currentPhase, lastAttackTime);
      if |availableAttacks| > 0 {
        var attack := availableAttacks[pick % |availableAttacks|];
        ExecuteAttack(attack, time, player, spawnXs);
      }
    }

    /** `executeAttack` and the immediate part of each attack body. */
    method ExecuteAttack(attack: Attack, time: real, player: Player, spawnXs: seq<real>)
      requires Valid() && !isDefeated
      requires |spawnXs| == FlameTrapCount
      modifies this, player
      ensures Valid()
      ensures Data() == Executed(old(Data()), attack, time, spawnXs, TrapY())
      ensures player.Data() == AfterAttack(old(player.Data()), Some(attack), x)
    {
      isAttacking := true;
      lastAttackTime := lastAttackTime[attack := time];
      match attack {
        case FireballVolley =>
        case TailSwipe =>
        case Roar =>
          var pushDirection := if player.body.x < x then -1.0 else 1.0;
          player.Push(pushDirection * RoarPushbackForce, -200.0);
          player.SetInvincible(RoarInvulnerability);
        case FlameTrap =>
          AttackFlameTrap(spawnXs);
      }
    }

    /** The flame-trap attack: one trap per random x on the arena floor, then the latch is released. */
    method AttackFlameTrap(spawnXs: seq<real>)
      requires Valid() && !isDefeated
      requires |spawnXs| == FlameTrapCount
      modifies this
      ensures Valid()
      ensures Data() == old(Data()).(flameTraps := old(flameTraps) + SpawnTraps(spawnXs, TrapY()), isAttacking := false)
    {
      var i := 0;
      while i < FlameTrapCount
        invariant 0 <= i <= FlameTrapCount
        invariant flameTraps == old(flameTraps) + SpawnTraps(spawnXs[..i], TrapY())
        invariant Data() == old(Data()).(flameTraps := flameTraps)
      {
        flameTraps := flameTraps + [FlameTrapState(spawnXs[i], gameHeight - 80.0, FlameTrapDuration / 1000.0, true)];
        i := i + 1;
      }
      assert spawnXs[..i] == spawnXs;
      isAttacking := false;
    }

    /** The end of the fireball telegraph, the tail-swipe swing or the roar animation. */
    method AttackAnimationComplete()
      requires Valid()
      modifies this
      ensures Valid()
      ensures Data() == old(Data()).(isAttacking := false)
    {
      isAttacking := false;
    }

    /** One delayed fireball shot: nothing once defeated. */
    method FireProjectile()
      requires Valid()
      modifies this
      ensures Valid()
      ensures Data() == if old(isDefeated) then old(Data()) else old(Data()).(fireballs := old(fireballs) + 1)
    {
      if isDefeated {
        return;
      }
      fireballs := fireballs + 1;
    }

    /** A fireball leaves the arena or hits the player. */
    method DestroyFireball()
      requires Valid() && fireballs > 0
      modifies this
      ensures Valid()
      ensures Data() == old(Data()).(fireballs := old(fireballs) - 1)
    {
      fireballs := fireballs - 1;
    }

    /** The timer of `scheduleWeakPoint` fires: show the point unless defeated; the cycle goes on only while alive. */
    method WeakPointIntervalElapsed() returns (cycleContinues: bool)
      requires Valid()
      modifies this
      ensures Valid()
      ensures cycleContinues == !old(isDefeated)
      ensures Data() == Shown(old(Data()))
    {
      cycleContinues := !isDefeated;
      if cycleContinues {
        ShowWeakPoint();
      }
    }

    method ShowWeakPoint()
      requires Valid()
      modifies this
      ensures Valid()
      ensures Data() == Shown(old(Data()))
    {
      if weakPointVisible || isDefeated {
        return;
      }
      weakPointVisible := true;
      weakPointTimer := WeakPointShowDuration / 1000.0;
    }

    method HideWeakPoint()
      requires Valid()
      modifies this
      ensures Valid()
      ensures Data() == Hidden(old(Data()))
    {
      weakPointVisible := false;
    }

    method HitWeakPoint() returns (hit: bool)
      requires Valid()
      modifies this
      ensures Valid()
      ensures (Data(), hit) == WeakPointHit(old(Data()))
    {
      if !weakPointVisible || isDefeated {
        return false;
      }
      TakeDamage(WeakPointDamagePerHit);
      HideWeakPoint();
      return true;
    }

    method TakeDamage(amount: int)
      requires Valid()
      modifies this
      ensures Valid()
      ensures Data() == DamageTaken(old(Data()), amount)
    {
      hp := hp - amount;
      if hp <= 0 && !isDefeated {
        Defeat();
      }
    }

    /** `defeat`: flagged, weak point hidden, projectiles and traps cleared. */
    method Defeat()
      requires Wf(Data())
      modifies this
      ensures Valid()
      ensures Data() == Defeated(old(Data()))
    {
      isDefeated := true;
      weakPointVisible := false;
      fireballs := 0;
      flameTraps := [];
    }

    /** `getHPPercent`. */
    function HpPercent(): (r: real)
      reads this
      ensures r * (DragonMaxHP as real) == hp as real
      ensures 0 < hp <= DragonMaxHP ==> 0.0 < r <= 1.0
    {
      HpFraction(hp)
    }
  }

  // ----- properties of the boss -----

  /** With the shipped table: full health is phase 0, 19 HP is phase 1, 10 HP is still phase 1, 9 HP is phase 2. */
  lemma PhaseAtShippedHp()
    ensures SelectedPhase(30, 0) == 0
    ensures SelectedPhase(19, 0) == 1
    ensures SelectedPhase(10, 1) == 1
    ensures SelectedPhase(9, 1) == 2
  {
    assert Phases[2].threshold == 0.33 && Phases[1].threshold == 0.66 && Phases[0].threshold == 1.0;
    assert ScanPhase(HpFraction(30), Phases, 1) == Some(0);
    assert ScanPhase(HpFraction(19), Phases, 2) == Some(1);
    assert ScanPhase(HpFraction(10), Phases, 2) == Some(1);
  }

  /** Any fraction up to 1 selects a row; only above 1 (more than full health) is the phase kept. */
  lemma PhaseSelectedFromTableUpToFullHealth(frac: real)
    ensures frac <= 1.0 <==> ScanPhase(frac, Phases, |Phases|).Some?
  {
    assert Phases[0].threshold == 1.0;
    assert forall j :: 0 <= j < |Phases| ==> Phases[j].threshold <= 1.0;
  }

  /** Less health never means an earlier phase. */
  lemma PhaseNeverRecedes(frac1: real, frac2: real)
    requires frac1 <= frac2 <= 1.0
    ensures ScanPhase(frac1, Phases, |Phases|).Some? && ScanPhase(frac2, Phases, |Phases|).Some?
    ensures ScanPhase(frac2, Phases, |Phases|).value <= ScanPhase(frac1, Phases, |Phases|).value
  {
    PhaseSelectedFromTableUpToFullHealth(frac1);
    PhaseSelectedFromTableUpToFullHealth(frac2);
    var i1 := ScanPhase(frac1, Phases, |Phases|).value;
    var i2 := ScanPhase(frac2, Phases, |Phases|).value;
    assert frac1 <= Phases[i2].threshold;
  }

  /**
   * The clock mismatch: right after construction against `clock`, the
   * phase-0 dragon can attack exactly when the scene time has passed `clock`;
   * before that nothing is ever available.
   */
  lemma FreshDragonWaitsForClock(time: real, clock: real)
    ensures Available(time, 0, InitialAttackTimes(clock)) == (if time > clock then [FireballVolley, TailSwipe, Roar] else [])
  {
    var last := InitialAttackTimes(clock);
    assert Phases[0].attackSpeedMultiplier == 1.0;
    forall a | a in AllAttacks
      ensures OffCooldown(time, 0, last, a) <==> time > clock
    {
      assert last[a] == clock - Cooldown(a);
    }
  }

  /**
   * In any phase, a dragon whose timers were reset against `clock` has
   * nothing available until the time comes within 2250 ms of `clock` (the
   * roar's cooldown shortened by the last phase's multiplier).
   */
  lemma NothingLongBeforeTheResetClock(time: real, clock: real, phase: nat)
    requires phase < |Phases| && time + 2250.0 <= clock
    ensures Available(time, phase, InitialAttackTimes(clock)) == []
  {
    var last := InitialAttackTimes(clock);
    forall a | a in AllAttacks
      ensures !OffCooldown(time, phase, last, a)
    {
      assert last[a] == clock - Cooldown(a);
      assert Cooldown(a) - 2250.0 <= Cooldown(a) / Phases[phase].attackSpeedMultiplier by {
        assert phase == 0 || phase == 1 || phase == 2;
      }
    }
  }

  /** A later phase only shortens cooldowns: what is available stays available. */
  lemma LaterPhaseKeepsAvailability(time: real, p1: nat, p2: nat, last: map<Attack, real>, a: Attack)
    requires p1 <= p2 < |Phases| && AllAttacks <= last.Keys
    requires a in Available(time, p1, last)
    ensures a in Available(time, p2, last)
  {
    assert Cooldown(a) / Phases[p2].attackSpeedMultiplier <= Cooldown(a) / Phases[p1].attackSpeedMultiplier by {
      assert p1 == 0 || p1 == 1 || p1 == 2;
      assert p2 == 0 || p2 == 1 || p2 == 2;
    }
  }

  /** While the latch is set no attack starts: the timestamps and traps only age. */
  lemma LatchBlocksAttacks(d: DragonData, time: real, dt: real, pick: nat, xs: seq<real>, trapY: real)
    requires Wf(d) && d.isAttacking
    ensures FrameChoice(d, time, dt, pick) == None
    ensures Updated(d, time, dt, pick, xs, trapY).lastAttackTime == d.lastAttackTime
    ensures Updated(d, time, dt, pick, xs, trapY).isAttacking
  {
  }

  /** Once defeated, a frame changes nothing. */
  lemma DefeatedDragonIsInert(d: DragonData, time: real, dt: real, pick: nat, xs: seq<real>, trapY: real)
    requires Wf(d) && d.isDefeated
    ensures Updated(d, time, dt, pick, xs, trapY) == d
  {
  }

  /**
   * An attack is chosen only from the available ones; with none available
   * the frame leaves the timestamps and the latch alone. A chosen attack is
   * stamped with the current time, the others keep theirs.
   */
  lemma ChosenAttackIsStamped(d: DragonData, time: real, pick: nat, xs: seq<real>, trapY: real)
    requires Wf(d)
    ensures Choice(d, time, pick).Some? ==> Choice(d, time, pick).value in Available(time, d.currentPhase, d.lastAttackTime)
    ensures Available(time, d.currentPhase, d.lastAttackTime) == [] ==> Decided(d, time, pick, xs, trapY) == d
    ensures Choice(d, time, pick).Some? ==>
              var a := Choice(d, time, pick).value;
              var e := Decided(d, time, pick, xs, trapY);
              e.lastAttackTime[a] == time
              && (forall b :: b in AllAttacks && b != a ==> e.lastAttackTime[b] == d.lastAttackTime[b])
              && e.isAttacking == (a != FlameTrap)
              && e.flameTraps == d.flameTraps + (if a == FlameTrap then SpawnTraps(xs, trapY) else [])
  {
  }

  /** The roar pushes the player away from the dragon at the pushback force, upward, and grants 0.3 s of invincibility. */
  lemma RoarPushesAway(p: PlayerData, dragonX: real)
    ensures var q := AfterAttack(p, Some(Roar), dragonX);
      q.body.vx == (if p.body.x < dragonX then -RoarPushbackForce else RoarPushbackForce)
      && q.body.vy == -200.0 && q.isInvincible && q.invincibleTimer == RoarInvulnerability
      && q.body.x == p.body.x && q.direction == p.direction
  {
  }

  /** `takeDamage`: hp always falls by the amount; `defeat` runs the first time hp reaches zero and never again. */
  lemma DefeatIsOneShot(d: DragonData, amount: int)
    ensures DamageTaken(d, amount).hp == d.hp - amount
    ensures !d.isDefeated ==> (DamageTaken(d, amount).isDefeated <==> d.hp - amount <= 0)
    ensures d.isDefeated ==> DamageTaken(d, amount) == d.(hp := d.hp - amount)
  {
  }

  /** `n` weak-point hits' worth of damage. */
  function Battered(d: DragonData, n: nat): DragonData {
    if n == 0 then d else DamageTaken(Battered(d, n - 1), WeakPointDamagePerHit)
  }

  /** Hits of 3 damage: after `n` of them the dragon has lost 3n hp, and it is defeated exactly when that reaches its hp. */
  lemma {:induction false} BatteredHp(d: DragonData, n: nat)
    requires !d.isDefeated && d.hp > 0
    ensures Battered(d, n).hp == d.hp - WeakPointDamagePerHit * n
    ensures Battered(d, n).isDefeated <==> d.hp - WeakPointDamagePerHit * n <= 0
  {
    if n > 0 {
      BatteredHp(d, n - 1);
    }
  }

  /** From full health, nine hits leave 3 hp and the tenth defeats the dragon. */
  lemma TenthHitDefeats(d: DragonData)
    requires !d.isDefeated && d.hp == DragonMaxHP
    ensures Battered(d, 9).hp == 3 && !Battered(d, 9).isDefeated
    ensures Battered(d, 10).hp == 0 && Battered(d, 10).isDefeated
  {
    BatteredHp(d, 9);
    BatteredHp(d, 10);
  }

  /**
   * `hitWeakPoint` lands only on a visible point of a live dragon: it takes
   * 3 hp and hides the point, so a second hit straight after is refused and
   * changes nothing.
   */
  lemma WeakPointHitsOnce(d: DragonData)
    ensures WeakPointHit(d).1 <==> d.weakPointVisible && !d.isDefeated
    ensures WeakPointHit(d).1 ==> WeakPointHit(d).0.hp == d.hp - 3 && !WeakPointHit(d).0.weakPointVisible
    ensures !WeakPointHit(d).1 ==> WeakPointHit(d).0 == d
    ensures WeakPointHit(WeakPointHit(d).0) == (WeakPointHit(d).0, false)
  {
  }

  /** A shown point stays up for three seconds: a frame of dt leaves it visible exactly when dt is under 3 s. */
  lemma ShownPointLastsThreeSeconds(d: DragonData, dt: real)
    requires !d.weakPointVisible && !d.isDefeated
    ensures Shown(d).weakPointVisible && Shown(d).weakPointTimer == 3.0
    ensures WeakPointTicked(Shown(d), dt).weakPointVisible <==> dt < 3.0
    ensures Shown(Shown(d)) == Shown(d)
  {
  }

  /** Traps placed by an attack burn for two seconds: a frame of dt keeps both exactly when dt is under 2 s. */
  lemma {:induction false} TrapsBurnTwoSeconds(xs: seq<real>, y: real, dt: real)
    requires |xs| == FlameTrapCount
    ensures dt < 2.0 ==> |TickTraps(SpawnTraps(xs, y), dt)| == 2
    ensures dt >= 2.0 ==> TickTraps(SpawnTraps(xs, y), dt) == []
  {
    var s := SpawnTraps(xs, y);
    assert s[..1][..0] == [];
    assert s[..|s| - 1] == s[..1];
  }

  /**
   * The filter keeps no burnt-out trap, drops no inactive one, and moves
   * none: every kept trap stands where a trap of the old list stood.
   */
  lemma {:induction false} TickKeepsOnlyLiveTraps(s: seq<FlameTrapState>, dt: real)
    ensures forall t :: t in TickTraps(s, dt) && t.active ==> t.timer > 0.0
    ensures forall t :: t in s && !t.active ==> t in TickTraps(s, dt)
    ensures forall t :: t in TickTraps(s, dt) ==> t.x in XsOf(s)
    decreases |s|
  {
    if |s| > 0 {
      var front := s[..|s| - 1];
      TickKeepsOnlyLiveTraps(front, dt);
      assert s == front + [s[|s| - 1]];
    }
  }

  /**
   * Exactly what the filter keeps: the inactive traps as they were, and each
   * active trap with time left after dt, its timer lowered by dt.
   */
  lemma {:induction false} TickTrapsMembers(s: seq<FlameTrapState>, dt: real)
    ensures forall t :: t in TickTraps(s, dt) <==>
              (t in s && !t.active)
              || exists u :: u in s && u.active && u.timer - dt > 0.0 && t == u.(timer := u.timer - dt)
    decreases |s|
  {
    if |s| > 0 {
      var front := s[..|s| - 1];
      var last := s[|s| - 1];
      TickTrapsMembers(front, dt);
      assert s == front + [last];
      assert TickTraps(s, dt) == TickTraps(front, dt) + TrapTicked(last, dt);
      forall t | t in s
        ensures t in front || t == last
      {
      }
    }
  }

  /** A live trap with more than a frame of time left survives it, with dt less time. */
  lemma {:induction false} LongTrapSurvives(s: seq<FlameTrapState>, dt: real, k: nat)
    requires k < |s| && s[k].active && s[k].timer > dt
    ensures s[k].(timer := s[k].timer - dt) in TickTraps(s, dt)
    decreases |s|
  {
    var front := s[..|s| - 1];
    assert TickTraps(s, dt) == TickTraps(front, dt) + TrapTicked(s[|s| - 1], dt);
    if k < |s| - 1 {
      assert front[k] == s[k];
      LongTrapSurvives(front, dt, k);
    } else {
      assert TrapTicked(s[k], dt) == [s[k].(timer := s[k].timer - dt)];
    }
  }
}
