/**
 * The stand-alone canvas version of the game: hand-written kinematics, the
 * axis-aligned collision test, the landing / ceiling / side resolution
 * order, patrolling enemies that can be stomped, and one-shot coins.
 *
 * Units are pixels and pixels per frame. Every frame the loop runs the
 * player update, then the enemies, then the coins, all in list order.
 */
module ClassicGame {

  datatype Rect = Rect(x: real, y: real, width: real, height: real)

  /** `checkCollision`: strict overlap on both axes. */
  predicate Collides(a: Rect, b: Rect) {
    a.x < b.x + b.width && a.x + a.width > b.x && a.y < b.y + b.height && a.y + a.height > b.y
  }

  datatype Hero = Hero(x: real, y: real, width: real, height: real, vx: real, vy: real,
                       speed: real, jumpPower: real, grounded: bool, direction: int)

  datatype Foe = Foe(x: real, y: real, width: real, height: real, vx: real, minX: real, maxX: real)

  datatype Coin = Coin(x: real, y: real, width: real, height: real, collected: bool)

  /** What one `endGame` call sends to the host application. */
  datatype Report = Report(score: int, coins: int)

  /** The merged keyboard and touch-button state of a frame. */
  datatype Keys = Keys(left: bool, right: bool, jump: bool)

  datatype World = World(hero: Hero, foes: seq<Foe>, coinsList: seq<Coin>, score: int, coins: int,
                         running: bool, reports: seq<Report>)

  const ClassicGravity: real := 0.5
  const Friction: real := 0.8
  const MaxVelocityY: real := 15.0

  function HeroBox(p: Hero): Rect { Rect(p.x, p.y, p.width, p.height) }
  function FoeBox(e: Foe): Rect { Rect(e.x, e.y, e.width, e.height) }
  function CoinBox(c: Coin): Rect { Rect(c.x, c.y, c.width, c.height) }

  /** The starting layout on a canvas of the given size (the ground spans the canvas). */
  function StartPlatforms(canvasWidth: real, canvasHeight: real): seq<Rect> {
    [Rect(0.0, canvasHeight - 50.0, canvasWidth, 50.0), Rect(150.0, 400.0, 120.0, 20.0),
     Rect(350.0, 320.0, 100.0, 20.0), Rect(520.0, 240.0, 120.0, 20.0), Rect(200.0, 180.0, 100.0, 20.0),
     Rect(450.0, 150.0, 80.0, 20.0), Rect(100.0, 100.0, 100.0, 20.0), Rect(600.0, 350.0, 150.0, 20.0)]
  }

  function StartCoins(): seq<Coin> {
    [Coin(200.0, 150.0, 20.0, 20.0, false), Coin(400.0, 290.0, 20.0, 20.0, false),
     Coin(570.0, 210.0, 20.0, 20.0, false), Coin(250.0, 370.0, 20.0, 20.0, false),
     Coin(480.0, 120.0, 20.0, 20.0, false), Coin(650.0, 320.0, 20.0, 20.0, false),
     Coin(150.0, 70.0, 20.0, 20.0, false)]
  }

  function StartFoes(canvasHeight: real): seq<Foe> {
    [Foe(300.0, 380.0, 30.0, 30.0, 2.0, 250.0, 450.0), Foe(550.0, 220.0, 30.0, 30.0, 1.5, 500.0, 640.0),
     Foe(150.0, canvasHeight - 80.0, 30.0, 30.0, 3.0, 0.0, 400.0)]
  }

  function StartHero(): Hero {
    Hero(100.0, 300.0, 32.0, 48.0, 0.0, 0.0, 5.0, 12.0, false, 1)
  }

  // ----- the player update -----

  /**
   * The part of `updatePlayer` before the platform pass: steering (left wins
   * over right, no key means friction), the jump from the ground, gravity in
   * the air, the fall-speed cap, the move, the canvas clamp, and `grounded`
   * cleared for the platform pass.
   */
  function Integrated(p: Hero, keys: Keys, canvasWidth: real): Hero {
    var steered :=
      if keys.left then p.(vx := -p.speed, direction := -1)
      else if keys.right then p.(vx := p.speed, direction := 1)
      else p.(vx := p.vx * Friction);
    var jumped := if keys.jump && steered.grounded then steered.(vy := -steered.jumpPower, grounded := false) else steered;
    var fallen := if !jumped.grounded then jumped.(vy := jumped.vy + ClassicGravity) else jumped;
    var capped := if fallen.vy > MaxVelocityY then fallen.(vy := MaxVelocityY) else fallen;
    var moved := capped.(x := capped.x + capped.vx, y := capped.y + capped.vy);
    var clampedLeft := if moved.x < 0.0 then moved.(x := 0.0) else moved;
    var clamped :=
      if clampedLeft.x + clampedLeft.width > canvasWidth then clampedLeft.(x := canvasWidth - clampedLeft.width)
      else clampedLeft;
    clamped.(grounded := false)
  }

  /** Landing: falling, and the bottom edge was at or above the platform top before this frame's move. */
  predicate Landing(p: Hero, plat: Rect) {
    p.vy > 0.0 && p.y + p.height - p.vy <= plat.y
  }

  /** Head bump: rising, and the top edge was at or below the platform bottom before this frame's move. */
  predicate HeadBump(p: Hero, plat: Rect) {
    p.vy < 0.0 && p.y - p.vy >= plat.y + plat.height
  }

  /** One platform of the pass, in the order landing, then head bump, then side push. */
  function Resolved(p: Hero, plat: Rect): Hero {
    if !Collides(HeroBox(p), plat) then p
    else if Landing(p, plat) then p.(y := plat.y - p.height, vy := 0.0, grounded := true)
    else if HeadBump(p, plat) then p.(y := plat.y + plat.height, vy := 0.0)
    else if p.vx > 0.0 then p.(x := plat.x - p.width)
    else if p.vx < 0.0 then p.(x := plat.x + plat.width)
    else p
  }

  /** The platform pass over the list in order. */
  function ResolvedAll(p: Hero, plats: seq<Rect>): (r: Hero)
    ensures r.vx == p.vx && r.speed == p.speed && r.jumpPower == p.jumpPower
    ensures r.width == p.width && r.height == p.height && r.direction == p.direction
    decreases |plats|
  {
    if |plats| == 0 then p else Resolved(ResolvedAll(p, plats[..|plats| - 1]), plats[|plats| - 1])
  }

  function Ended(w: World): World {
    w.(running := false, reports := w.reports + [Report(w.score, w.coins)])
  }

  /** `updatePlayer`: integrate, resolve against every platform, and end the game below the canvas. */
  function PlayerUpdated(w: World, keys: Keys, plats: seq<Rect>, canvasWidth: real, canvasHeight: real): World {
    var hero := ResolvedAll(Integrated(w.hero, keys, canvasWidth), plats);
    var moved := w.(hero := hero);
    if hero.y > canvasHeight then Ended(moved) else moved
  }

  // ----- the enemies -----

  /** The enemy's patrol move: step by its velocity, and turn when its box touches either bound. */
  function Patrolled(e: Foe): Foe {
    var moved := e.(x := e.x + e.vx);
    if moved.x <= moved.minX || moved.x + moved.width >= moved.maxX then moved.(vx := -moved.vx) else moved
  }

  /** A stomp: the hero falls onto the enemy with its previous bottom edge at most 10 below the enemy's top. */
  predicate Stomps(p: Hero, e: Foe) {
    p.vy > 0.0 && p.y + p.height - p.vy <= e.y + 10.0
  }

  /** Enemy `k` of `updateEnemies`: patrol, then a stomp (bounce, 100 points, enemy sent off-screen) or the end of the game. */
  function FoeStep(w: World, k: nat): World
    requires k < |w.foes|
  {
    var e := Patrolled(w.foes[k]);
    if !Collides(HeroBox(w.hero), FoeBox(e)) then w.(foes := w.foes[k := e])
    else if Stomps(w.hero, e) then
      w.(hero := w.hero.(vy := -8.0), score := w.score + 100, foes := w.foes[k := e.(x := -1000.0)])
    else Ended(w.(foes := w.foes[k := e]))
  }

  /** The first `n` enemies processed. */
  function FoesUpdated(w: World, n: nat): (r: World)
    requires n <= |w.foes|
    ensures |r.foes| == |w.foes| && r.coinsList == w.coinsList && r.coins == w.coins
    decreases n
  {
    if n == 0 then w else FoeStep(FoesUpdated(w, n - 1), n - 1)
  }

  // ----- the coins -----

  function CoinStep(w: World, k: nat): World
    requires k < |w.coinsList|
  {
    var c := w.coinsList[k];
    if !c.collected && Collides(HeroBox(w.hero), CoinBox(c)) then
      w.(coinsList := w.coinsList[k := c.(collected := true)], coins := w.coins + 1, score := w.score + 50)
    else w
  }

  /** The first `n` coins checked. */
  function CoinsChecked(w: World, n: nat): (r: World)
    requires n <= |w.coinsList|
    ensures |r.coinsList| == |w.coinsList|
    ensures r.(coinsList := w.coinsList, coins := w.coins, score := w.score) == w
    decreases n
  {
    if n == 0 then w else CoinStep(CoinsChecked(w, n - 1), n - 1)
  }

  /** How many coins of the list are collected. */
  function CollectedCount(cs: seq<Coin>): (n: nat)
    ensures n <= |cs|
  {
    if |cs| == 0 then 0 else CollectedCount(cs[..|cs| - 1]) + (if cs[|cs| - 1].collected then 1 else 0)
  }

  /** `gameLoop`: nothing once the game has ended; otherwise player, enemies, coins. */
  function Frame(w: World, keys: Keys, plats: seq<Rect>, canvasWidth: real, canvasHeight: real): World {
    if !w.running then w
    else
      var p := PlayerUpdated(w, keys, plats, canvasWidth, canvasHeight);
      var e := FoesUpdated(p, |p.foes|);
      CoinsChecked(e, |e.coinsList|)
  }

  class Game {
    const canvasWidth: real
    const canvasHeight: real
    const platforms: seq<Rect>
    var hero: Hero
    var foes: seq<Foe>
    var coinsList: seq<Coin>
    var score: int
    var coins: int
    var running: bool
    var reports: seq<Report>

    function State(): World
      reads this
    {
      World(hero, foes, coinsList, score, coins, running, reports)
    }

    constructor (width: real, height: real)
      ensures canvasWidth == width && canvasHeight == height && platforms == StartPlatforms(width, height)
      ensures State() == World(StartHero(), StartFoes(height), StartCoins(), 0, 0, true, [])
    {
      canvasWidth, canvasHeight := width, height;
      platforms := StartPlatforms(width, height);
      hero := StartHero();
      foes := StartFoes(height);
      coinsList := StartCoins();
      score, coins := 0, 0;
      running := true;
      reports := [];
    }

    method GameLoop(keys: Keys)
      modifies this
      ensures State() == Frame(old(State()), keys, platforms, canvasWidth, canvasHeight)
    {
      if !running {
        return;
      }
      UpdatePlayer(keys);
      UpdateEnemies();
      CheckCoins();
    }

    method UpdatePlayer(keys: Keys)
      modifies this
      ensures State() == PlayerUpdated(old(State()), keys, platforms, canvasWidth, canvasHeight)
    {
      hero := Integrated(hero, keys, canvasWidth);
      ghost var integrated := hero;
      var i := 0;
      while i < |platforms|
        invariant 0 <= i <= |platforms|
        invariant hero == ResolvedAll(integrated, platforms[..i])
        invariant State() == old(State()).(hero := hero)
      {
        assert platforms[..i + 1][..i] == platforms[..i];
        var platform := platforms[i];
        if Collides(HeroBox(hero), platform) {
          if hero.vy > 0.0 && hero.y + hero.height - hero.vy <= platform.y {
            hero := hero.(y := platform.y - hero.height, vy := 0.0, grounded := true);
          } else if hero.vy < 0.0 && hero.y - hero.vy >= platform.y + platform.height {
            hero := hero.(y := platform.y + platform.height, vy := 0.0);
          } else if hero.vx > 0.0 {
            hero := hero.(x := platform.x - hero.width);
          } else if hero.vx < 0.0 {
            hero := hero.(x := platform.x + platform.width);
          }
        }
        i := i + 1;
      }
      assert platforms[..i] == platforms;
      if hero.y > canvasHeight {
        EndGame();
      }
    }

    method UpdateEnemies()
      modifies this
      ensures State() == FoesUpdated(old(State()), |old(foes)|)
    {
      var i := 0;
      while i < |foes|
        invariant 0 <= i <= |foes| == |old(foes)|
        invariant State() == FoesUpdated(old(State()), i)
      {
        StepFoe(i);
        i := i + 1;
      }
    }

    /** One enemy of `updateEnemies`: its patrol step, then its contact with the player. */
    method StepFoe(i: nat)
      requires i < |foes|
      modifies this
      ensures State() == FoeStep(old(State()), i)
    {
      var enemy := foes[i];
      enemy := enemy.(x := enemy.x + enemy.vx);
      if enemy.x <= enemy.minX || enemy.x + enemy.width >= enemy.maxX {
        enemy := enemy.(vx := -enemy.vx);
      }
      foes := foes[i := enemy];
      if Collides(HeroBox(hero), FoeBox(enemy)) {
        if hero.vy > 0.0 && hero.y + hero.height - hero.vy <= enemy.y + 10.0 {
          hero := hero.(vy := -8.0);
          score := score + 100;
          foes := foes[i := enemy.(x := -1000.0)];
        } else {
          EndGame();
        }
      }
    }

    method CheckCoins()
      modifies this
      ensures State() == CoinsChecked(old(State()), |old(coinsList)|)
    {
      var i := 0;
      while i < |coinsList|
        invariant 0 <= i <= |coinsList| == |old(coinsList)|
        invariant State() == CoinsChecked(old(State()), i)
      {
        var coin := coinsList[i];
        if !coin.collected && Collides(HeroBox(hero), CoinBox(coin)) {
          coinsList := coinsList[i := coin.(collected := true)];
          coins := coins + 1;
          score := score + 50;
        }
        i := i + 1;
      }
    }

    /** `endGame`: stop the loop and report the score and coins; it has no guard of its own. */
    method EndGame()
      modifies this
      ensures State() == Ended(old(State()))
    {
      running := false;
      reports := reports + [Report(score, coins)];
    }
  }

  // ----- properties -----

  /** The overlap test is symmetric, and boxes that only share an edge do not overlap. */
  lemma CollisionIsSymmetricAndStrict(a: Rect, b: Rect)
    ensures Collides(a, b) <==> Collides(b, a)
    ensures a.x + a.width == b.x ==> !Collides(a, b)
    ensures a.y + a.height == b.y ==> !Collides(a, b)
  {
  }

  /**
   * The integration step: the fall speed never exceeds 15 per frame, the box
   * stays on a canvas at least as wide as it, a jump needs the ground, and
   * `grounded` is always cleared for the platform pass.
   */
  lemma IntegrationBounds(p: Hero, keys: Keys, canvasWidth: real)
    ensures Integrated(p, keys, canvasWidth).vy <= MaxVelocityY
    ensures !Integrated(p, keys, canvasWidth).grounded
    ensures p.width <= canvasWidth ==>
              0.0 <= Integrated(p, keys, canvasWidth).x <= canvasWidth - p.width
    ensures !p.grounded ==>
              Integrated(p, keys, canvasWidth).vy == (if p.vy + ClassicGravity > MaxVelocityY then MaxVelocityY else p.vy + ClassicGravity)
    ensures p.grounded && keys.jump && p.jumpPower >= 0.0 ==>
              Integrated(p, keys, canvasWidth).vy == -p.jumpPower + ClassicGravity
    ensures p.grounded && !keys.jump && p.vy <= MaxVelocityY ==> Integrated(p, keys, canvasWidth).vy == p.vy
  {
  }

  /** Left wins over right, and with neither key the horizontal speed decays by the friction factor. */
  lemma SteeringRule(p: Hero, keys: Keys, canvasWidth: real)
    ensures keys.left ==> Integrated(p, keys, canvasWidth).vx == -p.speed && Integrated(p, keys, canvasWidth).direction == -1
    ensures !keys.left && keys.right ==> Integrated(p, keys, canvasWidth).vx == p.speed && Integrated(p, keys, canvasWidth).direction == 1
    ensures !keys.left && !keys.right ==> Integrated(p, keys, canvasWidth).vx == p.vx * Friction
  {
  }

  /**
   * Each resolution case leaves the hero clear of that platform: landing
   * puts its feet on the top, a head bump puts its head under the bottom,
   * and a side push puts it beside the platform. Only a side contact with no
   * horizontal speed leaves it overlapping.
   */
  lemma ResolutionSeparates(p: Hero, plat: Rect)
    requires Collides(HeroBox(p), plat)
    ensures Landing(p, plat) ==>
              var q := Resolved(p, plat); q.y + q.height == plat.y && q.vy == 0.0 && q.grounded
    ensures !Landing(p, plat) && HeadBump(p, plat) ==>
              var q := Resolved(p, plat); q.y == plat.y + plat.height && q.vy == 0.0 && q.grounded == p.grounded
    ensures Collides(HeroBox(Resolved(p, plat)), plat) <==> !Landing(p, plat) && !HeadBump(p, plat) && p.vx == 0.0
  {
  }

  /** Only a landing sets `grounded`; head bumps and side pushes keep the vertical speed's sign rule. */
  lemma OnlyLandingGrounds(p: Hero, plat: Rect)
    ensures Resolved(p, plat).grounded && !p.grounded ==> Collides(HeroBox(p), plat) && Landing(p, plat)
    ensures Resolved(p, plat).vy == p.vy || Resolved(p, plat).vy == 0.0
  {
  }

  /** After the platform pass a grounded hero has no vertical speed, whatever the order of the platforms. */
  lemma {:induction false} GroundedMeansResting(p: Hero, plats: seq<Rect>)
    requires !p.grounded
    ensures ResolvedAll(p, plats).grounded ==> ResolvedAll(p, plats).vy == 0.0
    decreases |plats|
  {
    if |plats| > 0 {
      GroundedMeansResting(p, plats[..|plats| - 1]);
    }
  }

  /**
   * The enemies' pass scores in whole stomps: the score never falls, and it
   * grows by a multiple of 100 of at most 100 per enemy processed.
   */
  lemma {:induction false} StompsScoreHundreds(w: World, n: nat)
    requires n <= |w.foes|
    ensures FoesUpdated(w, n).score >= w.score
    ensures (FoesUpdated(w, n).score - w.score) % 100 == 0
    ensures (FoesUpdated(w, n).score - w.score) / 100 <= n
    decreases n
  {
    if n > 0 {
      StompsScoreHundreds(w, n - 1);
    }
  }

  /**
   * Contact with an enemy after its patrol step: a stomp bounces the hero at
   * -8, scores 100 and sends the enemy to x = -1000; any other contact ends
   * the game with the score unchanged; no contact leaves all but the enemy alone.
   */
  lemma ContactStompsOrEnds(w: World, k: nat)
    requires k < |w.foes|
    ensures var e := Patrolled(w.foes[k]); var r := FoeStep(w, k);
      && (!Collides(HeroBox(w.hero), FoeBox(e)) ==> r == w.(foes := w.foes[k := e]))
      && (Collides(HeroBox(w.hero), FoeBox(e)) && Stomps(w.hero, e) ==>
            r.hero.vy == -8.0 && r.score == w.score + 100 && r.foes[k] == e.(x := -1000.0) && r.running == w.running)
      && (Collides(HeroBox(w.hero), FoeBox(e)) && !Stomps(w.hero, e) ==>
            !r.running && r.score == w.score && r.hero == w.hero
            && r.reports == w.reports + [Report(w.score, w.coins)])
  {
  }

  /** A patrol step reverses the enemy exactly when its box reaches a bound after moving, keeping its speed. */
  lemma PatrolTurnsAtBounds(e: Foe)
    ensures var m := e.x + e.vx;
      Patrolled(e).x == m
      && (Patrolled(e).vx == -e.vx <==> (m <= e.minX || m + e.width >= e.maxX) || e.vx == 0.0)
      && (Patrolled(e).vx == e.vx || Patrolled(e).vx == -e.vx)
  {
  }

  /** A collected coin never scores again. */
  lemma CollectedCoinIsInert(w: World, k: nat)
    requires k < |w.coinsList| && w.coinsList[k].collected
    ensures CoinStep(w, k) == w
  {
  }

  lemma {:induction false} CollectedCountUpdate(cs: seq<Coin>, k: nat, c: Coin)
    requires k < |cs| && !cs[k].collected && c.collected
    ensures CollectedCount(cs[k := c]) == CollectedCount(cs) + 1
    decreases |cs|
  {
    if k < |cs| - 1 {
      assert cs[k := c][..|cs| - 1] == cs[..|cs| - 1][k := c];
      CollectedCountUpdate(cs[..|cs| - 1], k, c);
    } else {
      assert cs[k := c][..|cs| - 1] == cs[..|cs| - 1];
    }
  }

  /**
   * The coins' pass: the coin counter and the score grow together, one coin
   * and 50 points per newly collected coin, and collected coins stay collected.
   */
  lemma {:induction false} CoinsScoreFifty(w: World, n: nat)
    requires n <= |w.coinsList|
    ensures var r := CoinsChecked(w, n);
      r.coins - w.coins == CollectedCount(r.coinsList) - CollectedCount(w.coinsList)
      && r.score - w.score == 50 * (r.coins - w.coins)
      && forall k :: 0 <= k < |w.coinsList| && w.coinsList[k].collected ==> r.coinsList[k].collected
    decreases n
  {
    if n > 0 {
      CoinsScoreFifty(w, n - 1);
      var v := CoinsChecked(w, n - 1);
      var c := v.coinsList[n - 1];
      var r := CoinsChecked(w, n);
      if !c.collected && Collides(HeroBox(v.hero), CoinBox(c)) {
        assert r.coinsList == v.coinsList[n - 1 := c.(collected := true)] && r.coins == v.coins + 1;
        CollectedCountUpdate(v.coinsList, n - 1, c.(collected := true));
      } else {
        assert r == v;
      }
    }
  }

  /**
   * The coins' pass coin by coin: the hero is not moved, a coin only ever
   * changes its collected flag, and a coin is collected afterwards exactly
   * when it already was or it is among the first `n` and overlaps the hero.
   */
  lemma {:induction false} CoinsPickedUp(w: World, n: nat)
    requires n <= |w.coinsList|
    ensures CoinsChecked(w, n).hero == w.hero
    ensures forall k :: 0 <= k < |w.coinsList| ==>
              CoinsChecked(w, n).coinsList[k].(collected := w.coinsList[k].collected) == w.coinsList[k]
    ensures forall k :: 0 <= k < |w.coinsList| ==>
              (CoinsChecked(w, n).coinsList[k].collected <==>
               w.coinsList[k].collected || (k < n && Collides(HeroBox(w.hero), CoinBox(w.coinsList[k]))))
    decreases n
  {
    if n > 0 {
      CoinsPickedUp(w, n - 1);
      var v := CoinsChecked(w, n - 1);
      var c := v.coinsList[n - 1];
      assert c == w.coinsList[n - 1];
      var r := CoinsChecked(w, n);
      if !c.collected && Collides(HeroBox(v.hero), CoinBox(c)) {
        assert r.coinsList == v.coinsList[n - 1 := c.(collected := true)] && r.hero == v.hero;
      } else {
        assert r == v;
      }
    }
  }

  /** Once the game has ended a frame changes nothing; every `endGame` call adds one report. */
  lemma EndedGameIsFrozen(w: World, keys: Keys, plats: seq<Rect>, canvasWidth: real, canvasHeight: real)
    ensures !w.running ==> Frame(w, keys, plats, canvasWidth, canvasHeight) == w
    ensures Ended(w).reports == w.reports + [Report(w.score, w.coins)] && !Ended(w).running
  {
  }
}
