/**
 * The patrolling enemy of the rounds: it walks at its base speed and turns
 * around whenever it stands on or beyond either end of its patrol range.
 * The physics engine moves it between updates; `x` is where the engine left it.
 */
module EnemyPatrol {

  /** The velocity the patrol rule leaves: reversed on or beyond a bound, kept strictly inside. */
  function PatrolVelocity(x: real, vx: real, minX: real, maxX: real): (r: real)
    ensures r == vx || r == -vx
    ensures r * r == vx * vx
  {
    if x <= minX || x >= maxX then -vx else vx
  }

  /** The sprite faces left exactly while the enemy moves left. */
  predicate FacesLeft(vx: real) {
    vx < 0.0
  }

  class Enemy {
    const minX: real
    const maxX: real
    const baseSpeed: real
    var x: real
    var y: real
    var vx: real
    var flipX: bool

    constructor (x0: real, y0: real, minX0: real, maxX0: real, speed: real)
      ensures minX == minX0 && maxX == maxX0 && baseSpeed == speed
      ensures x == x0 && y == y0 && vx == speed && !flipX
    {
      minX, maxX, baseSpeed := minX0, maxX0, speed;
      x, y := x0, y0;
      vx := speed;
      flipX := false;
    }

    method Update()
      modifies this
      ensures vx == PatrolVelocity(old(x), old(vx), minX, maxX)
      ensures flipX == FacesLeft(vx)
      ensures x == old(x) && y == old(y)
    {
      if x <= minX || x >= maxX {
        vx := -vx;
      }
      flipX := vx < 0.0;
    }
  }

  // ----- properties of the patrol rule -----

  /** On or beyond either bound the velocity is reversed; strictly inside it is unchanged. */
  lemma FlipExactlyAtBounds(x: real, vx: real, minX: real, maxX: real)
    ensures vx != 0.0 ==> ((x <= minX || x >= maxX) <==> PatrolVelocity(x, vx, minX, maxX) == -vx)
    ensures minX < x < maxX ==> PatrolVelocity(x, vx, minX, maxX) == vx
  {
  }

  /** An enemy walking out past a bound is turned back toward its range. */
  lemma TurnsBackInward(x: real, vx: real, minX: real, maxX: real)
    requires minX < maxX
    ensures x >= maxX && vx > 0.0 ==> PatrolVelocity(x, vx, minX, maxX) < 0.0
    ensures x <= minX && vx < 0.0 ==> PatrolVelocity(x, vx, minX, maxX) > 0.0
  {
  }

  /**
   * An enemy still on or beyond a bound at the next update is reversed again:
   * two updates at the same spot restore the velocity. With a positive base
   * speed, the speed never changes.
   */
  lemma SpeedIsKept(x: real, vx: real, minX: real, maxX: real)
    ensures PatrolVelocity(x, PatrolVelocity(x, vx, minX, maxX), minX, maxX) == vx
    ensures vx > 0.0 ==> PatrolVelocity(x, vx, minX, maxX) in {vx, -vx} && PatrolVelocity(x, vx, minX, maxX) != 0.0
  {
  }
}
