/**
 * The player's jump and damage controller: coyote time, jump buffering,
 * rising-edge detection, the variable-height cut, the drag rule, the
 * invincibility window, knockback and respawn.
 *
 * The physics body is a record of position, velocity and acceleration. The
 * physics engine's own integration (and its max-velocity clamp) is not part
 * of this model: "grounded" is an input to each update, and the body's
 * velocity is read as the engine left it.
 */
module PlayerController {
  import opened Config

  datatype Body = Body(x: real, y: real, vx: real, vy: real, ax: real, ay: real)

  /** The merged keyboard/touch state of one frame. */
  datatype Buttons = Buttons(left: bool, right: bool, jump: bool)

  datatype PlayerData = PlayerData(
    body: Body,
    isGrounded: bool,
    coyoteTimeCounter: real,
    jumpBufferCounter: real,
    jumpHoldTime: real,
    isJumping: bool,
    jumpPressed: bool,
    direction: int,
    isInvincible: bool,
    invincibleTimer: real,
    flipX: bool)

  /** A freshly created player at (x, y), facing right. */
  function Spawned(x: real, y: real): PlayerData {
    PlayerData(Body(x, y, 0.0, 0.0, 0.0, 0.0), false, 0.0, 0.0, 0.0, false, false, 1, false, 0.0, false)
  }

  /** A frame delta in milliseconds, as seconds. */
  function Seconds(ms: real): (s: real)
    ensures s * 1000.0 == ms
  {
    ms / 1000.0
  }

  /** `Math.sign`. */
  function Sign(v: real): int {
    if v > 0.0 then 1 else if v < 0.0 then -1 else 0
  }

  function Abs(v: real): real {
    if v < 0.0 then -v else v
  }

  /**
   * One frame of drag with no horizontal input: the speed drops by
   * horizontalDrag / 60, and a step that would reach or cross zero stops the
   * body instead. The sign never flips.
   */
  function Dragged(vx: real): (r: real)
    ensures Abs(r) <= Abs(vx)
    ensures r == 0.0 || Sign(r) == Sign(vx)
    ensures r == 0.0 || Abs(vx) - Abs(r) == HorizontalDrag / 60.0
    ensures Abs(vx) > HorizontalDrag / 60.0 ==> r != 0.0
  {
    if Abs(vx) > 0.0 then
      var newVelX := vx + (if vx > 0.0 then -1.0 else 1.0) * HorizontalDrag * (1.0 / 60.0);
      if Sign(newVelX) != Sign(vx) then 0.0 else newVelX
    else
      vx
  }

  /** Per-frame timers: grounded refreshes the coyote time, airborne drains it; a pending buffer drains. */
  function TimersTicked(p: PlayerData, dt: real, grounded: bool): PlayerData {
    p.(isGrounded := grounded,
       coyoteTimeCounter := if grounded then CoyoteTime else p.coyoteTimeCounter - dt,
       jumpBufferCounter := if p.jumpBufferCounter > 0.0 then p.jumpBufferCounter - dt else p.jumpBufferCounter)
  }

  /** Exclusive left or right input accelerates and sets the facing; anything else applies drag. */
  function Steered(p: PlayerData, b: Buttons): (r: PlayerData)
    ensures r.(body := p.body, direction := p.direction) == p
    ensures r.body.(vx := p.body.vx, ax := p.body.ax) == p.body
    ensures r.direction in {p.direction, -1, 1}
  {
    if b.left && !b.right then
      p.(body := p.body.(ax := -HorizontalAcceleration), direction := -1)
    else if b.right && !b.left then
      p.(body := p.body.(ax := HorizontalAcceleration), direction := 1)
    else
      p.(body := p.body.(ax := 0.0, vx := Dragged(p.body.vx)))
  }

  /** The take-off: jump velocity, jumping, hold time restarted, both grace counters consumed. */
  function JumpStarted(p: PlayerData): PlayerData {
    p.(body := p.body.(vy := JumpVelocity), isJumping := true, jumpHoldTime := 0.0,
       jumpBufferCounter := 0.0, coyoteTimeCounter := 0.0)
  }

  /** The jump button went down this frame. */
  predicate RisingEdge(p: PlayerData, button: bool) {
    button && !p.jumpPressed
  }

  /** Whether `handleJump` starts a jump: buffered press, coyote time left, not already jumping. */
  predicate JumpStarts(p: PlayerData, button: bool) {
    (if RisingEdge(p, button) then JumpBufferTime else p.jumpBufferCounter) > 0.0
    && p.coyoteTimeCounter > 0.0 && !p.isJumping
  }

  /** The first half of `handleJump`: arm the buffer on a rising edge, then latch the button. */
  function Buffered(p: PlayerData, button: bool): PlayerData {
    (if RisingEdge(p, button) then p.(jumpBufferCounter := JumpBufferTime) else p).(jumpPressed := button)
  }

  /** A pending buffered press with coyote time left starts a jump, unless one is under way. */
  function JumpTried(p: PlayerData): PlayerData {
    if p.jumpBufferCounter > 0.0 && p.coyoteTimeCounter > 0.0 && !p.isJumping then JumpStarted(p) else p
  }

  /** Releasing the button under the hold threshold halves an upward velocity and ends the jump. */
  function ReleaseCut(p: PlayerData, button: bool): PlayerData {
    if !button && p.jumpHoldTime < VariableJumpThreshold then
      (if p.body.vy < 0.0 then p.(body := p.body.(vy := p.body.vy * ShortJumpMultiplier)) else p).(isJumping := false)
    else p
  }

  /** The jump ends at the apex (no upward velocity left) or on the ground. */
  function PeakEnded(p: PlayerData): PlayerData {
    if p.body.vy >= 0.0 || p.isGrounded then p.(isJumping := false) else p
  }

  /** The variable-height part of `handleJump`, applied only while jumping. */
  function HoldApplied(p: PlayerData, dt: real, button: bool): (r: PlayerData)
    ensures r.isJumping ==> r.body.vy < 0.0 && !r.isGrounded
    ensures !p.isJumping ==> r == p
    ensures r.(isJumping := p.isJumping, jumpHoldTime := p.jumpHoldTime, body := p.body) == p
    ensures r.body.(vy := p.body.vy) == p.body
  {
    if p.isJumping then PeakEnded(ReleaseCut(p.(jumpHoldTime := p.jumpHoldTime + dt), button)) else p
  }

  /** `handleJump`: buffer on the rising edge, start a jump, then the hold-time cut and the jump end. */
  function JumpHandled(p: PlayerData, dt: real, button: bool): PlayerData {
    HoldApplied(JumpTried(Buffered(p, button)), dt, button)
  }

  /** The invincibility window drains and closes once it reaches zero. */
  function InvincibilityTicked(p: PlayerData, dt: real): (r: PlayerData)
    ensures r.(isInvincible := p.isInvincible, invincibleTimer := p.invincibleTimer) == p
    ensures r.isInvincible ==> p.isInvincible
  {
    if p.isInvincible then
      var t := p.invincibleTimer - dt;
      p.(invincibleTimer := t, isInvincible := !(t <= 0.0))
    else
      p
  }

  /** One `update`: timers, horizontal control, jump control, invincibility, sprite facing. */
  function Stepped(p: PlayerData, dt: real, grounded: bool, b: Buttons): PlayerData {
    Faced(InvincibilityTicked(JumpHandled(Steered(TimersTicked(p, dt, grounded), b), dt, b.jump), dt))
  }

  /** The sprite is mirrored exactly when the player faces left. */
  function Faced(p: PlayerData): (r: PlayerData)
    ensures r.(flipX := p.flipX) == p
    ensures r.flipX <==> p.direction < 0
  {
    p.(flipX := p.direction < 0)
  }

  /** `takeDamage`: ignored while invincible; otherwise invincibility and knockback away from the facing. */
  function Damaged(p: PlayerData): (PlayerData, bool) {
    if p.isInvincible then (p, false)
    else (p.(isInvincible := true, invincibleTimer := InvincibilityTime,
             body := p.body.(vx := -(p.direction as real) * 200.0, vy := -300.0)), true)
  }

  function MadeInvincible(p: PlayerData, duration: real): PlayerData {
    p.(isInvincible := true, invincibleTimer := duration)
  }

  function Pushed(p: PlayerData, forceX: real, forceY: real): PlayerData {
    p.(body := p.body.(vx := forceX, vy := forceY))
  }

  function Bounced(p: PlayerData): PlayerData {
    p.(body := p.body.(vy := EnemyBounceVelocity), isJumping := false)
  }

  /** `reset`: position set, motion and jump state cleared; invincibility, facing and the button latch kept. */
  function ResetAt(p: PlayerData, x: real, y: real): PlayerData {
    p.(body := Body(x, y, 0.0, 0.0, 0.0, 0.0), isGrounded := false, isJumping := false,
       coyoteTimeCounter := 0.0, jumpBufferCounter := 0.0, jumpHoldTime := 0.0)
  }

  class Player {
    var body: Body
    var isGrounded: bool
    var coyoteTimeCounter: real
    var jumpBufferCounter: real
    var jumpHoldTime: real
    var isJumping: bool
    var jumpPressed: bool
    var direction: int
    var isInvincible: bool
    var invincibleTimer: real
    var flipX: bool

    function Data(): PlayerData
      reads this
    {
      PlayerData(body, isGrounded, coyoteTimeCounter, jumpBufferCounter, jumpHoldTime, isJumping,
                 jumpPressed, direction, isInvincible, invincibleTimer, flipX)
    }

    constructor (x: real, y: real)
      ensures Data() == Spawned(x, y)
    {
      body := Body(x, y, 0.0, 0.0, 0.0, 0.0);
      isGrounded := false;
      coyoteTimeCounter := 0.0;
      jumpBufferCounter := 0.0;
      jumpHoldTime := 0.0;
      isJumping := false;
      jumpPressed := false;
      direction := 1;
      isInvincible := false;
      invincibleTimer := 0.0;
      flipX := false;
    }

    /** One frame; `delta` is in milliseconds, `blockedDown` is the engine's "touching the floor". */
    method Update(delta: real, blockedDown: bool, buttons: Buttons)
      modifies this
      ensures Data() == Stepped(old(Data()), Seconds(delta), blockedDown, buttons)
    {
      var dt := Seconds(delta);
      UpdateTimers(dt, blockedDown);
      HandleHorizontalMovement(buttons);
      HandleJump(dt, buttons.jump);
      UpdateInvincibility(dt);
      FaceSprite();
    }

    /** The sprite flip at the end of `update`. */
    method FaceSprite()
      modifies this
      ensures Data() == Faced(old(Data()))
    {
      flipX := direction < 0;
    }

    /** The grounded check, the coyote counter and the jump buffer at the top of `update`. */
    method UpdateTimers(dt: real, blockedDown: bool)
      modifies this
      ensures Data() == TimersTicked(old(Data()), dt, blockedDown)
    {
      isGrounded := blockedDown;
      if isGrounded {
        coyoteTimeCounter := CoyoteTime;
      } else {
        coyoteTimeCounter := coyoteTimeCounter - dt;
      }
      if jumpBufferCounter > 0.0 {
        jumpBufferCounter := jumpBufferCounter - dt;
      }
    }

    /** The invincibility countdown at the end of `update`. */
    method UpdateInvincibility(dt: real)
      modifies this
      ensures Data() == InvincibilityTicked(old(Data()), dt)
    {
      if isInvincible {
        invincibleTimer := invincibleTimer - dt;
        if invincibleTimer <= 0.0 {
          isInvincible := false;
        }
      }
    }

    method HandleHorizontalMovement(buttons: Buttons)
      modifies this
      ensures Data() == Steered(old(Data()), buttons)
    {
      if buttons.left && !buttons.right {
        body := body.(ax := -HorizontalAcceleration);
        direction := -1;
      } else if buttons.right && !buttons.left {
        body := body.(ax := HorizontalAcceleration);
        direction := 1;
      } else {
        body := body.(ax := 0.0);
        var currentVelX := body.vx;
        if Abs(currentVelX) > 0.0 {
          var dragSign := if currentVelX > 0.0 then -1.0 else 1.0;
          var newVelX := currentVelX + dragSign * HorizontalDrag * (1.0 / 60.0);
          if Sign(newVelX) != Sign(currentVelX) {
            body := body.(vx := 0.0);
          } else {
            body := body.(vx := newVelX);
          }
        }
      }
    }

    method HandleJump(dt: real, jumpButton: bool)
      modifies this
      ensures Data() == JumpHandled(old(Data()), dt, jumpButton)
    {
      BufferJumpPress(jumpButton);
      TryStartJump();
      ghost var tried := Data();
      ApplyVariableHeight(dt, jumpButton);
      assert Data() == HoldApplied(tried, dt, jumpButton);
    }

    /** The rising-edge buffer and the button latch of `handleJump`. */
    method BufferJumpPress(jumpButton: bool)
      modifies this
      ensures Data() == Buffered(old(Data()), jumpButton)
    {
      if jumpButton && !jumpPressed {
        jumpBufferCounter := JumpBufferTime;
      }
      jumpPressed := jumpButton;
    }

    /** The coyote-time jump start of `handleJump`. */
    method TryStartJump()
      modifies this
      ensures Data() == JumpTried(old(Data()))
    {
      if jumpBufferCounter > 0.0 && coyoteTimeCounter > 0.0 && !isJumping {
        StartJump();
      }
    }

    /** The variable-height cut and the end of the jump in `handleJump`. */
    method ApplyVariableHeight(dt: real, jumpButton: bool)
      modifies this
      ensures Data() == HoldApplied(old(Data()), dt, jumpButton)
    {
      if isJumping {
        jumpHoldTime := jumpHoldTime + dt;
        ghost var held := Data();
        if !jumpButton && jumpHoldTime < VariableJumpThreshold {
          if body.vy < 0.0 {
            body := body.(vy := body.vy * ShortJumpMultiplier);
          }
          isJumping := false;
        }
        assert Data() == ReleaseCut(held, jumpButton);
        if body.vy >= 0.0 || isGrounded {
          isJumping := false;
        }
      }
    }

    method StartJump()
      modifies this
      ensures Data() == JumpStarted(old(Data()))
    {
      body := body.(vy := JumpVelocity);
      isJumping := true;
      jumpHoldTime := 0.0;
      jumpBufferCounter := 0.0;
      coyoteTimeCounter := 0.0;
    }

    method BounceOnEnemy()
      modifies this
      ensures Data() == Bounced(old(Data()))
    {
      body := body.(vy := EnemyBounceVelocity);
      isJumping := false;
    }

    method TakeDamage() returns (applied: bool)
      modifies this
      ensures (Data(), applied) == Damaged(old(Data()))
    {
      if isInvincible {
        return false;
      }
      isInvincible := true;
      invincibleTimer := InvincibilityTime;
      body := body.(vx := -(direction as real) * 200.0, vy := -300.0);
      return true;
    }

    method SetInvincible(duration: real)
      modifies this
      ensures Data() == MadeInvincible(old(Data()), duration)
    {
      isInvincible := true;
      invincibleTimer := duration;
    }

    method Push(forceX: real, forceY: real)
      modifies this
      ensures Data() == Pushed(old(Data()), forceX, forceY)
    {
      body := body.(vx := forceX, vy := forceY);
    }

    method Reset(x: real, y: real)
      modifies this
      ensures Data() == ResetAt(old(Data()), x, y)
    {
      body := Body(x, y, 0.0, 0.0, 0.0, 0.0);
      isGrounded := false;
      isJumping := false;
      coyoteTimeCounter := 0.0;
      jumpBufferCounter := 0.0;
      jumpHoldTime := 0.0;
    }
  }

  // ----- properties of the controller -----

  /**
   * The coyote counter is refilled on the ground and drained by dt in the
   * air, unless a jump starts this frame, which consumes it.
   */
  lemma CoyoteCounterRule(p: PlayerData, dt: real, grounded: bool, b: Buttons)
    ensures var q := Stepped(p, dt, grounded, b);
      q.isGrounded == grounded
      && q.coyoteTimeCounter ==
           (if JumpStarts(TimersTicked(p, dt, grounded), b.jump) then 0.0
            else if grounded then CoyoteTime else p.coyoteTimeCounter - dt)
  {
    var t := TimersTicked(p, dt, grounded);
    var u := Buffered(Steered(t, b), b.jump);
    assert JumpStarts(t, b.jump) <==> u.jumpBufferCounter > 0.0 && u.coyoteTimeCounter > 0.0 && !u.isJumping;
    assert JumpTried(u).coyoteTimeCounter ==
             (if JumpStarts(t, b.jump) then 0.0 else if grounded then CoyoteTime else p.coyoteTimeCounter - dt);
  }

  /** The buffer is armed only on a rising edge, and the latch then records the button. */
  lemma BufferArmsOnRisingEdgeOnly(p: PlayerData, dt: real, button: bool)
    requires !JumpStarts(p, button)
    ensures JumpHandled(p, dt, button).jumpPressed == button
    ensures RisingEdge(p, button) ==> JumpHandled(p, dt, button).jumpBufferCounter == JumpBufferTime
    ensures !RisingEdge(p, button) ==> JumpHandled(p, dt, button).jumpBufferCounter == p.jumpBufferCounter
  {
  }

  /**
   * A jump starts exactly when `JumpStarts` holds, and it then leaves the jump
   * velocity (possibly cut), a hold time of dt and both counters at zero;
   * otherwise only the press buffering happens.
   */
  lemma JumpStartsIff(p: PlayerData, dt: real, button: bool)
    requires !p.isJumping
    ensures JumpStarts(p, button) ==>
              var q := JumpHandled(p, dt, button);
              q.body.vy in {JumpVelocity, JumpVelocity * ShortJumpMultiplier}
              && q.jumpBufferCounter == 0.0 && q.coyoteTimeCounter == 0.0 && q.jumpHoldTime == dt
    ensures !JumpStarts(p, button) ==> JumpHandled(p, dt, button) == Buffered(p, button)
    ensures p.body.vy != JumpVelocity && p.body.vy != JumpVelocity * ShortJumpMultiplier ==>
              (JumpStarts(p, button) <==>
               JumpHandled(p, dt, button).body.vy in {JumpVelocity, JumpVelocity * ShortJumpMultiplier})
  {
  }

  /** After any update, a player still marked as jumping is airborne and moving up. */
  lemma JumpingMeansRising(p: PlayerData, dt: real, grounded: bool, b: Buttons)
    ensures var q := Stepped(p, dt, grounded, b);
      q.isJumping ==> q.body.vy < 0.0 && !q.isGrounded && !grounded
  {
  }

  /**
   * A jump started on the ground with the button held ends in the same
   * update, at full jump velocity: it can never be cut short later.
   */
  lemma GroundJumpSkipsShortHop(p: PlayerData, dt: real, b: Buttons)
    requires b.jump && JumpStarts(Steered(TimersTicked(p, dt, true), b), b.jump)
    ensures var q := Stepped(p, dt, true, b);
      q.body.vy == JumpVelocity && !q.isJumping
    ensures var q := Stepped(p, dt, true, b);
      forall dt2: real, g: bool, b2: Buttons :: !b2.jump ==> Stepped(q, dt2, g, b2).body.vy == JumpVelocity
  {
  }

  /**
   * Jump buffering: a press made earlier in the air is still pending when the
   * body lands (buffer larger than the frame time), so the landing frame jumps.
   */
  lemma BufferedPressJumpsOnLanding(p: PlayerData, dt: real, b: Buttons)
    requires 0.0 <= dt && !p.isJumping && p.jumpBufferCounter > dt && !RisingEdge(p, b.jump)
    ensures Stepped(p, dt, true, b).body.vy in {JumpVelocity, JumpVelocity * ShortJumpMultiplier}
    ensures Stepped(p, dt, true, b).jumpBufferCounter == 0.0 && Stepped(p, dt, true, b).coyoteTimeCounter == 0.0
    ensures b.jump ==> Stepped(p, dt, true, b).body.vy == JumpVelocity
    ensures !b.jump && 0.0 <= dt < VariableJumpThreshold ==>
              Stepped(p, dt, true, b).body.vy == JumpVelocity * ShortJumpMultiplier
  {
  }

  /** Coyote time: pressing jump while the grace period outlasts this frame still starts a jump. */
  lemma CoyoteJumpWithinWindow(p: PlayerData, dt: real, b: Buttons)
    requires p.coyoteTimeCounter > dt && !p.isJumping && RisingEdge(p, b.jump) && 0.0 <= dt < VariableJumpThreshold
    ensures var q := Stepped(p, dt, false, b);
      q.isJumping && q.body.vy == JumpVelocity && q.jumpHoldTime == dt
  {
  }

  /** Coyote time over: an airborne player that is not jumping cannot start one, whatever is pressed. */
  lemma NoJumpAfterCoyoteWindow(p: PlayerData, dt: real, b: Buttons)
    requires p.coyoteTimeCounter <= dt && !p.isJumping
    ensures var q := Stepped(p, dt, false, b);
      !q.isJumping && q.body.vy == p.body.vy && q.coyoteTimeCounter == p.coyoteTimeCounter - dt
  {
  }

  /**
   * The short hop: releasing the button while still under the hold threshold
   * multiplies an upward velocity by the short-jump multiplier (-850 becomes
   * -425) and ends the jump.
   */
  lemma ShortHopHalvesRise(p: PlayerData, dt: real, b: Buttons)
    requires p.isJumping && !b.jump && p.body.vy < 0.0 && p.jumpHoldTime + dt < VariableJumpThreshold
    ensures var q := Stepped(p, dt, false, b);
      q.body.vy == p.body.vy * ShortJumpMultiplier && !q.isJumping
    ensures p.body.vy == JumpVelocity ==> Stepped(p, dt, false, b).body.vy == -425.0
  {
  }

  /** A release after the threshold leaves the velocity alone. */
  lemma LateReleaseKeepsRise(p: PlayerData, dt: real, b: Buttons)
    requires p.isJumping && !b.jump && p.body.vy < 0.0 && p.jumpHoldTime + dt >= VariableJumpThreshold
    ensures Stepped(p, dt, false, b).body.vy == p.body.vy
  {
  }

  /** Exclusive left or right input accelerates and faces that way, speed untouched; otherwise no acceleration and drag. */
  lemma SteeringRule(p: PlayerData, b: Buttons)
    ensures b.left && !b.right ==> Steered(p, b).body.ax == -HorizontalAcceleration && Steered(p, b).direction == -1
    ensures b.right && !b.left ==> Steered(p, b).body.ax == HorizontalAcceleration && Steered(p, b).direction == 1
    ensures b.left == b.right ==>
              Steered(p, b).body.ax == 0.0 && Abs(Steered(p, b).body.vx) <= Abs(p.body.vx)
              && Steered(p, b).direction == p.direction
    ensures Steered(p, b).body.vx == (if b.left == b.right then Dragged(p.body.vx) else p.body.vx)
  {
  }

  /**
   * Invincibility gating: a second hit straight after the first is ignored,
   * so two hits in one window apply one knockback.
   */
  lemma SecondHitIgnored(p: PlayerData)
    ensures p.isInvincible ==> Damaged(p) == (p, false)
    ensures !p.isInvincible ==>
              (Damaged(p).1 && Damaged(p).0.isInvincible
               && Damaged(p).0.invincibleTimer == InvincibilityTime
               && Damaged(p).0.body.vx == -(p.direction as real) * 200.0 && Damaged(p).0.body.vy == -300.0)
    ensures Damaged(Damaged(p).0) == (Damaged(p).0, false)
  {
  }

  /** The window stays open while time remains and closes at zero or below. */
  lemma InvincibilityExpires(p: PlayerData, dt: real)
    requires p.isInvincible
    ensures InvincibilityTicked(p, dt).invincibleTimer == p.invincibleTimer - dt
    ensures InvincibilityTicked(p, dt).isInvincible <==> p.invincibleTimer - dt > 0.0
  {
  }

  /** `reset` clears motion and jump state but keeps invincibility and facing. */
  lemma ResetKeepsInvincibility(p: PlayerData, x: real, y: real)
    ensures var q := ResetAt(p, x, y);
      q.body == Body(x, y, 0.0, 0.0, 0.0, 0.0) && !q.isGrounded && !q.isJumping
      && q.coyoteTimeCounter == 0.0 && q.jumpBufferCounter == 0.0 && q.jumpHoldTime == 0.0
      && q.isInvincible == p.isInvincible && q.invincibleTimer == p.invincibleTimer
      && q.direction == p.direction && q.jumpPressed == p.jumpPressed
  {
  }
}
