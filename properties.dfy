/**
 * What the controller promises, stated over the transition functions of
 * module Motion: the single-touch session rules, the release classification,
 * the bounds on continuous movement, the jump and dash effects, the priority
 * of the physics step, and the invariant that every step keeps.
 */
module Properties {
  import opened Vectors
  import opened Motion

  // ---------------------------------------------------------------- touch session

  /**
   * A `Began` sample starts a session only while none is tracked, recording
   * the finger, its position as both start and current position, and the
   * time; while a session is tracked it changes nothing, even for the tracked
   * finger itself.
   */
  lemma BeganStartsSessionOnlyWhenIdle(s: State, t: Touch, cfg: Settings, g: Geometry, now: real)
    requires t.phase == Began
    ensures var r := TouchStep(s, t, cfg, g, now);
      && (s.activeTouchId == NoTouch ==>
            && r.activeTouchId == t.fingerId && r.isTouching
            && r.touchStartPosition == t.position && r.currentTouchPosition == t.position
            && r.touchStartTime == now
            && r.(activeTouchId := s.activeTouchId, isTouching := s.isTouching,
                  touchStartPosition := s.touchStartPosition,
                  currentTouchPosition := s.currentTouchPosition,
                  touchStartTime := s.touchStartTime) == s)
      && (s.activeTouchId != NoTouch ==> r == s)
  {
  }

  /** A sample of any finger other than the tracked one, unless it starts a session, changes nothing. */
  lemma ForeignTouchIsIgnored(s: State, t: Touch, cfg: Settings, g: Geometry, now: real)
    requires t.fingerId != s.activeTouchId
    requires !(t.phase == Began && s.activeTouchId == NoTouch)
    ensures TouchStep(s, t, cfg, g, now) == s
  {
  }

  /**
   * Ending or cancelling the tracked touch always clears the session and the
   * move vector. In a mode that accepts flicks the gesture is classified; in
   * any other mode the mode falls back to Standing and neither a jump nor a
   * dash starts.
   */
  lemma ReleaseEndsSession(s: State, t: Touch, cfg: Settings, g: Geometry, now: real)
    requires t.fingerId == s.activeTouchId
    requires t.phase == Ended || t.phase == Canceled
    ensures var r := TouchStep(s, t, cfg, g, now);
      && r.activeTouchId == NoTouch && !r.isTouching && r.moveDirection == Zero
      && r.touchStartPosition == s.touchStartPosition
      && r.currentTouchPosition == s.currentTouchPosition
      && (s.currentAction in {Standing, Moving, Guarding} ==>
            var d := DetectFlick(s, cfg, g, now);
            r == d.(activeTouchId := NoTouch, isTouching := false, moveDirection := Zero))
      && (s.currentAction !in {Standing, Moving, Guarding} ==>
            r == s.(currentAction := Standing, isTouching := false, activeTouchId := NoTouch, moveDirection := Zero))
  {
  }

  /**
   * The move vector changes only when the tracked finger moves while neither
   * jumping nor dashing (it then becomes the move vector of the drag), or when
   * the tracked touch ends (it then becomes zero).
   */
  lemma MoveVectorFollowsActiveDrag(s: State, t: Touch, cfg: Settings, g: Geometry, now: real)
    ensures var r := TouchStep(s, t, cfg, g, now);
      r.moveDirection != s.moveDirection ==>
        && t.fingerId == s.activeTouchId
        && ((t.phase == Moved && !s.isJumping && !s.isDashing
             && r.moveDirection == MoveVector(Sub(t.position, s.touchStartPosition),
                                               g.magnitude(Sub(t.position, s.touchStartPosition)),
                                               cfg.maxMoveDistance))
            || ((t.phase == Ended || t.phase == Canceled) && r.moveDirection == Zero))
  {
  }

  /**
   * A `Moved` sample of the tracked finger records its position as the
   * current position. While neither jumping nor dashing it sets the move
   * vector to that of the drag from where the touch began; otherwise it leaves
   * the move vector alone. Nothing else changes.
   */
  lemma MovedTracksDrag(s: State, t: Touch, cfg: Settings, g: Geometry, now: real)
    requires t.fingerId == s.activeTouchId && t.phase == Moved
    ensures var r := TouchStep(s, t, cfg, g, now);
      var drag := Sub(t.position, s.touchStartPosition);
      && r.currentTouchPosition == t.position
      && (!s.isJumping && !s.isDashing ==>
            r.moveDirection == MoveVector(drag, g.magnitude(drag), cfg.maxMoveDistance))
      && (s.isJumping || s.isDashing ==> r.moveDirection == s.moveDirection)
      && r.(currentTouchPosition := s.currentTouchPosition, moveDirection := s.moveDirection) == s
  {
  }

  /**
   * A `Stationary` sample changes nothing, whichever finger it comes from, and
   * so does a `Began` sample of the tracked finger.
   */
  lemma HeldTouchChangesNothing(s: State, t: Touch, cfg: Settings, g: Geometry, now: real)
    requires t.phase == Stationary || (t.phase == Began && t.fingerId == s.activeTouchId)
    ensures TouchStep(s, t, cfg, g, now) == s
  {
  }

  /**
   * A touch sample never changes the body's height. A jump it starts takes
   * off from that height, and a jump already running keeps its take-off
   * height.
   */
  lemma TouchStepKeepsHeight(s: State, t: Touch, cfg: Settings, g: Geometry, now: real)
    ensures var r := TouchStep(s, t, cfg, g, now);
      && r.playerRb.y == s.playerRb.y
      && (s.isJumping ==> r.isJumping && r.startingJumpY == s.startingJumpY)
      && (!s.isJumping && r.isJumping ==> r.startingJumpY == s.playerRb.y)
  {
  }

  /** The same holds for a whole frame of touch samples. */
  lemma {:induction false} TouchesKeepHeight(s: State, ts: seq<Touch>, cfg: Settings, g: Geometry, now: real)
    ensures var r := Touches(s, ts, cfg, g, now);
      && r.playerRb.y == s.playerRb.y
      && (s.isJumping ==> r.isJumping && r.startingJumpY == s.startingJumpY)
      && (!s.isJumping && r.isJumping ==> r.startingJumpY == s.playerRb.y)
    decreases |ts|
  {
    if ts != [] {
      TouchesKeepHeight(s, ts[..|ts| - 1], cfg, g, now);
      TouchStepKeepsHeight(Touches(s, ts[..|ts| - 1], cfg, g, now), ts[|ts| - 1], cfg, g, now);
    }
  }

  /**
   * A frame of `Update` leaves the body at the frame's height `y`, and a jump
   * started during the frame takes off from that height.
   */
  lemma UpdateRecordsFrameHeight(s: State, ts: seq<Touch>, cfg: Settings, g: Geometry, now: real, y: real)
    ensures var r := Update(s, ts, cfg, g, now, y);
      && r.playerRb.y == y
      && (!s.isJumping && r.isJumping ==> r.startingJumpY == y)
  {
    TouchesKeepHeight(s.(playerRb := s.playerRb.(y := y)), ts, cfg, g, now);
  }

  // ---------------------------------------------------------------- drag

  /**
   * The move vector of a drag has the drag's direction and a length that
   * grows linearly with the drag up to `maxMoveDistance` and is 1 beyond it;
   * it is never longer than 1 and is zero for no drag.
   */
  lemma MoveVectorBounds(g: Geometry, offset: Vec2, maxMoveDistance: real)
    requires Sound(g)
    ensures var d := g.magnitude(offset);
      var r := MoveVector(offset, d, maxMoveDistance);
      && (offset == Zero ==> r == Zero)
      && 0.0 <= g.magnitude(r) <= 1.0
      && (offset != Zero ==> r == Scale(Normalized(offset, d), g.magnitude(r)))
      && (offset != Zero && maxMoveDistance > 0.0 && d >= maxMoveDistance ==> g.magnitude(r) == 1.0)
      && (offset != Zero && maxMoveDistance > 0.0 && d < maxMoveDistance ==> g.magnitude(r) == d / maxMoveDistance)
  {
    var d := g.magnitude(offset);
    NormalizedIsUnit(g, offset);
    if offset != Zero {
      var n := Normalized(offset, d);
      var k := SpeedMultiplier(d, maxMoveDistance);
      assert g.magnitude(Scale(n, k)) == k * g.magnitude(n);
    }
  }

  /** While the geometry is sound, a touch sample never makes the move vector longer than 1. */
  lemma TouchStepKeepsMoveBounded(s: State, t: Touch, cfg: Settings, g: Geometry, now: real)
    requires Sound(g) && g.magnitude(s.moveDirection) <= 1.0
    ensures g.magnitude(TouchStep(s, t, cfg, g, now).moveDirection) <= 1.0
  {
    var r := TouchStep(s, t, cfg, g, now);
    if r.moveDirection != s.moveDirection {
      MoveVectorFollowsActiveDrag(s, t, cfg, g, now);
      if t.phase == Moved {
        MoveVectorBounds(g, Sub(t.position, s.touchStartPosition), cfg.maxMoveDistance);
      }
    }
  }

  /** A whole frame of touch samples never makes the move vector longer than 1. */
  lemma {:induction false} TouchesKeepMoveBounded(s: State, ts: seq<Touch>, cfg: Settings, g: Geometry, now: real)
    requires Sound(g) && g.magnitude(s.moveDirection) <= 1.0
    ensures g.magnitude(Touches(s, ts, cfg, g, now).moveDirection) <= 1.0
    decreases |ts|
  {
    if ts != [] {
      TouchesKeepMoveBounded(s, ts[..|ts| - 1], cfg, g, now);
      TouchStepKeepsMoveBounded(Touches(s, ts[..|ts| - 1], cfg, g, now), ts[|ts| - 1], cfg, g, now);
    }
  }

  /** Scaling a vector no longer than 1 by a non-negative factor gives one no longer than the factor. */
  lemma ScaleAtMost(g: Geometry, v: Vec2, k: real)
    requires Sound(g) && k >= 0.0 && g.magnitude(v) <= 1.0
    ensures g.magnitude(Scale(v, k)) <= k
  {
    assert g.magnitude(Scale(v, k)) == k * g.magnitude(v);
    assert k * g.magnitude(v) <= k * 1.0;
  }

  /**
   * The velocity the physics step commands from a drag is never faster than
   * `moveSpeed`.
   */
  lemma DragSpeedIsCapped(s: State, cfg: Settings, g: Geometry, y: real)
    requires Sound(g) && cfg.moveSpeed >= 0.0 && g.magnitude(s.moveDirection) <= 1.0
    requires s.moveDirection != Zero
    ensures g.magnitude(FixedUpdate(s, cfg, y).playerRb.linearVelocity) <= cfg.moveSpeed
  {
    ScaleAtMost(g, s.moveDirection, cfg.moveSpeed);
  }

  // ---------------------------------------------------------------- flick

  /** A release held longer than `minFlickTime` changes nothing at all. */
  lemma SlowFlickChangesNothing(s: State, cfg: Settings, g: Geometry, now: real)
    requires ElapsedTime(s, now) > cfg.minFlickTime
    ensures DetectFlick(s, cfg, g, now) == s
  {
  }

  ghost predicate JumpStarted(s: State, r: State) {
    !s.isJumping && r.isJumping
  }

  ghost predicate DashStarted(s: State, r: State) {
    !s.isDashing && r.isDashing
  }

  /**
   * A release is fast when its elapsed time, after clamping, is at most
   * `minFlickTime`, and upward when the angle of the swipe lies in the cone
   * from `minUpwardAngle` to `180 - minUpwardAngle` degrees. A fast upward
   * release jumps along the normalised swipe unless a jump is running; a fast
   * release in any other direction dashes along it unless a dash is running;
   * in every other case nothing changes. So a release never starts both, and
   * applies an impulse exactly when it starts one.
   */
  lemma FlickStartsAtMostOne(s: State, cfg: Settings, g: Geometry, now: real)
    ensures var r := DetectFlick(s, cfg, g, now);
      var swipe := Sub(s.currentTouchPosition, s.touchStartPosition);
      var fast := ElapsedTime(s, now) <= cfg.minFlickTime;
      var angle := g.angleDeg(swipe);
      var up := angle >= cfg.minUpwardAngle && angle <= 180.0 - cfg.minUpwardAngle;
      var direction := Normalized(swipe, g.magnitude(swipe));
      && (fast && up && !s.isJumping ==> r == Jump(s, direction, cfg))
      && (fast && !up && !s.isDashing ==> r == Dash(s, direction, cfg, now))
      && (!(fast && up && !s.isJumping) && !(fast && !up && !s.isDashing) ==> r == s)
      && (JumpStarted(s, r) <==> fast && up && !s.isJumping)
      && (DashStarted(s, r) <==> fast && !up && !s.isDashing)
      && !(JumpStarted(s, r) && DashStarted(s, r))
      && |r.playerRb.impulses| == |s.playerRb.impulses| + (if JumpStarted(s, r) || DashStarted(s, r) then 1 else 0)
  {
  }

  /**
   * The upward cone is symmetric about straight up, and a flick that does not
   * point above the x axis is never upward when `minUpwardAngle` is positive.
   */
  lemma UpwardConeIsAboveTheAxis(g: Geometry, swipe: Vec2, minUpwardAngle: real)
    requires Sound(g) && minUpwardAngle > 0.0
    ensures forall a: real :: IsUpwardFlick(a, minUpwardAngle) <==> IsUpwardFlick(180.0 - a, minUpwardAngle)
    ensures swipe.y <= 0.0 ==> !IsUpwardFlick(g.angleDeg(swipe), minUpwardAngle)
  {
  }

  /**
   * A fast tap without any drag has the angle of the zero vector, 0 degrees,
   * so for a positive `minUpwardAngle` it is not upward: unless a dash is
   * running it starts one whose impulse is zero.
   */
  lemma TapDashesWithZeroImpulse(s: State, cfg: Settings, g: Geometry, now: real)
    requires Sound(g) && cfg.minUpwardAngle > 0.0
    requires s.currentTouchPosition == s.touchStartPosition
    requires ElapsedTime(s, now) <= cfg.minFlickTime && !s.isDashing
    ensures var r := DetectFlick(s, cfg, g, now);
      && r == Dash(s, Zero, cfg, now)
      && r.isDashing && r.playerRb.impulses == s.playerRb.impulses + [Zero]
  {
    assert Sub(s.currentTouchPosition, s.touchStartPosition) == Zero;
    assert g.angleDeg(Zero) == 0.0;
  }

  // ---------------------------------------------------------------- jump and dash

  /**
   * A jump takes off from the current height with gravity switched on and an
   * impulse whose vertical part is always `jumpForce` and whose horizontal
   * part follows the flick; nothing else changes.
   */
  lemma JumpEffect(s: State, flickDirection: Vec2, cfg: Settings)
    ensures var r := Jump(s, flickDirection, cfg);
      && r.currentAction == Jumping && r.isJumping
      && r.startingJumpY == s.playerRb.y
      && r.playerRb == s.playerRb.(gravityScale := cfg.gravity,
                                   impulses := s.playerRb.impulses + [Vec2(flickDirection.x * cfg.jumpForce, cfg.jumpForce)])
      && r.(currentAction := s.currentAction, isJumping := s.isJumping,
            startingJumpY := s.startingJumpY, playerRb := s.playerRb) == s
  {
    assert Scale(Vec2(flickDirection.x, 1.0), cfg.jumpForce) == Vec2(flickDirection.x * cfg.jumpForce, cfg.jumpForce);
  }

  /** The vertical part of the flick has no effect on a jump. */
  lemma JumpIgnoresFlickHeight(s: State, d1: Vec2, d2: Vec2, cfg: Settings)
    requires d1.x == d2.x
    ensures Jump(s, d1, cfg) == Jump(s, d2, cfg)
  {
  }

  /**
   * Starting a dash at time `now` applies the impulse `dashForce` times the
   * flick direction and schedules its end `dashTime` later; nothing else
   * changes. With a non-negative `dashForce` and a non-zero swipe the impulse
   * is exactly `dashForce` long.
   */
  lemma DashEffect(s: State, g: Geometry, swipe: Vec2, cfg: Settings, now: real)
    requires Sound(g)
    ensures var direction := Normalized(swipe, g.magnitude(swipe));
      var r := Dash(s, direction, cfg, now);
      && r.currentAction == Dashing && r.isDashing
      && r.dashCoroutine == Some(DashTimer(now + cfg.dashTime))
      && r.playerRb == s.playerRb.(impulses := s.playerRb.impulses + [Scale(direction, cfg.dashForce)])
      && r.(currentAction := s.currentAction, isDashing := s.isDashing,
            dashCoroutine := s.dashCoroutine, playerRb := s.playerRb) == s
      && (swipe != Zero && cfg.dashForce >= 0.0 ==> g.magnitude(Scale(direction, cfg.dashForce)) == cfg.dashForce)
  {
    NormalizedIsUnit(g, swipe);
    var direction := Normalized(swipe, g.magnitude(swipe));
    if swipe != Zero && cfg.dashForce >= 0.0 {
      assert g.magnitude(Scale(direction, cfg.dashForce)) == cfg.dashForce * g.magnitude(direction);
    }
  }

  /**
   * A dash started at `start` is still running at any later resumption
   * strictly before `start + dashTime` and over at any one from then on.
   * Ending it clears only the flag and the coroutine handle: the mode stays
   * Dashing.
   */
  lemma DashLastsDashTime(s: State, direction: Vec2, cfg: Settings, start: real, now: real)
    ensures var r := DashTimerElapsed(Dash(s, direction, cfg, start), now);
      && (r.isDashing <==> now < start + cfg.dashTime)
      && (!r.isDashing ==> r.dashCoroutine == None)
      && r.currentAction == Dashing
  {
  }

  /**
   * The dash coroutine never changes the mode, and once it has ended the dash
   * it cannot fire again.
   */
  lemma DashTimerFiresOnce(s: State, now: real, later: real)
    ensures var r := DashTimerElapsed(s, now);
      && r.currentAction == s.currentAction
      && (r != s ==> !r.isDashing && r.dashCoroutine == None && DashTimerElapsed(r, later) == r)
      && r.(isDashing := s.isDashing, dashCoroutine := s.dashCoroutine) == s
  {
  }

  // ---------------------------------------------------------------- physics step

  /**
   * The physics step obeys a strict priority: a requested move sets Moving
   * and the velocity; otherwise a jump that is back at or below its launch
   * height lands (gravity off, height pinned, jump over); otherwise a body
   * that is not dashing stops; and a dash in progress is left alone.
   */
  lemma FixedUpdatePriority(s: State, cfg: Settings, y: real)
    ensures var r := FixedUpdate(s, cfg, y);
      && (s.moveDirection != Zero ==>
            r == s.(currentAction := Moving,
                    playerRb := s.playerRb.(y := y, linearVelocity := Scale(s.moveDirection, cfg.moveSpeed))))
      && (s.moveDirection == Zero && s.isJumping && y <= s.startingJumpY ==>
            r == s.(isJumping := false, playerRb := s.playerRb.(gravityScale := 0.0, y := s.startingJumpY)))
      && (s.moveDirection == Zero && s.isJumping && y > s.startingJumpY ==>
            r == s.(playerRb := s.playerRb.(y := y)))
      && (s.moveDirection == Zero && !s.isJumping && !s.isDashing ==>
            r == s.(playerRb := s.playerRb.(y := y, linearVelocity := Zero)))
      && (s.moveDirection == Zero && !s.isJumping && s.isDashing ==>
            r == s.(playerRb := s.playerRb.(y := y)))
  {
  }

  /**
   * In a valid state a jump ends in the physics step exactly when the body is
   * back at or below its launch height; it then stands exactly at that height
   * with gravity off and its velocity untouched, and the mode is left as it was.
   */
  lemma JumpLandsAtLaunchHeight(s: State, cfg: Settings, y: real)
    requires Valid(s) && s.isJumping
    ensures var r := FixedUpdate(s, cfg, y);
      && (!r.isJumping <==> y <= s.startingJumpY)
      && (!r.isJumping ==>
            && r.playerRb.y == s.startingJumpY && r.playerRb.gravityScale == 0.0
            && r.playerRb.linearVelocity == s.playerRb.linearVelocity)
      && r.currentAction == s.currentAction
  {
  }

  /**
   * In a valid state the drag has no effect while jumping or dashing: the
   * physics step neither sets the velocity nor the mode, and touch samples
   * keep the move vector zero.
   */
  lemma AirborneIgnoresDrag(s: State, t: Touch, cfg: Settings, g: Geometry, now: real, y: real)
    requires Valid(s) && (s.isJumping || s.isDashing)
    ensures var r := FixedUpdate(s, cfg, y);
      r.playerRb.linearVelocity == s.playerRb.linearVelocity && r.currentAction == s.currentAction
    ensures TouchStep(s, t, cfg, g, now).moveDirection == Zero
  {
  }

  /**
   * The mode a jump leaves behind outlives the jump: after landing it is
   * still Jumping, so a release directly after landing only falls back to
   * Standing and does not classify the gesture, whatever its speed and
   * direction.
   */
  lemma JumpModeOutlivesLanding(s: State, cfg: Settings, g: Geometry, y: real, t: Touch, now: real)
    requires Valid(s) && s.isJumping && s.currentAction == Jumping && y <= s.startingJumpY
    requires t.fingerId == s.activeTouchId && t.phase == Ended
    ensures var landed := FixedUpdate(s, cfg, y);
      var r := TouchStep(landed, t, cfg, g, now);
      && !landed.isJumping && landed.currentAction == Jumping
      && r.currentAction == Standing && !r.isJumping
      && r.playerRb.impulses == s.playerRb.impulses
  {
  }

  /**
   * Landing and the mode are independent: after a landing has left the mode
   * at Jumping, a drag of the tracked finger away from where it began
   * requests movement again, and the next physics step sets Moving.
   */
  lemma DragAfterLandingResumesMoving(s: State, t: Touch, cfg: Settings, g: Geometry, now: real, y: real)
    requires Sound(g) && Valid(s) && cfg.maxMoveDistance > 0.0
    requires s.currentAction == Jumping && !s.isJumping && !s.isDashing
    requires t.fingerId == s.activeTouchId && t.phase == Moved && t.position != s.touchStartPosition
    ensures var m := TouchStep(s, t, cfg, g, now);
      m.moveDirection != Zero && FixedUpdate(m, cfg, y).currentAction == Moving
  {
    var drag := Sub(t.position, s.touchStartPosition);
    MoveVectorBounds(g, drag, cfg.maxMoveDistance);
    var d := g.magnitude(drag);
    var k := SpeedMultiplier(d, cfg.maxMoveDistance);
    assert k > 0.0;
    NormalizedIsUnit(g, drag);
    assert g.magnitude(Scale(Normalized(drag, d), k)) == k * g.magnitude(Normalized(drag, d));
  }

  /**
   * The landing test uses `<=`: a jump whose next physics step still finds
   * the body at its take-off height lands at once.
   */
  lemma JumpLandsAtTakeOffHeight(s: State, direction: Vec2, cfg: Settings)
    requires Valid(s) && !s.isJumping && !s.isDashing
    ensures var r := FixedUpdate(Jump(s.(moveDirection := Zero), direction, cfg), cfg, s.playerRb.y);
      && !r.isJumping && r.playerRb.gravityScale == 0.0 && r.playerRb.y == s.playerRb.y
  {
  }

  // ---------------------------------------------------------------- invariant

  lemma TouchStepKeepsValid(s: State, t: Touch, cfg: Settings, g: Geometry, now: real)
    requires Valid(s)
    ensures Valid(TouchStep(s, t, cfg, g, now))
  {
  }

  /** Every frame of touch samples keeps the invariant. */
  lemma {:induction false} TouchesKeepValid(s: State, ts: seq<Touch>, cfg: Settings, g: Geometry, now: real)
    requires Valid(s)
    ensures Valid(Touches(s, ts, cfg, g, now))
    decreases |ts|
  {
    if ts != [] {
      TouchesKeepValid(s, ts[..|ts| - 1], cfg, g, now);
      TouchStepKeepsValid(Touches(s, ts[..|ts| - 1], cfg, g, now), ts[|ts| - 1], cfg, g, now);
    }
  }

  /** A frame of `Update` keeps the invariant. */
  lemma UpdateKeepsValid(s: State, ts: seq<Touch>, cfg: Settings, g: Geometry, now: real, y: real)
    requires Valid(s)
    ensures Valid(Update(s, ts, cfg, g, now, y))
  {
    TouchesKeepValid(s.(playerRb := s.playerRb.(y := y)), ts, cfg, g, now);
  }

  /** The physics step and the dash coroutine keep the invariant. */
  lemma PhysicsKeepsValid(s: State, cfg: Settings, y: real, now: real)
    requires Valid(s)
    ensures Valid(FixedUpdate(s, cfg, y))
    ensures Valid(DashTimerElapsed(s, now))
  {
  }

  /** The mode a touch sample sets is always one of Standing, Moving, Jumping and Dashing. */
  lemma TouchStepProducesOwnModes(s: State, t: Touch, cfg: Settings, g: Geometry, now: real)
    ensures var r := TouchStep(s, t, cfg, g, now);
      r.currentAction != s.currentAction ==>
        r.currentAction in {Standing, Moving, Jumping, Dashing}
  {
  }

  /**
   * Guarding, Parrying and Attacking are never entered by a frame of touch
   * samples: only other components set them.
   */
  lemma {:induction false} TouchesProduceOwnModes(s: State, ts: seq<Touch>, cfg: Settings, g: Geometry, now: real)
    ensures var r := Touches(s, ts, cfg, g, now);
      r.currentAction != s.currentAction ==> r.currentAction in {Standing, Moving, Jumping, Dashing}
    decreases |ts|
  {
    if ts != [] {
      var prefix := Touches(s, ts[..|ts| - 1], cfg, g, now);
      TouchesProduceOwnModes(s, ts[..|ts| - 1], cfg, g, now);
      TouchStepProducesOwnModes(prefix, ts[|ts| - 1], cfg, g, now);
    }
  }

  /** The only mode the physics step ever enters is Moving. */
  lemma PhysicsOnlyEntersMoving(s: State, cfg: Settings, y: real)
    ensures var r := FixedUpdate(s, cfg, y);
      r.currentAction != s.currentAction ==> r.currentAction == Moving
  {
  }

  // ---------------------------------------------------------------- scenarios

  /**
   * A drag of (0, 100) released after 0.05 s with `minFlickTime` 0.3 and
   * `minUpwardAngle` 45 from a standing, non-jumping actor jumps straight up
   * with impulse (0, jumpForce).
   */
  lemma UpwardFlickScenario(s: State, t: Touch, cfg: Settings, g: Geometry)
    requires Sound(g)
    requires cfg.minFlickTime == 0.3 && cfg.minUpwardAngle == 45.0
    requires Sub(s.currentTouchPosition, s.touchStartPosition) == Vec2(0.0, 100.0)
    requires s.currentAction == Standing && !s.isJumping
    requires t.fingerId == s.activeTouchId && t.phase == Ended
    ensures var r := TouchStep(s, t, cfg, g, s.touchStartTime + 0.05);
      && r.currentAction == Jumping && r.isJumping
      && r.playerRb.impulses == s.playerRb.impulses + [Vec2(0.0, cfg.jumpForce)]
  {
    var swipe := Vec2(0.0, 100.0);
    assert g.angleDeg(swipe) == 90.0;
  }

  /**
   * A drag of (100, 0) released after 0.05 s under the same settings from a
   * standing, non-dashing actor dashes with impulse (dashForce, 0).
   */
  lemma SidewaysFlickScenario(s: State, t: Touch, cfg: Settings, g: Geometry)
    requires Sound(g)
    requires cfg.minFlickTime == 0.3 && cfg.minUpwardAngle == 45.0
    requires Sub(s.currentTouchPosition, s.touchStartPosition) == Vec2(100.0, 0.0)
    requires s.currentAction == Standing && !s.isDashing
    requires t.fingerId == s.activeTouchId && t.phase == Ended
    ensures var r := TouchStep(s, t, cfg, g, s.touchStartTime + 0.05);
      && r.currentAction == Dashing && r.isDashing
      && r.playerRb.impulses == s.playerRb.impulses + [Vec2(cfg.dashForce, 0.0)]
  {
    var swipe := Vec2(100.0, 0.0);
    assert g.angleDeg(swipe) == 0.0;
    SwipeAlongXNormalizes(g);
    var d := Dash(s, Vec2(1.0, 0.0), cfg, s.touchStartTime + 0.05);
    assert Scale(Vec2(1.0, 0.0), cfg.dashForce) == Vec2(cfg.dashForce, 0.0);
    assert DetectFlick(s, cfg, g, s.touchStartTime + 0.05) == d;
  }

  /** The swipe (100, 0) normalises to the unit vector along the x axis. */
  lemma SwipeAlongXNormalizes(g: Geometry)
    requires Sound(g)
    ensures Normalized(Vec2(100.0, 0.0), g.magnitude(Vec2(100.0, 0.0))) == Vec2(1.0, 0.0)
  {
    assert g.magnitude(Vec2(100.0, 0.0)) == 100.0;
    assert Scale(Vec2(100.0, 0.0), 1.0 / 100.0) == Vec2(1.0, 0.0);
  }

  /**
   * A drag of (50, 50) held for 1 s with `minFlickTime` 0.3 neither jumps nor
   * dashes; the release leaves the mode as it was.
   */
  lemma SlowDragScenario(s: State, t: Touch, cfg: Settings, g: Geometry)
    requires cfg.minFlickTime == 0.3
    requires Sub(s.currentTouchPosition, s.touchStartPosition) == Vec2(50.0, 50.0)
    requires AcceptsFlick(s.currentAction)
    requires t.fingerId == s.activeTouchId && t.phase == Ended
    ensures var r := TouchStep(s, t, cfg, g, s.touchStartTime + 1.0);
      && r.currentAction == s.currentAction
      && r.isJumping == s.isJumping && r.isDashing == s.isDashing
      && r.playerRb == s.playerRb
      && !r.isTouching
  {
  }
}
