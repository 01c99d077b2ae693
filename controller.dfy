/**
 * The `PlayerMovement` component as the object it is: its fields are updated
 * in place by `Update` (once per frame, over that frame's touch samples),
 * `FixedUpdate` (once per physics step) and the dash coroutine. Each method
 * changes the fields exactly as the matching function of module Motion says,
 * so every property proved in module Properties holds of the object.
 */
module Controller {
  import opened Vectors
  import opened Motion
  import Properties

  class PlayerMovement {
    const settings: Settings
    /** The engine's `magnitude` and `atan2`. */
    const geometry: Geometry

    var playerRb: Rigidbody
    var currentAction: Movement

    var isJumping: bool
    var startingJumpY: real

    var isDashing: bool
    var dashCoroutine: Option<DashTimer>

    var touchStartPosition: Vec2
    var currentTouchPosition: Vec2
    var isTouching: bool
    var activeTouchId: int
    var touchStartTime: real

    var moveDirection: Vec2

    /** The fields as one value. */
    ghost function Snapshot(): State
      reads this
    {
      State(activeTouchId, isTouching, touchStartPosition, currentTouchPosition, touchStartTime,
            moveDirection, currentAction, isJumping, startingJumpY, isDashing, dashCoroutine, playerRb)
    }

    ghost predicate Valid()
      reads this
    {
      Motion.Valid(Snapshot())
    }

    /** `mode` is the starting mode the scene serializes for `currentAction`. */
    constructor (settings: Settings, geometry: Geometry, body: Rigidbody, mode: Movement)
      ensures this.settings == settings && this.geometry == geometry
      ensures Snapshot() == Initial(body, mode) && Valid()
    {
      this.settings := settings;
      this.geometry := geometry;
      playerRb := body;
      currentAction := mode;
      isJumping := false;
      startingJumpY := 0.0;
      isDashing := false;
      dashCoroutine := None;
      touchStartPosition := Zero;
      currentTouchPosition := Zero;
      isTouching := false;
      activeTouchId := NoTouch;
      touchStartTime := 0.0;
      moveDirection := Zero;
    }

    /**
     * One frame: `touches` are the frame's samples in the order the engine
     * reports them, `now` the game time and `y` the body's height.
     */
    method Update(touches: seq<Touch>, now: real, y: real)
      modifies this
      ensures Snapshot() == Motion.Update(old(Snapshot()), touches, settings, geometry, now, y)
      ensures old(Valid()) ==> Valid()
    {
      playerRb := playerRb.(y := y);
      ghost var start := Snapshot();
      if |touches| > 0 {
        var i := 0;
        while i < |touches|
          invariant 0 <= i <= |touches|
          invariant Snapshot() == Touches(start, touches[..i], settings, geometry, now)
        {
          HandleTouch(touches[i], now);
          assert touches[..i + 1][..i] == touches[..i];
          i := i + 1;
        }
        assert touches[..i] == touches;
      }
      if old(Valid()) {
        Properties.UpdateKeepsValid(old(Snapshot()), touches, settings, geometry, now, y);
      }
    }

    /** The body of the touch loop of `Update`, for one sample at game time `now`. */
    method HandleTouch(touch: Touch, now: real)
      modifies this
      ensures Snapshot() == TouchStep(old(Snapshot()), touch, settings, geometry, now)
    {
      if touch.phase == Began && activeTouchId == NoTouch {
        activeTouchId := touch.fingerId;
        touchStartPosition := touch.position;
        currentTouchPosition := touch.position;
        touchStartTime := now;
        isTouching := true;
      } else if touch.fingerId == activeTouchId {
        if touch.phase == Moved {
          currentTouchPosition := touch.position;
          if !isJumping && !isDashing {
            CalculateMovement();
          }
        } else if touch.phase == Stationary {
        } else if touch.phase == Ended || touch.phase == Canceled {
          if currentAction == Standing || currentAction == Moving || currentAction == Guarding {
            DetectFlick(now);
          } else {
            currentAction := Standing;
          }
          isTouching := false;
          activeTouchId := NoTouch;
          moveDirection := Zero;
        }
      }
    }

    /** One physics step, the body standing at height `y`. */
    method FixedUpdate(y: real)
      modifies this
      ensures Snapshot() == Motion.FixedUpdate(old(Snapshot()), settings, y)
      ensures old(Valid()) ==> Valid()
    {
      ghost var s := Snapshot();
      playerRb := playerRb.(y := y);
      if moveDirection != Zero {
        currentAction := Moving;
        playerRb := playerRb.(linearVelocity := Scale(moveDirection, settings.moveSpeed));
      } else if isJumping {
        if playerRb.y <= startingJumpY {
          playerRb := playerRb.(gravityScale := 0.0);
          playerRb := playerRb.(y := startingJumpY);
          isJumping := false;
        }
      } else if !isDashing {
        playerRb := playerRb.(linearVelocity := Zero);
      }
      if Motion.Valid(s) {
        Properties.PhysicsKeepsValid(s, settings, y, 0.0);
      }
    }

    method CalculateMovement()
      modifies this
      ensures Snapshot() == Motion.CalculateMovement(old(Snapshot()), settings, geometry)
    {
      var offset := Sub(currentTouchPosition, touchStartPosition);
      var distance := geometry.magnitude(offset);
      if distance > 0.0 {
        moveDirection := Normalized(offset, distance);
        var speedMultiplier := SpeedMultiplier(distance, settings.maxMoveDistance);
        moveDirection := Scale(moveDirection, speedMultiplier);
      } else {
        moveDirection := Zero;
      }
    }

    /** Classifies the release of the tracked touch at game time `now`. */
    method DetectFlick(now: real)
      modifies this
      ensures Snapshot() == Motion.DetectFlick(old(Snapshot()), settings, geometry, now)
    {
      var timeDelta := now - touchStartTime;
      if timeDelta <= 0.0 {
        timeDelta := MinElapsed;
      }
      if timeDelta > settings.minFlickTime {
        return;
      }
      var swipeVector := Sub(currentTouchPosition, touchStartPosition);
      var angle := geometry.angleDeg(swipeVector);
      var isUpwardFlick := angle >= settings.minUpwardAngle && angle <= 180.0 - settings.minUpwardAngle;
      if isUpwardFlick {
        if !isJumping {
          Jump(Normalized(swipeVector, geometry.magnitude(swipeVector)));
        }
      } else {
        if !isDashing {
          Dash(Normalized(swipeVector, geometry.magnitude(swipeVector)), now);
        }
      }
    }

    method Jump(flickDirection: Vec2)
      modifies this
      ensures Snapshot() == Motion.Jump(old(Snapshot()), flickDirection, settings)
    {
      currentAction := Jumping;
      isJumping := true;
      startingJumpY := playerRb.y;
      playerRb := playerRb.(gravityScale := settings.gravity);
      playerRb := playerRb.(impulses := playerRb.impulses + [Scale(Vec2(flickDirection.x, 1.0), settings.jumpForce)]);
    }

    /**
     * Starts the dash coroutine at game time `now`: the part before its wait,
     * and the handle of the wait, which ends `dashTime` later.
     */
    method Dash(flickDirection: Vec2, now: real)
      modifies this
      ensures Snapshot() == Motion.Dash(old(Snapshot()), flickDirection, settings, now)
    {
      currentAction := Dashing;
      isDashing := true;
      playerRb := playerRb.(impulses := playerRb.impulses + [Scale(flickDirection, settings.dashForce)]);
      dashCoroutine := Some(DashTimer(now + settings.dashTime));
    }

    /** The dash coroutine's chance to resume at game time `now`: the part after its wait. */
    method DashTimerElapsed(now: real)
      modifies this
      ensures Snapshot() == Motion.DashTimerElapsed(old(Snapshot()), now)
      ensures old(Valid()) ==> Valid()
    {
      ghost var s := Snapshot();
      if dashCoroutine.Some? && now >= dashCoroutine.value.due {
        dashCoroutine := None;
        isDashing := false;
      }
      if Motion.Valid(s) {
        Properties.PhysicsKeepsValid(s, settings, 0.0, now);
      }
    }
  }
}
