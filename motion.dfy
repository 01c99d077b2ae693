/**
 * The state of the `PlayerMovement` controller as a value, and one pure
 * transition function per thing the controller does: a touch sample in
 * `Update`, the release classification `DetectFlick`, `CalculateMovement`,
 * `Jump`, the two halves of the `Dash` coroutine and `FixedUpdate`. The class
 * in module Controller is proved to change its fields exactly as these say.
 */
module Motion {
  import opened Vectors

  datatype Option<+T> = None | Some(value: T)

  /** The actor's movement mode. */
  datatype Movement = Standing | Moving | Jumping | Dashing | Guarding | Parrying | Attacking

  datatype TouchPhase = Began | Moved | Stationary | Ended | Canceled

  /** One touch sample of a frame. Finger ids handed out by the engine are never negative. */
  datatype Touch = Touch(fingerId: nat, phase: TouchPhase, position: Vec2)

  /** The tunable settings; the controller never changes them. */
  datatype Settings = Settings(
    moveSpeed: real,
    maxMoveDistance: real,
    minFlickTime: real,
    gravity: real,
    jumpForce: real,
    minUpwardAngle: real,
    dashForce: real,
    dashTime: real)

  /**
   * What the controller commands of the physics body: the velocity it last
   * set, the gravity scale, every impulse it has applied (oldest first), and
   * the body's height, which the engine supplies each frame and which the end
   * of a jump pins.
   */
  datatype Rigidbody = Rigidbody(linearVelocity: Vec2, gravityScale: real, impulses: seq<Vec2>, y: real)

  /** The running dash coroutine, which resumes once the game time reaches `due`. */
  datatype DashTimer = DashTimer(due: real)

  datatype State = State(
    // the single tracked touch
    activeTouchId: int,
    isTouching: bool,
    touchStartPosition: Vec2,
    currentTouchPosition: Vec2,
    touchStartTime: real,
    // continuous movement requested by the drag
    moveDirection: Vec2,
    // movement mode and its sub-states
    currentAction: Movement,
    isJumping: bool,
    startingJumpY: real,
    isDashing: bool,
    dashCoroutine: Option<DashTimer>,
    playerRb: Rigidbody)

  /** The value of `activeTouchId` while no touch is tracked. */
  const NoTouch := -1

  /** The elapsed time a release uses when no time has passed since its touch began. */
  const MinElapsed := 0.001

  /**
   * The state of a freshly loaded controller: the field initialisers give the
   * touch session and the sub-states, and the scene supplies the body and the
   * serialized starting mode.
   */
  function Initial(rb: Rigidbody, mode: Movement): (s: State)
    ensures Valid(s) && !s.isTouching && s.activeTouchId == NoTouch
    ensures !s.isJumping && !s.isDashing && s.dashCoroutine == None
    ensures s.currentAction == mode && s.playerRb == rb && s.moveDirection == Zero
  {
    State(NoTouch, false, Zero, Zero, 0.0, Zero, mode, false, 0.0, false, None, rb)
  }

  /**
   * The invariant every step keeps: a touch is tracked exactly when
   * `activeTouchId` is not the sentinel, a dash coroutine runs exactly while
   * dashing, and no continuous movement is requested while jumping or dashing.
   */
  ghost predicate Valid(s: State) {
    && s.activeTouchId >= NoTouch
    && (s.isTouching <==> s.activeTouchId != NoTouch)
    && (s.isDashing <==> s.dashCoroutine.Some?)
    && ((s.isJumping || s.isDashing) ==> s.moveDirection == Zero)
  }

  // ---------------------------------------------------------------- drag

  /** `Mathf.Clamp01`. */
  function Clamp01(x: real): (r: real)
    ensures 0.0 <= r <= 1.0
    ensures x < 0.0 ==> r == 0.0
    ensures 0.0 <= x <= 1.0 ==> r == x
    ensures x > 1.0 ==> r == 1.0
  {
    if x < 0.0 then 0.0 else if x > 1.0 then 1.0 else x
  }

  /**
   * `Clamp01(distance / maxMoveDistance)` for a positive distance. In single
   * precision a zero `maxMoveDistance` makes the quotient +infinity, which
   * clamps to 1.
   */
  function SpeedMultiplier(distance: real, maxMoveDistance: real): (r: real)
    ensures 0.0 <= r <= 1.0
    ensures maxMoveDistance == 0.0 ==> r == 1.0
    ensures maxMoveDistance < 0.0 && distance >= 0.0 ==> r == 0.0
    ensures 0.0 < maxMoveDistance <= distance ==> r == 1.0
    ensures 0.0 <= distance < maxMoveDistance ==> r == distance / maxMoveDistance
  {
    if maxMoveDistance == 0.0 then 1.0 else Clamp01(distance / maxMoveDistance)
  }

  /** The move vector for a drag `offset` whose length is `distance`. */
  function MoveVector(offset: Vec2, distance: real, maxMoveDistance: real): Vec2 {
    if distance > 0.0 then
      Scale(Normalized(offset, distance), SpeedMultiplier(distance, maxMoveDistance))
    else
      Zero
  }

  /** `CalculateMovement`: the move vector of the drag so far. */
  function CalculateMovement(s: State, cfg: Settings, g: Geometry): State {
    var offset := Sub(s.currentTouchPosition, s.touchStartPosition);
    s.(moveDirection := MoveVector(offset, g.magnitude(offset), cfg.maxMoveDistance))
  }

  // ---------------------------------------------------------------- release

  /** The modes in which releasing the touch classifies the gesture. */
  predicate AcceptsFlick(m: Movement) {
    m == Standing || m == Moving || m == Guarding
  }

  /** The time since the touch began, with a non-positive time replaced by `MinElapsed`. */
  function ElapsedTime(s: State, now: real): (dt: real)
    ensures dt > 0.0
    ensures now - s.touchStartTime > 0.0 ==> dt == now - s.touchStartTime
    ensures now - s.touchStartTime <= 0.0 ==> dt == MinElapsed
  {
    var dt := now - s.touchStartTime;
    if dt <= 0.0 then MinElapsed else dt
  }

  /** A flick angle in degrees lies in the cone around straight up. */
  predicate IsUpwardFlick(angle: real, minUpwardAngle: real) {
    minUpwardAngle <= angle <= 180.0 - minUpwardAngle
  }

  /** `Jump`: take off from the current height with a fixed upward kick. */
  function Jump(s: State, flickDirection: Vec2, cfg: Settings): State {
    s.(currentAction := Jumping,
       isJumping := true,
       startingJumpY := s.playerRb.y,
       playerRb := s.playerRb.(
         gravityScale := cfg.gravity,
         impulses := s.playerRb.impulses + [Scale(Vec2(flickDirection.x, 1.0), cfg.jumpForce)]))
  }

  /** The part of the `Dash` coroutine that runs when it is started at time `now`. */
  function Dash(s: State, flickDirection: Vec2, cfg: Settings, now: real): State {
    s.(currentAction := Dashing,
       isDashing := true,
       dashCoroutine := Some(DashTimer(now + cfg.dashTime)),
       playerRb := s.playerRb.(impulses := s.playerRb.impulses + [Scale(flickDirection, cfg.dashForce)]))
  }

  /** `DetectFlick`: a fast upward release jumps, any other fast release dashes. */
  function DetectFlick(s: State, cfg: Settings, g: Geometry, now: real): State {
    if ElapsedTime(s, now) > cfg.minFlickTime then
      s
    else
      var swipe := Sub(s.currentTouchPosition, s.touchStartPosition);
      var direction := Normalized(swipe, g.magnitude(swipe));
      if IsUpwardFlick(g.angleDeg(swipe), cfg.minUpwardAngle) then
        if !s.isJumping then Jump(s, direction, cfg) else s
      else
        if !s.isDashing then Dash(s, direction, cfg, now) else s
  }

  /** The end or cancellation of the tracked touch. */
  function Release(s: State, cfg: Settings, g: Geometry, now: real): State {
    var s' := if AcceptsFlick(s.currentAction) then DetectFlick(s, cfg, g, now) else s.(currentAction := Standing);
    s'.(isTouching := false, activeTouchId := NoTouch, moveDirection := Zero)
  }

  // ---------------------------------------------------------------- Update

  /** The body of the touch loop in `Update`, for one touch sample at game time `now`. */
  function TouchStep(s: State, t: Touch, cfg: Settings, g: Geometry, now: real): State {
    if t.phase == Began && s.activeTouchId == NoTouch then
      s.(activeTouchId := t.fingerId,
         touchStartPosition := t.position,
         currentTouchPosition := t.position,
         touchStartTime := now,
         isTouching := true)
    else if t.fingerId == s.activeTouchId then
      match t.phase
      case Moved =>
        var s' := s.(currentTouchPosition := t.position);
        if !s'.isJumping && !s'.isDashing then CalculateMovement(s', cfg, g) else s'
      case Ended | Canceled => Release(s, cfg, g, now)
      case _ => s
    else
      s
  }

  /** The touch samples of one frame, handled in order. */
  function Touches(s: State, ts: seq<Touch>, cfg: Settings, g: Geometry, now: real): State
    decreases |ts|
  {
    if ts == [] then s
    else TouchStep(Touches(s, ts[..|ts| - 1], cfg, g, now), ts[|ts| - 1], cfg, g, now)
  }

  /** `Update`: one frame of touch samples, the body standing at height `y`. */
  function Update(s: State, ts: seq<Touch>, cfg: Settings, g: Geometry, now: real, y: real): State {
    Touches(s.(playerRb := s.playerRb.(y := y)), ts, cfg, g, now)
  }

  // ---------------------------------------------------------------- physics

  /** `FixedUpdate`, the body standing at height `y`. */
  function FixedUpdate(s: State, cfg: Settings, y: real): State {
    var rb := s.playerRb.(y := y);
    if s.moveDirection != Zero then
      s.(currentAction := Moving, playerRb := rb.(linearVelocity := Scale(s.moveDirection, cfg.moveSpeed)))
    else if s.isJumping then
      if y <= s.startingJumpY then
        s.(isJumping := false, playerRb := rb.(gravityScale := 0.0, y := s.startingJumpY))
      else
        s.(playerRb := rb)
    else if !s.isDashing then
      s.(playerRb := rb.(linearVelocity := Zero))
    else
      s.(playerRb := rb)
  }

  /** The dash coroutine resuming at game time `now`, if its wait is over. */
  function DashTimerElapsed(s: State, now: real): State {
    match s.dashCoroutine
    case Some(timer) =>
      if now >= timer.due then s.(dashCoroutine := None, isDashing := false) else s
    case None => s
  }
}
