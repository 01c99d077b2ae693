# PlayerMovement: a verified model of a touch-driven motion controller

This project models the `PlayerMovement` component of a 2D game in Dafny.
The component turns one finger's touch gestures into three kinds of motion:

- **Continuous movement.** While the finger is held, the drag from where the
  touch began sets a move vector. Its length grows with the drag up to
  `maxMoveDistance` and then stays at 1. Each physics step turns it into a
  velocity of at most `moveSpeed`.
- **Jump.** A fast release that points into the upward cone jumps. The cone
  runs from `minUpwardAngle` to `180 - minUpwardAngle` degrees.
- **Dash.** Any other fast release dashes.

A release counts as fast when its elapsed time since the touch began, raised
to 0.001 when it is not positive, is at most `minFlickTime`. A jump ends in the physics step that finds the body back at or
below its take-off height. A dash ends when its coroutine resumes, `dashTime`
after the dash started.

The model has four modules:

- `Vectors` (vectors.dfy): plane vectors over the reals. The engine's
  `magnitude` and `atan2` angle are supplied as a `Geometry` value. The
  predicate `Sound` lists the facts about them that the proofs use.
- `Motion` (motion.dfy): the controller's fields as one `State` value. There is
  one pure transition function per thing the controller does: a touch sample
  (`TouchStep`), a frame of samples (`Touches`, `Update`), `CalculateMovement`,
  `DetectFlick`, `Jump`, the two halves of the `Dash` coroutine (`Dash`,
  `DashTimerElapsed`) and `FixedUpdate`. The predicate `Valid` is the
  invariant that every step keeps.
- `Properties` (properties.dfy): the lemmas that state what the controller
  promises.
- `Controller` (controller.dfy): the class `PlayerMovement`. Its fields are
  updated in place by methods that follow the source statement by statement.
  Each method is proved to change the fields exactly as its `Motion` function
  says, so every lemma in `Properties` also holds of the object.

## Model

| member | source | states |
|---|---|---|
| `Controller.PlayerMovement.constructor` | Assets/Scripts/PlayerMovement.cs:7-39 | the initial fields are `Motion.Initial` of the scene's body and the scene's serialized starting mode (line 8): the mode is that value, and the field initialisers give no tracked touch (`activeTouchId == -1`), not jumping, not dashing and no move vector; the invariant holds |
| `Controller.PlayerMovement.Update` | Assets/Scripts/PlayerMovement.cs:41-81 | handles the frame's touch samples in order (loop invariant: the fields equal the fold of `TouchStep` over the samples handled so far) and keeps the invariant |
| `Controller.PlayerMovement.HandleTouch` | Assets/Scripts/PlayerMovement.cs:47-79 | one iteration of the touch loop changes the fields exactly as `Motion.TouchStep` |
| `Controller.PlayerMovement.FixedUpdate` | Assets/Scripts/PlayerMovement.cs:108-128 | changes the fields exactly as `Motion.FixedUpdate` and keeps the invariant |
| `Controller.PlayerMovement.CalculateMovement` | Assets/Scripts/PlayerMovement.cs:130-145 | sets the move vector as `Motion.CalculateMovement`, changing nothing else |
| `Controller.PlayerMovement.DetectFlick` | Assets/Scripts/PlayerMovement.cs:147-180 | changes the fields exactly as `Motion.DetectFlick` |
| `Controller.PlayerMovement.Jump` | Assets/Scripts/PlayerMovement.cs:182-191 | changes the fields exactly as `Motion.Jump` |
| `Controller.PlayerMovement.Dash` | Assets/Scripts/PlayerMovement.cs:193-198 | the part of the dash coroutine before its wait, plus the handle that `StartCoroutine` stores at line 177: exactly `Motion.Dash` |
| `Controller.PlayerMovement.DashTimerElapsed` | Assets/Scripts/PlayerMovement.cs:200-204 | the coroutine's resumption: exactly `Motion.DashTimerElapsed`; keeps the invariant |
| `Motion.Initial` | Assets/Scripts/PlayerMovement.cs:7-39 | the initial state is valid and idle (`activeTouchId == -1`), neither jumping nor dashing, with no dash coroutine and no move vector; its mode is the serialized starting mode and its body the scene's |
| `Motion.Clamp01` | Assets/Scripts/PlayerMovement.cs:138 | the result lies in [0, 1]: 0 below 0, 1 above 1, and the input itself whenever the input already lies in [0, 1] |
| `Motion.SpeedMultiplier` | Assets/Scripts/PlayerMovement.cs:138 | the speed multiplier lies in [0, 1]. For a non-negative distance it is `distance / maxMoveDistance` below a positive `maxMoveDistance`, 1 at or beyond it, 1 for a zero `maxMoveDistance` and 0 for a negative one |
| `Motion.ElapsedTime` | Assets/Scripts/PlayerMovement.cs:149-150 | the elapsed time of a release is always positive: the real elapsed time when that is positive, otherwise 0.001 |
| `Vectors.Normalized` | Assets/Scripts/PlayerMovement.cs:137 | for a positive length, scaling the normalised vector back by the length gives the vector again; for a non-positive length the result is the zero vector |
| `Vectors.NormalizedIsUnit` | Assets/Scripts/PlayerMovement.cs:137 | normalising a non-zero vector by its length gives a vector of length 1, and the zero vector stays zero |
| `Properties.BeganStartsSessionOnlyWhenIdle` | Assets/Scripts/PlayerMovement.cs:49-57 | a `Began` sample starts a session only when `activeTouchId == -1`. It records the finger id, the position as both start and current position, and the time, and leaves everything else alone. While a session is tracked a `Began` sample changes nothing, even from the tracked finger |
| `Properties.ForeignTouchIsIgnored` | Assets/Scripts/PlayerMovement.cs:57 | a sample whose finger is not the tracked one, and that does not start a session, changes no state at all |
| `Properties.ReleaseEndsSession` | Assets/Scripts/PlayerMovement.cs:69-78 | ending or cancelling the tracked touch always leaves `activeTouchId == -1`, `isTouching == false` and a zero move vector. In Standing, Moving or Guarding the result is exactly that of `DetectFlick`. In any other mode the result is the state with the mode set to Standing and the session and move vector cleared; nothing else changes |
| `Properties.MoveVectorFollowsActiveDrag` | Assets/Scripts/PlayerMovement.cs:59-78 | the move vector changes only on a `Moved` sample of the tracked finger while neither jumping nor dashing, and then it becomes the move vector of the drag; or on the end of the tracked touch, and then it becomes zero |
| `Properties.MovedTracksDrag` | Assets/Scripts/PlayerMovement.cs:57-64 | a `Moved` sample of the tracked finger sets the current position to the sample's position. While neither jumping nor dashing it sets the move vector to the drag's move vector; otherwise the move vector stays. Nothing else changes |
| `Properties.HeldTouchChangesNothing` | Assets/Scripts/PlayerMovement.cs:49-68 | a `Stationary` sample of any finger, and a `Began` sample of the tracked finger, change nothing |
| `Properties.TouchStepKeepsHeight` | Assets/Scripts/PlayerMovement.cs:49-78 | a touch sample never changes the body's height; a jump it starts records that height as `startingJumpY`; a running jump keeps running with its take-off height |
| `Properties.TouchesKeepHeight` | Assets/Scripts/PlayerMovement.cs:45-80 | the same for a whole frame of touch samples (by induction on the samples) |
| `Properties.UpdateRecordsFrameHeight` | Assets/Scripts/PlayerMovement.cs:41-81 | after `Update` the body stands at the frame's height `y`, and a jump started during the frame takes off from `y` (line 186) |
| `Properties.MoveVectorBounds` | Assets/Scripts/PlayerMovement.cs:130-145 | the move vector is zero for a zero drag, is never longer than 1, and points in the drag's direction. For a positive `maxMoveDistance` its length is `distance / maxMoveDistance` below that distance and exactly 1 at or beyond it |
| `Properties.TouchStepKeepsMoveBounded` | Assets/Scripts/PlayerMovement.cs:57-78 | no touch sample makes the move vector longer than 1 |
| `Properties.TouchesKeepMoveBounded` | Assets/Scripts/PlayerMovement.cs:45-80 | no frame of touch samples makes the move vector longer than 1 (by induction on the samples) |
| `Properties.DragSpeedIsCapped` | Assets/Scripts/PlayerMovement.cs:110-114 | the velocity a physics step sets from a move vector of length at most 1 is never faster than a non-negative `moveSpeed` |
| `Properties.SlowFlickChangesNothing` | Assets/Scripts/PlayerMovement.cs:149-156 | a release whose elapsed time, after clamping, is greater than `minFlickTime` changes nothing: no jump, no dash, and the mode and both flags stay as they were |
| `Properties.FlickStartsAtMostOne` | Assets/Scripts/PlayerMovement.cs:147-179 | call a release fast when its clamped elapsed time is at most `minFlickTime`, and upward when the swipe's angle lies in [`minUpwardAngle`, `180 - minUpwardAngle`]. A fast upward release with no jump running is exactly `Jump` along the normalised swipe. A fast release that is not upward, with no dash running, is exactly `Dash` along the normalised swipe. Every other release changes nothing. A jump starts iff fast, upward and not jumping; a dash iff fast, not upward and not dashing; never both; one impulse exactly when one starts |
| `Properties.UpwardConeIsAboveTheAxis` | Assets/Scripts/PlayerMovement.cs:161-162 | the upward test is symmetric about straight up (angle `a` is upward iff `180 - a` is). For a positive `minUpwardAngle`, a swipe that does not point above the x axis is never upward |
| `Properties.TapDashesWithZeroImpulse` | Assets/Scripts/PlayerMovement.cs:158-177 | a fast release with no drag, a positive `minUpwardAngle` and no dash running starts a dash along the zero vector, so its impulse is zero |
| `Properties.JumpEffect` | Assets/Scripts/PlayerMovement.cs:182-191 | a jump sets Jumping and `isJumping`, records the current height as `startingJumpY`, sets the gravity scale to `gravity` and applies the impulse `(flick.x * jumpForce, jumpForce)`; the body's velocity and height and every other field stay as they were |
| `Properties.JumpIgnoresFlickHeight` | Assets/Scripts/PlayerMovement.cs:190 | two flicks with the same horizontal component give the same jump: the flick's vertical component has no effect |
| `Properties.DashEffect` | Assets/Scripts/PlayerMovement.cs:193-198 | a dash sets Dashing and `isDashing`, applies the impulse `direction * dashForce` and schedules its end `dashTime` later; the body's velocity, gravity scale and height, and every other field, stay as they were, so a dash leaves a running jump's gravity alone. For a non-zero swipe and a non-negative `dashForce` the impulse is exactly `dashForce` long |
| `Properties.DashLastsDashTime` | Assets/Scripts/PlayerMovement.cs:193-204 | a dash started at time `t` is still running at any resumption before `t + dashTime` and over at any resumption from then on. Its end clears the coroutine handle and leaves the mode at Dashing |
| `Properties.DashTimerFiresOnce` | Assets/Scripts/PlayerMovement.cs:200-204 | the coroutine's resumption changes only `isDashing` and the handle, never the mode, and once it has fired a later resumption changes nothing |
| `Properties.FixedUpdatePriority` | Assets/Scripts/PlayerMovement.cs:108-128 | a physics step follows this priority. A non-zero move vector sets Moving and the velocity `moveDirection * moveSpeed`. Otherwise a jump back at or below `startingJumpY` lands: gravity becomes 0, the height is pinned to `startingJumpY` and `isJumping` is cleared. Otherwise a body that is not dashing is stopped. A dash in progress is left alone |
| `Properties.JumpLandsAtLaunchHeight` | Assets/Scripts/PlayerMovement.cs:115-123 | in a valid state a jump ends in a physics step exactly when the height is at or below `startingJumpY`. It then stands exactly at that height with gravity 0 and its velocity untouched, and the mode is not reset |
| `Properties.AirborneIgnoresDrag` | Assets/Scripts/PlayerMovement.cs:62-63 | in a valid state, while jumping or dashing, the physics step sets neither the velocity nor the mode, and touch samples keep the move vector zero |
| `Properties.JumpModeOutlivesLanding` | Assets/Scripts/PlayerMovement.cs:115-122 | after a jump lands the mode is still Jumping, so a release sample directly after landing of the tracked touch only sets Standing: no new jump, no impulse |
| `Properties.DragAfterLandingResumesMoving` | Assets/Scripts/PlayerMovement.cs:59-114 | after a landing has left the mode at Jumping (not jumping, not dashing), a `Moved` sample of the tracked finger away from where it began, with a positive `maxMoveDistance`, gives a non-zero move vector, and the next physics step sets Moving |
| `Properties.JumpLandsAtTakeOffHeight` | Assets/Scripts/PlayerMovement.cs:115-122 | a jump started from a valid state that is neither jumping nor dashing lands on the next physics step when the body is still at its take-off height: `isJumping` is cleared, gravity is 0 and the height stays |
| `Properties.TouchStepKeepsValid` | Assets/Scripts/PlayerMovement.cs:49-78 | a touch sample keeps the invariant. A touch is tracked exactly when `activeTouchId != -1`; a dash coroutine runs exactly while dashing; there is no move vector while jumping or dashing |
| `Properties.TouchesKeepValid` | Assets/Scripts/PlayerMovement.cs:45-80 | every frame of touch samples keeps the invariant (by induction on the samples) |
| `Properties.UpdateKeepsValid` | Assets/Scripts/PlayerMovement.cs:41-81 | `Update` keeps the invariant |
| `Properties.PhysicsKeepsValid` | Assets/Scripts/PlayerMovement.cs:108-128 | the physics step and the dash coroutine's resumption keep the invariant |
| `Properties.TouchStepProducesOwnModes` | Assets/Scripts/PlayerMovement.cs:69-78 | a touch sample that changes the mode sets it to Standing, Moving, Jumping or Dashing |
| `Properties.TouchesProduceOwnModes` | Assets/Scripts/PlayerMovement.cs:45-80 | no frame of touch samples ever enters Guarding, Parrying or Attacking (by induction on the samples) |
| `Properties.PhysicsOnlyEntersMoving` | Assets/Scripts/PlayerMovement.cs:108-128 | the only mode the physics step ever enters is Moving |
| `Properties.UpwardFlickScenario` | Assets/Scripts/PlayerMovement.cs:147-191 | with `minFlickTime` 0.3 and `minUpwardAngle` 45, releasing a drag of (0, 100) after 0.05 s while Standing and not jumping starts a jump with impulse (0, jumpForce) |
| `Properties.SidewaysFlickScenario` | Assets/Scripts/PlayerMovement.cs:147-198 | under the same settings, releasing a drag of (100, 0) after 0.05 s while Standing and not dashing starts a dash with impulse (dashForce, 0) |
| `Properties.SlowDragScenario` | Assets/Scripts/PlayerMovement.cs:147-156 | with `minFlickTime` 0.3, releasing a drag of (50, 50) after 1 s neither jumps nor dashes, and it leaves the mode and the body as they were |

## Behaviour kept as the code has it

- Ending a jump (line 121) and ending a dash (lines 202-203) do not return the
  mode to Standing. The mode keeps its value until the next release, or until
  a physics step sees a non-zero move vector and sets Moving. A release
  directly after landing therefore only sets Standing
  (`Properties.JumpModeOutlivesLanding`), while a drag after landing requests
  movement again, because line 62 tests `isJumping` and not the mode
  (`Properties.DragAfterLandingResumesMoving`). A too-slow release leaves the
  mode as it was, so Moving stays Moving; it does not fall back to Standing.
- The landing test at line 117 uses `<=`, so a jump whose next physics step
  still finds the body at its take-off height lands at once
  (`Properties.JumpLandsAtTakeOffHeight`).
- A fast tap without a drag has the angle of the zero vector, 0 degrees. For a
  positive `minUpwardAngle` it is not upward, so it starts a dash whose impulse
  is zero (`Properties.TapDashesWithZeroImpulse`), and drags are ignored until
  the dash ends `dashTime` later.
- A jump and a dash can be running at the same time. Releasing in the
  Jumping or Dashing mode resets the mode to Standing without classifying the
  gesture, and the next release is then classified normally while the other
  sub-state is still running.
- A zero `maxMoveDistance` gives a speed multiplier of 1. This is what
  `Clamp01` makes of a positive distance divided by zero in single precision.
  A negative `maxMoveDistance` gives 0, so a drag then requests no movement
  (`Motion.SpeedMultiplier`).
- `currentAction` is a serialized field without an initialiser, so its
  starting value is whatever the scene holds; the model takes it as the
  parameter `mode` of `Motion.Initial` and of the constructor.

## Left out

- Touch input polling (`Input.touchCount`, `Input.GetTouch`) is replaced by
  the sequence of a frame's touch samples passed to `Update`. `Time.time` is
  the parameter `now`, and the body's height `transform.position.y` is the
  parameter `y` of `Update` and `FixedUpdate`.
- Finger ids are non-negative (`nat`), as the engine hands them out. A sample
  carrying id -1 would be mistaken for the tracked finger while idle. That case
  is not modelled.
- The physics engine is not modelled. Impulses are recorded in order in
  `Rigidbody.impulses` and never change the velocity. Gravity is not
  simulated, and only the height of the body's position is kept. The velocity
  and gravity scale are the last values the controller commanded.
- Single-precision arithmetic is not modelled. All quantities are reals.
  `magnitude` and the `atan2` angle are supplied functions that satisfy
  `Vectors.Sound`. `Vector2.normalized` returns zero for lengths up to 1e-5;
  the model does so only for length 0. `Vector2`'s approximate `!=` at line
  110 is exact equality here.
- Coroutine scheduling is replaced by an explicit resumption event,
  `DashTimerElapsed(now)`. The wait is over once `now` reaches the start time
  plus `dashTime`. Frame granularity and time scaling are the engine's and are
  not modelled.
- `OnDrawGizmos` (lines 206-223), the `Debug.Log` calls, `showDebugGizmos`
  and the commented-out mouse block (lines 83-105) have no behavioural effect
  and are not modelled.
- `isGrounded` (line 39) and `swipeSpeed` (line 159) are never read and are
  not modelled.
