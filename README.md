# Platformer frame step, modelled in Dafny

A model of the per-frame simulation of a small canvas platformer (`game.js`).
Each frame the player rectangle takes the held keys (left, right, up), falls
under gravity, slows by friction and is clamped to the 450×440 canvas. It is
then tested against four platforms (a static floor and three patrolling
ledges) by an axis-aligned bounding-box test. That test pushes the player out
along the axis of smaller penetration and reports the side the platform is
on. Each platform then takes one patrol step and turns around at the canvas
edges. Last, a win message is shown the first time the player's box overlaps
the target's box.

Layout:

- `aabb.dfy`, module `Aabb`: boxes, the strict-overlap test and `Check`, the
  collision test with its resolution, as a pure function with its properties.
- `physics.dfy`, module `Physics`: the frame as functions on values, one per
  phase in source order (`ApplyInput`, `Integrate`, `GroundedReset`,
  `ClampToCanvas`, `Contact`/`Pass`, `Patrol`, `WinCheck`), composed by `Step`.
  `Run` folds `Step` over a sequence of frames.
- `properties.dfy`, module `Properties`: lemmas about those functions. They
  cover input, clamp bounds, the grounded flag, patrol bounds over any number
  of frames and the one-shot win message.
- `platformer.dfy`, module `Platformer`: the game state as objects updated in
  place. Class `Player` has the player's fields. Class `Game` has the player,
  an array of platforms, the target and the message flag. `CheckCollision`
  mutates its player argument as the source does. `Game.Update` is one frame.
  `Play` is the host's frame loop. Every method that steps the simulation is
  proved to leave the objects in the state the matching `Physics` function
  computes. `Game.DisplayMessage` is proved to add one to the message call
  counter.

Positions and velocities are exact `real`s: 0.5, 0.8, 5, 450 and 440 are exact
there.

## Model

| member | source | states |
|---|---|---|
| `Aabb.Check` | game.js:157-190 | No collision exactly when the boxes do not strictly overlap, and then the box is unchanged. Size never changes. Horizontal resolution iff x-penetration < y-penetration (ties go vertical). Exactly one coordinate moves, by the smaller penetration. Left/Top iff the obstacle's centre is left of/above the player's, with the push away from it. The result no longer overlaps the obstacle. |
| `Aabb.CentreTestIsEdgeTest` | game.js:158-166 | The centre-distance test is equivalent to the four half-plane test used for the win check. |
| `Aabb.ResolvedPairIsApart` | game.js:167-186 | Re-running the test on the resolved box against the same obstacle returns no collision and moves nothing. |
| `Aabb.ResolvedAxisTouches` | game.js:167-186 | After resolution, the centre distance on the resolved axis equals the half-extent sum exactly. |
| `Aabb.ZeroOffsetResolution` | game.js:170-186 | Coinciding centres on the resolved axis give Right (horizontal) or Bottom (vertical). |
| `Physics.ApplyInput` | game.js:64-70 | Right sets +speed and overrides left. Left alone sets −speed. No key keeps the velocity. A jump fires iff up is held, the player is grounded and not already jumping. It sets jumping, clears grounded and sets velocityY to −2·speed. Otherwise the flags and velocityY are untouched. |
| `Physics.ClampToCanvas` | game.js:82-99 | For a player that fits the canvas, the result lies within [0, 450−width]×[0, 440−height]. An out-of-range coordinate goes to the edge it crossed (0, 450−width or 440−height) and an in-range coordinate stays put. A player already inside is unchanged. A horizontal clamp zeroes velocityX and the top clamp zeroes velocityY. Passing the bottom edge grounds the player and clears jumping, but keeps velocityY. |
| `Physics.Contact` | game.js:104-113 | One platform's test and its effect. The player's box becomes exactly the box `Check` resolves (one-axis minimal push). No overlap: nothing changes. Afterwards there is no overlap. Left/Right zero velocityX. Bottom sets grounded and clears jumping. Top negates velocityY. Only Bottom touches the flags. |
| `Physics.Pass` | game.js:101-113 | The pass over all platforms keeps the player's size and speed, and leaves the player clear of the last platform met. |
| `Physics.Directions` | game.js:102-104 | A helper recording the direction the test returns, one per platform in loop order. Its contract states only the length; what the directions mean is proved in `PassGrounded` and `PassMisses`. |
| `Physics.Integrate` | game.js:72-75 | Gravity is added to velocityY before the move. The position advances by the pre-friction velocityX and the post-gravity velocityY. velocityX is then damped to 0.8 of its value. Size, speed and flags are untouched (see also `FrictionDecay`, `HeldKeyVelocity`, `JumpTakeoff`). |
| `Physics.GroundedReset` | game.js:77-80 | A player grounded at this point loses its vertical velocity and its jump; an ungrounded one is unchanged (see also `GroundedStartStops`). |
| `Physics.Patrol` | game.js:115-119 | x advances by velocityX. y, width and height are unchanged. velocityX only changes sign (magnitude kept). For a moving platform it flips exactly when the new x ≤ 0 or the new x + width ≥ 450. |
| `Physics.PatrolAll` | game.js:102-119 | Every platform takes one patrol step and none is added or removed. |
| `Physics.WinCheck` | game.js:145-152 | The message flag becomes true iff it was true or the player's box strictly overlaps the target. The call counter rises by one exactly when the flag goes false→true. Once shown, nothing changes. Player, platforms and target are untouched. |
| `Physics.InitialPlatforms` | game.js:35-40 | Four platforms: the 450×50 static floor at y = 400 first, then a staircase of 100×10 ledges at x = 100·i, y = 400 − 100·i, with the drawn speeds v1, v2, v3. |
| `Physics.Initial` | game.js:10-42 | The player starts at (50, 350), 32×32, speed 5, at rest, neither jumping nor grounded. The platforms are `InitialPlatforms`, the target is the 32×32 box at (10, 10) and the message is not shown. |
| `Physics.Run` | game.js:154-155 | The frames driven by the host one after another. No frames leave the world unchanged. Any number of frames keeps the target and the number of platforms. |
| `Physics.Step` | game.js:63-155 | One frame keeps the target and the number of platforms, and moves each platform by exactly one patrol step. |
| `Properties.JumpTakeoff` | game.js:66-72 | A jump leaves velocityY = −2·speed + gravity after integration, jumping set and grounded cleared. |
| `Properties.FrictionDecay` | game.js:72-75 | With no direction key held, velocityX becomes 0.8 times its previous value. |
| `Properties.HeldKeyVelocity` | game.js:64-75 | With a direction key held, velocityX becomes 0.8·speed in that direction, right winning. |
| `Properties.GroundedStartStops` | game.js:77-80 | A player grounded at frame start that does not jump enters the clamp with velocityY 0 and not jumping. |
| `Properties.ClampedBeforePass` | game.js:83-99 | Immediately after the border clamp, 0 ≤ x ≤ 450 − width and 0 ≤ y ≤ 440 − height. |
| `Properties.PlatformPushesThroughWall` | game.js:101-113 | The clamp bound does not survive the platform pass. A concrete frame exists where a player inside the canvas after the clamp is pushed to x = 438 > 418 by a patrolling platform. |
| `Properties.PassSnoc` | game.js:102-113 | Meeting one more platform after xs is one more contact after the pass over xs. |
| `Properties.PassAppend` | game.js:102-113 | Meeting platforms xs and then ys is the same as meeting xs + ys. |
| `Properties.PassMisses` | game.js:102-113 | Platforms that do not overlap the player leave it unchanged and all report no collision. |
| `Properties.PassGrounded` | game.js:101-113 | Starting ungrounded, the pass ends grounded iff some platform's test returned Bottom, and then the player is not jumping. |
| `Properties.StepGrounded` | game.js:95-113 | In a whole frame, grounded is decided by the platform pass alone. Whatever the bottom-edge clamp set is overwritten. |
| `Properties.FloorIsStatic` | game.js:36 | The floor's zero velocity is flipped every frame but stays zero, so the floor never moves. |
| `Properties.StaysOnFloor` | game.js:63-120 | A player at rest on the floor, with no key held and no other platform low enough to touch it, ends the frame at rest on the floor and grounded. |
| `Properties.PatrolKeepsRoaming` | game.js:116-119 | A moving platform that is at most one step past an edge, heading back, keeps that property after a patrol step. |
| `Properties.RoamingOvershoot` | game.js:116-119 | Such a platform overshoots either canvas edge by less than one step. |
| `Properties.RunRoaming` | game.js:115-119 | Over any sequence of frames, a roaming platform keeps roaming with the same y, size and speed magnitude. |
| `Properties.WinFires` | game.js:146-152 | Before the message is shown, a frame shows it iff the player ends the frame overlapping the target. |
| `Properties.StepLatch` | game.js:146-152 | One frame keeps the counter equal to the flag (0 or 1) and never clears the flag. It sets the flag only when the player overlaps the target, and keeps the target. |
| `Properties.RunLatch` | game.js:146-154 | Over any sequence of frames the message is shown at most once, the flag never returns to false and the target never changes. |
| `Properties.InitialWorldIsSound` | game.js:10-42 | The initial world has the player inside the canvas, the message not shown, the floor first and static, and each of the three drawn speeds in [1,3) giving a roaming platform. |
| `Platformer.Player.constructor` | game.js:10-20 | The player starts at (50, 350), 32×32, speed 5, at rest, neither jumping nor grounded. |
| `Platformer.Player.ApplyInput` | game.js:64-70 | The in-place input step leaves the player in the state `Physics.ApplyInput` computes. |
| `Platformer.Player.Integrate` | game.js:72-75 | The in-place gravity, motion and friction step matches `Physics.Integrate`. |
| `Platformer.Player.GroundedReset` | game.js:77-80 | The in-place grounded reset matches `Physics.GroundedReset`. |
| `Platformer.Player.ClampToCanvas` | game.js:82-99 | The in-place border clamp matches `Physics.ClampToCanvas`. |
| `Platformer.Player.Collide` | game.js:104-113 | The test against one platform plus its effect on velocity and flags matches `Physics.Contact`. |
| `Platformer.CheckCollision` | game.js:157-190 | Returns `Check`'s direction and moves the player object's x or y to `Check`'s resolved box. Every other field is unchanged. |
| `Platformer.Game.constructor` | game.js:10-42 | The game starts in `Physics.Initial` for the given patrol speeds, with the message not shown. |
| `Platformer.Game.DisplayMessage` | game.js:192-206 | Each call adds one to the count of messages shown. |
| `Platformer.Game.MovePlatform` | game.js:115-119 | Platform i takes one patrol step in place and no other platform changes. |
| `Platformer.Game.PlatformPass` | game.js:101-120 | The loop leaves the player in the state `Physics.Pass` computes over the old platforms, and each platform patrolled in place. |
| `Platformer.Game.Update` | game.js:63-155 | One frame transforms the whole game state exactly as `Physics.Step`. It keeps the invariant that the message count equals the flag (0 or 1). |
| `Platformer.Play` | game.js:154-155 | Running any sequence of frames gives `Physics.Run`'s state, and the message is shown at most once. |

## Notes on the code's behaviour

- The bottom-edge clamp (game.js:95-99) grounds the player and clears
  `jumping`. Unlike the other three edges, it zeroes no velocity component.
  The model follows the code.
- `grounded` is cleared right after the clamp (game.js:101). So a player
  grounded only by the bottom edge, and touching no platform, ends the frame
  ungrounded (`StepGrounded`).
- The player is inside the canvas only immediately after the clamp. The
  platform pass can push it through a wall (`PlatformPushesThroughWall`).
- A platform's velocity flips whenever its moved position is at or past an
  edge, even if it is already heading back. From the initial layout this never
  traps a platform: `RunRoaming` shows it stays within one step of the canvas.

## Left out

- Canvas and DOM setup (game.js:1-5): browser plumbing. The canvas size is
  the constants `CanvasWidth` and `CanvasHeight`.
- Keyboard and touch listeners (game.js:44-61). The key flags are a `Keys`
  value passed to each frame.
- Rendering (game.js:122-143): drawing side effects only.
- The DOM construction inside `displayMessage` (game.js:192-206). It is
  modelled as a counter of calls (`messagesShown`). The message text is not
  modelled.
- `requestAnimationFrame` self-scheduling (game.js:154, 208). It is modelled
  as `Play`/`Run` over a finite sequence of frames. The endless loop itself
  is not modelled.
- `Math.random` platform speeds (game.js:37-39). They are constructor
  parameters with 1 ≤ v < 3.
- IEEE-754 floating point. All arithmetic is exact over the reals, so no
  rounding and no negative zero. In particular, friction is exact
  multiplication by 0.8.
- Platforms are records stored in an array and replaced element by element.
  The source's in-place field update on a platform object is modelled this way
  because no other reference to a platform object exists.
