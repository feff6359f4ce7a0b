# Guided navigation of the 3D portfolio, in Dafny

The portfolio page (`public/js/three-portfolio.js`) is a small driving game. A
car moves around a hub with billboards. Two actions decide who moves the car:

- The visitor steers by hand, with the keyboard or the on-screen buttons.
- The autopilot drives the car to a billboard, either for one route button or
  for a tour along a fixed list of stops.

This project models the controller that arbitrates between the two. It covers:

- **The guards.** `driving` suspends manual physics while the autopilot owns
  the car. `tourRunning` refuses a second tour.
- **The waypoint resolver.** It finds a billboard by case-insensitive title.
  The title `redes` names the hub at the origin.
- **The drive animator.** Its entry checks run in this order: no car, then
  reduced motion (an instant jump), then busy. The animator also computes the
  clamped duration and stop backoff, stores a cancel closure, and runs one
  frame per step until the drive settles as `canceled` or `done`.
- **The tour sequencer.** `startTourFrom` builds the stops from the
  `STOP_ORDER` template, retrying resolution while nothing resolves, and then
  drives them in auto-advance or single-step mode. `continueSequence` and
  `cancelDrive` complete it.
- **The manual side.** `updatePhysics` is the integrator that the guard
  suspends. `mapKeyToBtnId` and `handleKey` feed it.

Modules, one file each:

- `Wrappers` holds `Option`.
- `Geometry` holds points over `real`, the quadratic Bézier and `easeInOutCubic`.
- `Text` holds ASCII lower-casing.
- `Waypoints` holds the resolver.
- `Drive` holds the duration and backoff clamps, the drive plan and the frame
  progress.
- `Tour` holds the template, the bounded retry and the kept stops.
- `Physics` holds the integrator and the reduced-motion jump.
- `Input` holds the key mapping.
- `Navigation` holds the stateful controller, class `NavController`.
- `Scenarios` holds two concrete runs of the controller.

## How the asynchronous parts appear

The model has no clock and no concurrency. Each async part becomes an explicit
input or step:

- **Frames.** Each `requestAnimationFrame` callback is one method call that
  receives the frame's timestamp. `StepDrive` is the drive's `step`;
  `StepArrival` is its arrival pulse.
- **Drive sessions.** Every `driveToPosition` call that passes its guards
  becomes a `DriveSession`. The session holds its own captured `cancelled`
  flag. `currentDriveCancel` is the index of the session whose closure is
  stored.
- **The invariant `Valid()`.** At most one session owns the car, meaning it is
  still running and not cancelled. `driving` is true exactly when the stored
  session owns the car.
- **Tours.** A tour is one call. `world(k)` is the billboard list seen by
  resolution round `k`. `outcome(k)` is how the `k`-th drive the tour awaits
  settles.
- **Math functions.** `Math.sin`, `Math.cos` and `Math.atan2` are function
  parameters.
- **Lengths.** Lengths that need a square root, the distance to the target and
  its horizontal part, are passed in by the caller.

## Model

| member | source | states |
|---|---|---|
| Waypoints.FirstMatch | public/js/three-portfolio.js:781-784 | the index returned holds a matching billboard and no earlier one matches; None means that no billboard matches |
| Waypoints.Resolve | public/js/three-portfolio.js:779-786 | the hub title gives the origin whatever the billboards; any other title resolves exactly when some billboard matches case-insensitively, and to the position of the first match |
| Waypoints.ResolveIgnoresCase | public/js/three-portfolio.js:780-783 | resolving the lower-cased query gives the same answer as resolving the query |
| Waypoints.ResolveIgnoresLaterBillboards | public/js/three-portfolio.js:781-784 | billboards appended after a match do not change the answer |
| Waypoints.FindTargetPositionByTitle | public/js/three-portfolio.js:779-786 | the loop over the billboards returns exactly `Resolve` |
| Waypoints.ResolveAll | public/js/three-portfolio.js:1121 | one answer per title, in order; a title stays unresolved exactly when it is not the hub and no billboard's title matches it |
| Waypoints.ResolveStops | public/js/three-portfolio.js:1121 | the `seq.map(findTargetPositionByTitle)` loop yields the title-by-title resolution |
| Text.Lower | public/js/three-portfolio.js:780 | lower-casing keeps the length and leaves no capital A-Z; each capital becomes its small letter and every other character is kept |
| Text.LowerIdempotent | public/js/three-portfolio.js:780 | lower-casing twice is lower-casing once |
| Tour.IndexOf | public/js/three-portfolio.js:1117 | the index is of the first equal entry (case-sensitive); -1 exactly when the title is absent |
| Tour.SettledRound | public/js/three-portfolio.js:1123-1127 | the retry loop stops at the first round that resolves anything, or after at most 6 retries; every earlier round resolved nothing |
| Tour.PartialResolutionStopsRetry | public/js/three-portfolio.js:1123 | a round that resolves any stop is the round kept |
| Tour.KeepResolved | public/js/three-portfolio.js:1129 | the filter keeps at most one stop per entry, and each kept stop has a template title and a resolved position |
| Tour.ResolvedIndices | public/js/three-portfolio.js:1129 | the resolved entries' indices, strictly increasing, and all of them |
| Tour.KeepResolvedIsResolvedEntries | public/js/three-portfolio.js:1129 | the kept stops are the resolved titles with their positions, in template order |
| Tour.KeepResolvedEmpty | public/js/three-portfolio.js:1129-1130 | nothing is kept exactly when nothing resolved |
| Tour.TourStops | public/js/three-portfolio.js:1117-1129 | no tour exactly when the start is not in the template; otherwise at most one stop per title of the suffix from the start, each titled from that suffix |
| Tour.TourFromKnownStartEndsAtHub | public/js/three-portfolio.js:739 | with the shipped template, every tour from a listed start is non-empty and ends at the hub at the origin |
| Tour.TourWithoutBillboards | public/js/three-portfolio.js:1117-1129 | before any billboard exists, a tour from any listed start settles at the first round and is the hub alone |
| Tour.HubEndsTemplate | public/js/three-portfolio.js:739 | the template's last title is the hub, and it resolves against any billboard list |
| Tour.OnlyTheHubResolvesAlone | public/js/three-portfolio.js:739 | against no billboards, only the template's last title resolves |
| Tour.KeepLastResolved | public/js/three-portfolio.js:1129 | a resolved last entry is the last kept stop |
| Tour.KeepOnlyLast | public/js/three-portfolio.js:1129 | when only the last entry resolved, it is the only stop kept |
| Navigation.BuildTourStops | public/js/three-portfolio.js:1117-1129 | index lookup, suffix, resolution with the bounded retry loop and filtering give exactly `TourStops` |
| Drive.DriveDuration | public/js/three-portfolio.js:986 | a requested non-zero duration is kept; a missing or zero one gives a duration in [2400, 6000]: exactly 2400 when 70 ms per unit is at most 2400, exactly 6000 when it is at least 6000, and 70 ms per unit in between; never zero |
| Drive.DriveDurationMonotone | public/js/three-portfolio.js:986 | a farther target never gets a shorter computed drive |
| Drive.StopBackoff | public/js/three-portfolio.js:1003 | any requested backoff is kept, even 0; otherwise it lies in [6, 14]: exactly 6 when 0.14 per unit is at most 6, exactly 14 when it is at least 14, and 0.14 per unit in between |
| Drive.PlanDrive | public/js/three-portfolio.js:984-1015 | the plan starts at the car and carries the clamped, non-zero duration |
| Drive.StopIsBackoffFromTarget | public/js/three-portfolio.js:1003-1005 | the stop position lies exactly the backoff distance from the target |
| Drive.Progress | public/js/three-portfolio.js:1025 | the elapsed fraction never exceeds 1, is 1 once the duration has passed, and is not negative after the start |
| Drive.PathPoint | public/js/three-portfolio.js:1026-1028 | the path starts at the car and its last frame is the stop position |
| Drive.AheadPoint | public/js/three-portfolio.js:1032-1033 | once the eased parameter passes 0.98 the look-ahead point is the stop position itself |
| Geometry.QuadBezier | public/js/three-portfolio.js:788-793 | the curve runs from its first end point (t = 0) to its last (t = 1) |
| Geometry.QuadBezierConstant | public/js/three-portfolio.js:788-793 | the three weights sum to one: a curve whose points coincide stays at that point for every t |
| Geometry.EaseInOutCubic | public/js/three-portfolio.js:856 | the easing fixes 0, 1/2 and 1 |
| Geometry.EaseSymmetric | public/js/three-portfolio.js:856 | the easing is point-symmetric about (1/2, 1/2) |
| Geometry.EaseInUnit | public/js/three-portfolio.js:856 | on [0, 1] the eased parameter stays in [0, 1] |
| Geometry.EaseMonotone | public/js/three-portfolio.js:856 | on [0, 1] the easing never moves backwards |
| Navigation.FramePose | public/js/three-portfolio.js:1026-1035 | at t = 1 the car and gameState are at the stop position; a drive frame leaves the speed alone |
| Physics.ClampSpeed | public/js/three-portfolio.js:620-621 | the speed ends in [-0.6, 1.2]: above 1.2 it becomes exactly 1.2, below -0.6 exactly -0.6, and inside it is left alone |
| Physics.Throttle | public/js/three-portfolio.js:617-621 | the new speed is in [-0.6, 1.2]; with both or neither of w and s held only friction and the limits act; w alone adds and s alone subtracts the acceleration before friction |
| Physics.Steer | public/js/three-portfolio.js:623-627 | at or below 0.01 speed, or with both or neither of a and d held, the heading is unchanged; a alone turns by 0.04 towards the travel direction and d alone by 0.04 the other way |
| Physics.PhysicsStep | public/js/three-portfolio.js:617-631 | a manual frame keeps the speed in [-0.6, 1.2] and puts the car on the ground at gameState's x and z |
| Physics.CoastingSlowsDown | public/js/three-portfolio.js:617-621 | with neither throttle nor brake the speed never grows |
| Physics.ReducedJumpAsWritten | public/js/three-portfolio.js:992 | as written, the jump moves the car mesh to the target and leaves gameState as it was |
| Physics.ReducedJumpUndoneNextFrame | public/js/three-portfolio.js:992 | as written, the reduced-motion jump is undone by the next manual frame |
| Physics.ReducedJump | public/js/three-portfolio.js:992 | the corrected jump puts the car and gameState at the target and keeps speed and heading |
| Physics.ReducedJumpHolds | public/js/three-portfolio.js:992 | after the corrected jump, a car at rest stays on a ground-level target |
| Input.MapKeyToBtnId | public/js/three-portfolio.js:543-553 | a key maps to a button exactly when its lower-cased name is that button's letter or arrow name; a key with no such name, the empty key included, maps to nothing |
| Input.MapKeyIgnoresCase | public/js/three-portfolio.js:543-553 | the button a key maps to does not depend on letter case |
| Navigation.NavController.constructor | public/js/three-portfolio.js:8-26 | the controller starts idle: car at (80, 0, 10), no keys, no drive, no tour, no sequence |
| Navigation.NavController.SetForceAnimate | public/js/three-portfolio.js:748 | the checkbox sets forceAnimate |
| Navigation.NavController.DriveToPosition | public/js/three-portfolio.js:974-1018 | no car gives no-car and no change; reduced motion without forceAnimate gives done with the car at the target and `driving` untouched; already driving gives busy and no change; else a new running session is planned from the car, `driving` becomes true and its cancel closure is stored |
| Navigation.NavController.StepDrive | public/js/three-portfolio.js:1023-1072 | a cancelled session settles as canceled without moving the car; otherwise the frame places the car on the path, and at t = 1 clears `driving` and starts the arrival pulse |
| Navigation.NavController.StepArrival | public/js/three-portfolio.js:1073-1091 | the pulse settles as done once 420 ms have passed, and not before |
| Navigation.NavController.CancelDrive | public/js/three-portfolio.js:1099-1108 | afterwards no drive owns the car, `driving` and `tourRunning` are false and the sequence is reset; only the stored session is marked cancelled |
| Navigation.NavController.StartTourFrom | public/js/three-portfolio.js:1110-1204 | a guarded call changes nothing; an unknown start or no resolved stop ends with `tourRunning` false and no drive; otherwise the stops of `TourStops` are followed in the requested mode |
| Navigation.NavController.BeginSequence | public/js/three-portfolio.js:1133-1136 | the sequence holds the stops' titles and positions, index 0, not paused |
| Navigation.NavController.SingleStep | public/js/three-portfolio.js:1142-1172 | only the first stop is driven; cancel or a single stop resets the tour; otherwise the index is 1 and the sequence pauses |
| Navigation.NavController.AutoAdvance | public/js/three-portfolio.js:1175-1203 | the stops are driven in order up to the first canceled drive; the tour then ends with the sequence reset |
| Navigation.NavController.ContinueSequence | public/js/three-portfolio.js:1206-1240 | no sequence or no stop left changes nothing; otherwise the stop at the index is driven; cancel or the last stop resets the tour; otherwise the index rises by exactly 1 and the sequence pauses |
| Navigation.NavController.UpdatePhysics | public/js/three-portfolio.js:609-631 | without a car or while driving the pose is untouched; otherwise it takes exactly one manual physics frame |
| Navigation.NavController.HandleKey | public/js/three-portfolio.js:567-576 | the `keys` entry of the key's button takes the key state; keys without a button change nothing |
| Scenarios.BusyThenCancel | public/js/three-portfolio.js:997-1024 | a second drive during the first is busy; after cancelDrive the first settles as canceled and `driving` is false |
| Scenarios.TourBeforeBillboards | public/js/three-portfolio.js:1110-1168 | a single-step tour from CONTACTO before the scene exists drives to the hub only and ends |

## Left out

- Floating point: every quantity is a `real`, with no rounding, NaN or infinity.
- Square roots: the distance to the target and its horizontal length are inputs. `Drive.StopIsBackoffFromTarget` assumes the supplied distance is the true one.
- `Math.sin`, `Math.cos` and `Math.atan2` are opaque function parameters. The heading is taken from the look-ahead vector before normalisation; normalising does not change `atan2`'s angle.
- Letter case: `toLowerCase` is modelled for ASCII letters only, with no Unicode case mapping.
- The camera, the car's rotation and scale, the wheels, the speedometer text, the destination marker, the confetti and `announceRoute` are left out. They are rendering and DOM work with no effect on the controller's state.
- Timers: the 350 ms retry wait and the 900 ms pause between auto-advance stops have no duration in the model. A retry round is one more entry of `world`.
- Interleaving inside a tour: a tour runs as one call whose drives settle with the supplied `outcome`. So `cancelDrive` cannot run between its awaits. Two consequences of the real interleaving are therefore not represented:
  - a stale canceled continuation of an earlier tour can reset the state of a newer one;
  - a cancel during the 900 ms pause makes the loop read a sequence that is already null.
- The drives a tour awaits are not linked to drive sessions; the tour sees only each drive's outcome, not its requested 1600 ms duration. A `busy` outcome advances the sequence, as in the source.
- Navigation.NavController.DriveToPosition: the camera jump of the reduced-motion branch is left out, and the class uses the corrected jump (see Findings).
- Navigation.NavController.UpdatePhysics: the car's rotation, the wheel spin and the speedometer text (lines 632-640) are not modelled.
- Scene construction (billboards, hub, trees, collectibles) is left out. The billboard list is an input.
- The script loading with its CDN fallback, the WebGL check, the DOM wiring of buttons and `localStorage`, and `astro.config.mjs` are left out.

## Findings

| source | as written | input that shows it | evidently intended | confidence | as-written member | corrected member |
|---|---|---|---|---|---|---|
| public/js/three-portfolio.js:992 | the reduced-motion branch copies the target into `car.position` but not into `gameState.x`/`gameState.z`, and does not set `driving` | with reduced motion on, the force-animate checkbox unchecked (it starts checked, lines 745-746) and the car at its start (80, 0, 10), a drive to `redes`; the next `updatePhysics` frame sets the car back to (80, 0, 10) from `gameState` | the car stays at the destination, as the branch's `done` result says | high (follows from lines 629-631; not executed) | Physics.ReducedJumpUndoneNextFrame | Physics.ReducedJump |
