# Drag-and-snap ball controller, modelled in Dafny

The app shows four square drop zones and a ball. You drag the ball with one
finger. When you let go, a spring carries it to the nearest drop-zone
position. This project models the logic of `App.js`:

- **Drop-zone geometry** (`Geometry`). `createDropZone` turns a zone's
  horizontal centre and top edge into the zone's corner (`x`, `y`). It also
  gives the corner (`cx`, `cy`) at which the 100-unit ball sits centred inside
  the 107-unit zone.
- **Snap-point selection** (`Snapping`). `snapPoint` measures `|value - p|`
  for every candidate and takes the minimum. A left fold then overwrites its
  accumulator with every candidate at that distance. On an exact tie the
  last minimising candidate wins. `logSnapPoint` selects by the same rule but
  starts the fold at 0.
- **Per-axis controller** (`Controller`). `withOffset` is written as a
  reactive `block`, but it behaves as a per-frame state machine. The model
  makes it an explicit step on an immutable `Axis` record. The record holds
  the committed offset, the spring state (`finished`, `velocity`,
  `position`, `time`), the spring target `toValue` and whether the clock is
  running. Each frame runs three parts in order:
  - BEGAN: set the offset to the last position and stop the clock.
  - END: start a run if allowed, take one spring step, and on `finished`
    commit the offset and stop the clock.
  - Any other phase: clear `finished` and set the position to offset plus
    translation.

  The output is the position.
- **Screen setup** (`App`). This covers the four zones laid out on thirds of
  the window width, and the starting offsets at the first zone's ball corner.
  It also composes the two axes: both read one gesture phase, and each axis
  has its own snap-point list (`cx` for x, `cy` for y).

Coordinates are `real`. The spring integrator is a library routine, so the
caller supplies it as a parameter of type `Spring`: a total function from
one frame's inputs to the spring state it leaves. Those inputs are the spring
state, the tuning `Config`, the target, whether the clock runs, and the
frame's clock time. The window width is a parameter too.

Notes on what the code does:

- Ties go to the **last** minimising candidate, not the first. For example,
  snapping 50 among `[40, 60]` gives 60 (`Snapping.TieGoesToLast`).
- No run-in-flight guard exists beyond `!clockRunning && !finished`.
- The time step is not clamped, and there is no NaN handling. Both of these
  belong to the spring routine.
- An empty snap list is not rejected:
  - `snapPoint`'s fold returns its unset initial value. The model writes
    this as `None`, and the target field `toValue` is an `Option<real>` so
    that this case can be stated.
  - `logSnapPoint` returns 0 for an empty list.

The spring's `position` starts at 0, not at the offset (`App.js:96`).
- The first frame that is neither BEGAN nor END sets the position to offset
  plus translation.
- A first END frame starts a spring run from position 0, aimed at the snap
  point of 0 (`Controller.FirstReleaseStartsFromZero`).
- A BEGAN on the very first frame commits 0 as the offset
  (`App.FirstFrameGrabDropsOffset`).

## Model

| member | source | states |
|---|---|---|
| Geometry.CreateDropZone | App.js:40-48 | keeps the id and `y = dy`. The zone's horizontal centre `x + 107/2` and the ball's centre `cx + 100/2` both equal `dx`. The ball's box and the zone's box share a centre. |
| Geometry.CreateDropZoneInjective | App.js:40-48 | different (id, dx, dy) triples give different zones |
| Geometry.CentredBallInside | App.js:35-47 | a centred 100-unit ball lies inside the 107-unit zone, with a margin of 3.5 on the left and top |
| Snapping.MinDist | App.js:78-80 | the minimum distance is at most the distance to every candidate and is attained by one of them |
| Snapping.SnapFold | App.js:85-88 | the fold returns the last candidate at the given distance, or its initial accumulator when no candidate is at that distance |
| Snapping.LastHitExists | App.js:85-88 | when some candidate is at the distance, a last such candidate exists at or after it |
| Snapping.LastHitOfMinIsLastNearest | App.js:78-88 | the last candidate at the minimum distance is nearest, and every later candidate is strictly farther |
| Snapping.SnapPoint | App.js:77-89 | `None` exactly for an empty list. Otherwise the result is a member of the list, no candidate is nearer, and it is the last nearest one. |
| Snapping.LastNearestUnique | App.js:77-89 | at most one index meets the last-nearest rule, so the tie rule fixes the answer |
| Snapping.SnapPointPicksLastNearest | App.js:77-89 | converse of `SnapPoint`'s contract: the index that meets the rule is the one returned |
| Snapping.TieGoesToLast | App.js:85-88 | snapping 50 among `[40, 60]` gives 60: the later of the tied candidates |
| Snapping.SnapPointOfMember | App.js:77-89 | a value that is itself a candidate snaps to itself |
| Snapping.SnapPointIdempotent | App.js:77-89 | snapping a snap point again gives the same point |
| Snapping.LogSnapPoint | App.js:60-75 | the debugging twin selects the same point as `SnapPoint` on a non-empty list, and 0 on an empty one |
| Controller.Grab | App.js:110-113 | BEGAN sets the offset to the last rendered position and stops the clock. Any other phase changes nothing. |
| Controller.ReleaseCall | App.js:120-129 | when the clock is stopped and the last run is unfinished, the spring step gets time 0, the gesture's velocity, the running clock and the snap point of the released position. That target is a candidate with none nearer. Otherwise the run continues unchanged. |
| Controller.Release | App.js:115-135 | the END step takes the spring's result. On `finished` the offset becomes the position and the clock stops. Otherwise the offset is kept. |
| Controller.Track | App.js:136-140 | outside END the position is offset plus translation and `finished` is cleared. The offset, clock, target, velocity and time are kept. |
| Controller.Step | App.js:109-143 | one frame. Outside END the rendered coordinate is offset plus translation. BEGAN commits the last position and stops the clock. Other phases keep the offset. END rewrites the offset only on a finished step, and then to the position. A new run aims at the snap point of the released position. |
| Controller.Init | App.js:92-107 | the starting axis keeps the given offset. Its spring state is zeroed, with position 0, its target is 0 and its clock is stopped. No run is finished yet, so the first END frame starts one. |
| Controller.InitIsAimed | App.js:92-107 | the starting axis meets the aiming invariant for every snap list |
| Controller.FirstReleaseStartsFromZero | App.js:96-127 | an END frame on the starting axis starts a run from position 0, aimed at the snap point of 0 |
| Controller.StepKeepsTarget | App.js:109-143 | once the clock runs or the last run finished, the spring target is one of the snap points. Every frame preserves this. |
| Controller.RunKeepsTarget | App.js:109-143 | the same invariant holds after any sequence of frames |
| Controller.SpringAimsAtSnapPoint | App.js:120-129 | from the starting state, after any frames, every spring step an END frame takes aims at a snap point. This covers starting a run, continuing one, and the call made at rest on a stopped clock. |
| Controller.DragFollowsFinger | App.js:110-140 | after BEGAN and any number of moving frames: the offset is the position rendered before the grab, the clock is stopped, and the rendered coordinate is that offset plus the latest translation |
| Controller.GrabIsContinuous | App.js:110-113 | grabbing without moving leaves the rendered coordinate where it was |
| Controller.GrabCancelsRun | App.js:110-113 | BEGAN during a run stops the clock. The coordinate then tracks the interrupted position plus the translation. |
| Controller.FinishedReleaseRests | App.js:129-134 | an END frame whose spring step finishes leaves the axis at rest: finished, clock stopped, offset equal to the position |
| Controller.RestingIsStable | App.js:120-134 | at rest, an END frame starts no run. It leaves the axis unchanged when the spring leaves a finished state alone on a stopped clock. |
| Controller.DragStartsAtRest | App.js:110-134 | from rest, BEGAN keeps the offset, so the next drag starts where the ball rests |
| App.Drops | App.js:50-56 | four zones with ids 3, 5, 1, 4, each with its ball centred. The first zone's ball corner is at x = 2/3 of the width - 50 and the second's at 1/3 of the width - 50. The first zone's top is 125 and the second's 400. The fourth zone shares the first's column and the third shares the second's. The third shares the first's row and the fourth shares the second's. |
| App.XPoints | App.js:165 | the x snap points are the zones' `cx`, in zone order |
| App.YPoints | App.js:167 | the y snap points are the zones' `cy`, in zone order |
| App.BallStep | App.js:164-167 | both axes see one phase. While dragging, each axis renders offset plus its own translation. A run started on either axis aims at one of that axis's snap points. |
| App.InitBall | App.js:57-58 | the starting offsets are the first zone's ball corner, (2/3 of the width - 50, 128.5), and each is one of its own axis's snap points |
| Snapping.PairMinDiffersInGeneral | App.js:80 | on a general list, comparing only the first two distances is not the minimum: for 0 among [10, 20, 1] it gives 10, not 1 |
| App.PairMinAgreesOnAppLists | App.js:80 | on the app's own snap lists, comparing only the first two distances gives the minimum of all four, for every value |
| App.InitialOffsetsAreSnapPoints | App.js:51-58 | the starting offsets are snap points of their own axes, so the ball starts in the first zone |
| App.FirstFrameDrawsFirstZone | App.js:51-58 | a first frame that is neither BEGAN nor END, with no movement, draws the ball at (2/3 of the width - 50, 128.5) |
| App.FirstFrameGrabDropsOffset | App.js:93-113 | a BEGAN on the very first frame commits the spring's initial position 0 as both offsets |

## Left out

- The spring integration (`App.js:129`) is an opaque library routine doing floating-point physics. It is the `Spring` parameter. No convergence, overshoot or time-step property is stated about it.
- Controller.RestingIsStable: holds only on the stated assumption that the spring leaves a finished state alone on a stopped clock, because the spring routine is not modelled.
- The reactive node graph, `Clock` timing and `event` binding (`App.js:3`, `6-33`, `92`, `152-162`) are replaced by an explicit sequential step. The clock's time arrives as `Input.now`.
- React rendering, the gesture handler component, the Mass/Tension/Damping text inputs (`App.js:169-204`) and the style sheet (`App.js:207-257`) are presentation only. The text inputs are wired to nothing.
- The window size (`App.js:38`) is the `width` parameter. The height is unused by the core.
- The `console.log` output of `logSnapPoint` (`App.js:64-65`) is I/O. Only its selection is modelled.
- The `__diffPoint`/`__deltas`/`__minDelta` values inside `snapPoint` (`App.js:82-84`) are computed and never used.
- The library's `min` over the distances (`App.js:80`) is taken to be the minimum of all of them. The library's own definition is not part of this model. If its `min` compares only its first two arguments, the general-list "nearest" properties of `Snapping.MinDist` and `Snapping.SnapPoint` hold only under the all-distances reading. On the app's own lists both readings agree (`App.PairMinAgreesOnAppLists`).
- `decay` is imported (`App.js:19`) but never used, so no decay integrator is modelled.
- Gesture-handler state numbering is not modelled. `Phase` lists the six states by name.
