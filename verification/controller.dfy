/**
 The per-axis drag/settle controller. Each display frame reads the gesture
 phase, the gesture's translation and velocity on this axis, and runs, in
 order: the grab step (on BEGAN), then either the release step (on END) or
 the tracking step (any other phase). The rendered coordinate is the
 position after the frame.

 The spring integrator is a library routine; it is a parameter here, a total
 function from everything it reads in one frame to the spring state it leaves.
 */
module Controller {

  import opened Wrappers
  import opened Snapping

  /** The states a pan gesture handler reports. */
  datatype Phase = Undetermined | Failed | Began | Cancelled | Active | End

  /** One frame's gesture sample on this axis, and the clock's time at the frame. */
  datatype Input = Input(phase: Phase, translation: real, velocity: real, now: real)

  /** The state record the spring integrator reads and writes. */
  datatype SpringState = SpringState(finished: bool, velocity: real, position: real, time: real)

  /** Spring tuning, fixed for the controller except for its target. */
  datatype SpringConfig = SpringConfig(
    damping: real,
    mass: real,
    stiffness: real,
    overshootClamping: bool,
    restSpeedThreshold: real,
    restDisplacementThreshold: real)

  /** The tuning every axis uses. */
  const Config: SpringConfig := SpringConfig(20.0, 1.0, 200.0, false, 0.001, 0.001)

  /** Everything one spring step reads: its state, tuning, target, and the clock. */
  datatype SpringCall = SpringCall(
    state: SpringState,
    config: SpringConfig,
    toValue: Option<real>,
    clockRunning: bool,
    now: real)

  /** A spring integrator: one frame's step. */
  type Spring = SpringCall -> SpringState

  /**
   One axis: the committed offset, the spring state (whose `position` is the
   rendered coordinate), the spring's target and whether the clock runs.
   */
  datatype Axis = Axis(offset: real, spring: SpringState, toValue: Option<real>, clockRunning: bool)

  /**
   The axis before any frame: the given offset, a zeroed spring state, target 0,
   clock stopped. The spring's position starts at 0, not at the offset, and no
   run has been started yet, so the first END frame starts one.
   */
  function Init(offset: real): (a: Axis)
    ensures a.offset == offset && Rendered(a) == 0.0
    ensures !a.clockRunning && !a.spring.finished && StartsRun(a)
    ensures a.spring.velocity == 0.0 && a.spring.time == 0.0 && a.toValue == Some(0.0)
  {
    Axis(offset, SpringState(false, 0.0, 0.0, 0.0), Some(0.0), false)
  }

  /** The starting axis is aimed for every snap list: no run has started. */
  lemma InitIsAimed(offset: real, points: seq<real>)
    ensures Aimed(Init(offset), points)
  {
  }

  /**
   An END frame on the starting axis starts a run from position 0, aimed at the
   snap point of 0.
   */
  lemma FirstReleaseStartsFromZero(offset: real, input: Input, points: seq<real>)
    requires input.phase == End
    ensures var c := ReleaseCall(Grab(Init(offset), input.phase), input, points);
      && c.clockRunning && c.state.position == 0.0
      && c.toValue == SnapPoint(0.0, points)
  {
  }

  /** The coordinate the axis renders. */
  function Rendered(a: Axis): real {
    a.spring.position
  }

  /** A new spring run starts only when the clock is stopped and the last run is not finished. */
  predicate StartsRun(a: Axis) {
    !a.clockRunning && !a.spring.finished
  }

  /** On BEGAN the offset takes the last rendered position and the clock stops. */
  function Grab(a: Axis, phase: Phase): (r: Axis)
    ensures phase == Began ==> r.offset == Rendered(a) && !r.clockRunning
    ensures phase == Began ==> r.spring == a.spring && r.toValue == a.toValue
    ensures phase != Began ==> r == a
  {
    if phase == Began then a.(offset := a.spring.position, clockRunning := false) else a
  }

  /**
   The spring call an END frame makes. When a run starts, its time is reset,
   its velocity is the gesture's, its target is the snap point of the released
   position, and the clock is started; otherwise the call continues the
   current run unchanged.
   */
  function ReleaseCall(a: Axis, input: Input, points: seq<real>): (c: SpringCall)
    ensures c.config == Config && c.now == input.now
    ensures c.state.position == a.spring.position && c.state.finished == a.spring.finished
    ensures StartsRun(a) ==> c.clockRunning && c.state.time == 0.0 && c.state.velocity == input.velocity
    ensures StartsRun(a) ==> c.toValue == SnapPoint(Rendered(a), points)
    ensures StartsRun(a) && |points| > 0 ==>
      c.toValue.Some? && c.toValue.value in points &&
      forall p :: p in points ==> Dist(Rendered(a), c.toValue.value) <= Dist(Rendered(a), p)
    ensures !StartsRun(a) ==>
      c.state == a.spring && c.toValue == a.toValue && c.clockRunning == a.clockRunning
  {
    if StartsRun(a) then
      SpringCall(
        a.spring.(time := 0.0, velocity := input.velocity),
        Config,
        SnapPoint(a.spring.position, points),
        true,
        input.now)
    else
      SpringCall(a.spring, Config, a.toValue, a.clockRunning, input.now)
  }

  /**
   The END step: possibly start a run, take one spring step, and on a
   finished step commit the offset and stop the clock.
   */
  function Release(a: Axis, input: Input, points: seq<real>, spring: Spring): (r: Axis)
    ensures r.spring == spring(ReleaseCall(a, input, points))
    ensures r.toValue == ReleaseCall(a, input, points).toValue
    ensures r.spring.finished ==> r.offset == Rendered(r) && !r.clockRunning
    ensures !r.spring.finished ==> r.offset == a.offset
    ensures !r.spring.finished ==> r.clockRunning == (a.clockRunning || StartsRun(a))
  {
    var c := ReleaseCall(a, input, points);
    var s := spring(c);
    if s.finished then
      Axis(s.position, s, c.toValue, false)
    else
      Axis(a.offset, s, c.toValue, c.clockRunning)
  }

  /** Any phase but END: the run is marked unfinished and the position follows the finger. */
  function Track(a: Axis, translation: real): (r: Axis)
    ensures Rendered(r) == r.offset + translation && !r.spring.finished
    ensures r.offset == a.offset && r.clockRunning == a.clockRunning && r.toValue == a.toValue
    ensures r.spring.velocity == a.spring.velocity && r.spring.time == a.spring.time
  {
    a.(spring := a.spring.(finished := false, position := a.offset + translation))
  }

  /** One frame of the controller; the rendered coordinate is `Rendered` of the result. */
  function Step(a: Axis, input: Input, points: seq<real>, spring: Spring): (r: Axis)
    // While dragging, the rendered coordinate is exactly offset plus translation.
    ensures input.phase != End ==> Rendered(r) == r.offset + input.translation && !r.spring.finished
    ensures input.phase != End ==> r.toValue == a.toValue
    // BEGAN carries the last rendered coordinate into the offset and stops the clock.
    ensures input.phase == Began ==> r.offset == Rendered(a) && !r.clockRunning
    ensures input.phase == Began ==> Rendered(r) == Rendered(a) + input.translation
    // Other non-END phases leave the offset and the clock alone.
    ensures input.phase != Began && input.phase != End ==>
      r.offset == a.offset && r.clockRunning == a.clockRunning
    // END rewrites the offset only when the spring step finishes, and then to the position.
    ensures input.phase == End && r.spring.finished ==> r.offset == Rendered(r) && !r.clockRunning
    ensures input.phase == End && !r.spring.finished ==> r.offset == a.offset
    // The target set when a run starts is the snap point of the released position.
    ensures input.phase == End && StartsRun(a) ==> r.toValue == SnapPoint(Rendered(a), points)
    ensures input.phase == End && !StartsRun(a) ==> r.toValue == a.toValue
  {
    var g := Grab(a, input.phase);
    if input.phase == End then Release(g, input, points, spring) else Track(g, input.translation)
  }

  /** The axis after a sequence of frames, first frame first. */
  function Run(a: Axis, inputs: seq<Input>, points: seq<real>, spring: Spring): Axis
    decreases |inputs|
  {
    if |inputs| == 0 then a else Run(Step(a, inputs[0], points, spring), inputs[1..], points, spring)
  }

  /**
   Once a run has been started (the clock runs, or the last run finished),
   the spring's target is one of the axis's snap points.
   */
  predicate Aimed(a: Axis, points: seq<real>) {
    (a.clockRunning || a.spring.finished) && |points| > 0 ==> a.toValue.Some? && a.toValue.value in points
  }

  /** One frame keeps the spring's target on a snap point. */
  lemma StepKeepsTarget(a: Axis, input: Input, points: seq<real>, spring: Spring)
    requires Aimed(a, points)
    ensures Aimed(Step(a, input, points, spring), points)
  {
    var g := Grab(a, input.phase);
    if input.phase == End {
      var c := ReleaseCall(g, input, points);
      assert (c.clockRunning || c.state.finished) && |points| > 0 ==> c.toValue.Some? && c.toValue.value in points;
    }
  }

  /** Every frame sequence keeps the spring's target on a snap point. */
  lemma {:induction false} RunKeepsTarget(a: Axis, inputs: seq<Input>, points: seq<real>, spring: Spring)
    requires Aimed(a, points)
    ensures Aimed(Run(a, inputs, points, spring), points)
    decreases |inputs|
  {
    if |inputs| > 0 {
      StepKeepsTarget(a, inputs[0], points, spring);
      RunKeepsTarget(Step(a, inputs[0], points, spring), inputs[1..], points, spring);
    }
  }

  /**
   Every spring call an END frame makes from a reachable axis, whether it
   starts a run, continues one, or is made at rest, aims at a snap point.
   */
  lemma SpringAimsAtSnapPoint(offset: real, inputs: seq<Input>, input: Input, points: seq<real>, spring: Spring)
    requires |points| > 0
    ensures var c := ReleaseCall(Grab(Run(Init(offset), inputs, points, spring), input.phase), input, points);
      c.toValue.Some? && c.toValue.value in points
  {
    InitIsAimed(offset, points);
    RunKeepsTarget(Init(offset), inputs, points, spring);
  }

  /** A frame in the middle of a drag: neither BEGAN nor END. */
  predicate Moving(input: Input) {
    input.phase != Began && input.phase != End
  }

  /**
   A drag: after a BEGAN frame and any number of moving frames, the offset is
   the coordinate rendered just before the grab, the clock is stopped, and the
   rendered coordinate is that offset plus the latest translation.
   */
  lemma {:induction false} DragFollowsFinger(a: Axis, grab: Input, moves: seq<Input>, points: seq<real>, spring: Spring)
    requires grab.phase == Began
    requires forall k :: 0 <= k < |moves| ==> Moving(moves[k])
    ensures var r := Run(a, [grab] + moves, points, spring);
      && r.offset == Rendered(a)
      && !r.clockRunning
      && Rendered(r) == Rendered(a) + (if |moves| == 0 then grab.translation else moves[|moves| - 1].translation)
    decreases |moves|
  {
    var inputs := [grab] + moves;
    if |moves| == 0 {
      assert Run(a, inputs, points, spring) == Step(a, grab, points, spring);
    } else {
      var init := [grab] + moves[..|moves| - 1];
      DragFollowsFinger(a, grab, moves[..|moves| - 1], points, spring);
      RunSnoc(a, init, moves[|moves| - 1], points, spring);
      assert inputs == init + [moves[|moves| - 1]];
    }
  }

  /** Running a sequence and then one more frame is stepping after the run. */
  lemma {:induction false} RunSnoc(a: Axis, inputs: seq<Input>, last: Input, points: seq<real>, spring: Spring)
    ensures Run(a, inputs + [last], points, spring) == Step(Run(a, inputs, points, spring), last, points, spring)
    decreases |inputs|
  {
    if |inputs| == 0 {
      assert inputs + [last] == [last];
    } else {
      assert (inputs + [last])[1..] == inputs[1..] + [last];
      RunSnoc(Step(a, inputs[0], points, spring), inputs[1..], last, points, spring);
    }
  }

  /** Grabbing the ball without moving it does not move it: the offset carries the rendered coordinate. */
  lemma GrabIsContinuous(a: Axis, input: Input, points: seq<real>, spring: Spring)
    requires input.phase == Began && input.translation == 0.0
    ensures Rendered(Step(a, input, points, spring)) == Rendered(a)
    ensures Step(a, input, points, spring).offset == Rendered(a)
  {
  }

  /**
   Grabbing cancels a run in flight: the clock stops, and the rendered
   coordinate tracks the interrupted position plus the new translation.
   */
  lemma GrabCancelsRun(a: Axis, input: Input, points: seq<real>, spring: Spring)
    requires a.clockRunning && input.phase == Began
    ensures var r := Step(a, input, points, spring);
      !r.clockRunning && Rendered(r) == Rendered(a) + input.translation
  {
  }

  /** The axis is at rest: the last run finished on its offset and the clock is stopped. */
  predicate Resting(a: Axis) {
    a.spring.finished && !a.clockRunning && a.offset == Rendered(a)
  }

  /** An END frame whose spring step finishes leaves the axis at rest. */
  lemma FinishedReleaseRests(a: Axis, input: Input, points: seq<real>, spring: Spring)
    requires input.phase == End && Step(a, input, points, spring).spring.finished
    ensures Resting(Step(a, input, points, spring))
  {
  }

  /**
   At rest, a further END frame starts no run; if the spring leaves a finished
   state alone on a stopped clock, the frame changes nothing.
   */
  lemma RestingIsStable(a: Axis, input: Input, points: seq<real>, spring: Spring)
    requires Resting(a) && input.phase == End
    requires spring(SpringCall(a.spring, Config, a.toValue, false, input.now)) == a.spring
    ensures !StartsRun(a)
    ensures Step(a, input, points, spring) == a
  {
    assert ReleaseCall(a, input, points) == SpringCall(a.spring, Config, a.toValue, false, input.now);
  }

  /** From rest, the next drag starts where the ball rests: the BEGAN frame keeps the offset. */
  lemma DragStartsAtRest(a: Axis, input: Input, points: seq<real>, spring: Spring)
    requires Resting(a) && input.phase == Began
    ensures Step(a, input, points, spring).offset == a.offset
    ensures Rendered(Step(a, input, points, spring)) == a.offset + input.translation
  {
  }
}
