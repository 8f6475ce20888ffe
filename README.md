# Monte Carlo pi simulator: a verified model of the simulation engine

The component `MonteCarloPiSimulator` (src/App.js) estimates pi by sampling
random points. Each tick draws a batch of ten points, either in the square
[-1,1) x [-1,1) (Full mode, the whole unit disk) or in [0,1) x [0,1) (Half
mode, a quarter disk). It counts the points within distance 1 of the origin
and publishes the counters and the estimate `4*inside/points` (Full) or
`2*inside/points` (Half). Ticks are 50 time units apart until more than half
of the target count has been drawn, then 0.1 apart. A tick that finds the
target reached ends the run. One button starts, pauses and resumes a run. A
second button resets it. The point-count and shape selectors are disabled once
a run has started, and changing the shape also resets.

The model is split into five modules:

- `Geometry` (geometry.dfy): how two random draws become a sampled point. It
  decides whether the point is inside the arc and where it is plotted on the
  normalised canvas.
- `Batch` (batch.dfy): the ten points of one tick, the inside count, the
  estimate as an exact rational, and `DrawBatch`, the method holding the
  tick's `for` loop.
- `Lifecycle` (lifecycle.dfy): the state as a datatype `Sim` with one field
  per state variable, plus the pending tick (`Timer`). It defines the
  invariant `Inv` of every reachable state and one function per event: a tick
  firing, the start/pause/resume button, reset, the point-count selector, the
  custom submission and the shape selector.
- `Properties` (properties.dfy) and `Run` (run.dfy): what each event
  guarantees, and where a run of consecutive ticks ends.
- `Engine` (engine.dfy): the class `Simulator`, with the component's state
  variables as fields. Each method is proved to change the fields exactly as
  the matching `Lifecycle` function says, and to keep `Inv`.

`Math.random` is a parameter. Every tick receives the twenty draws it uses, in
call order, each in [0,1). The inside test `sqrt(x*x + y*y) <= 1` is stated as
`x*x + y*y <= 1`; the two are equivalent because both sides are non-negative.
The timer is abstract: `Scheduled(delay, interval)` is the one pending tick
and `NoTick` means none. `interval` is the tick loop's local pacing variable.
Starting or resuming begins a fresh loop whose first step runs at once; this
is modelled as a tick scheduled with delay 0 and the interval reset to 50.
Pausing cancels the pending tick.

The model makes these choices where the behaviour could be read two ways:

- A run overshoots instead of being clamped. It ends at the smallest multiple
  of 10 that reaches the target, which is at most 9 past it.
- Completion is detected by the tick after the one that reaches the target,
  not by the batch that reaches it.
- Pressing the button on a completed run only scrolls to the result. That
  scroll is not modelled.

## Model

| member | source | states |
|---|---|---|
| Geometry.Draw | src/App.js:66-75 | Full mode turns the draws into a point of [-1,1) x [-1,1); Half mode uses them as a point of [0,1) x [0,1) |
| Geometry.Classify | src/App.js:70-85 | a point is inside exactly when x*x + y*y <= 1; its plot position lies in [0,1] x [0,1] in both modes |
| Geometry.ClassifyMatchesDrawnArc | src/App.js:77-85 | a point is plotted inside the arc the canvas outlines (lines 33-37: a circle of radius 1/2 at the centre in Full mode, a quarter circle of radius 1 at the bottom-left corner in Half mode) exactly when it is classified inside |
| Batch.BatchPlots | src/App.js:65-90 | a batch of 2n draws yields n points |
| Batch.BatchPlotsAt | src/App.js:65-83 | point k of a batch is the one sampled from draws 2k (x) and 2k+1 (y), and it is plotted within the unit canvas |
| Batch.CountInside | src/App.js:85-87 | the inside count never exceeds the number of points |
| Batch.CountInsideExtremes | src/App.js:85-89 | the count equals the number of points exactly when every point is inside, and is zero exactly when none is |
| Batch.CentreDrawsAllInside | src/App.js:67-70 | in Full mode, draws of one half put every point at the centre, so the whole batch is inside |
| Batch.EstimateMeaning | src/App.js:92 | the estimate times the points equals the factor (4 Full, 2 Half) times the inside count; it lies in [0, factor]; it is 0 exactly when no point is inside and equals the factor exactly when all are |
| Batch.DrawBatch | src/App.js:65-90 | the loop advances `points` by exactly 10 and `inside` by the batch's inside count (between 0 and 10) and returns the batch's points in draw order |
| Lifecycle.RunLength | src/App.js:58-63 | the count where a run from zero stops is a multiple of 10, at least the target and less than the target plus 10 |
| Lifecycle.RunLengthIsLeast | src/App.js:58-63 | that count is the smallest multiple of 10 that reaches the target |
| Properties.AtTargetIsRunLength | src/App.js:58-63 | a count that is a multiple of 10, has reached the target and is within the run length is exactly the run length |
| Properties.BelowTargetHasRoom | src/App.js:58-65 | a count below the target leaves room for one more batch within the run length |
| Properties.InitIsIdle | src/App.js:10-23 | the initial state satisfies the invariant, is idle and has zero counters and estimate |
| Properties.StatisticsConsistent | src/App.js:92-96 | in every reachable state 0 <= inside <= points, outside = points - inside >= 0, the estimate lies in [0, factor], and it is 0 while no point has been drawn |
| Properties.TickKeepsInv | src/App.js:57-104 | a tick keeps the invariant |
| Properties.TickAdvances | src/App.js:65-103 | a tick below the target adds exactly 10 points and between 0 and 10 inside, publishes outside and the estimate, keeps running, and schedules the next tick 0.1 after it if points > total/2 and 50 otherwise: the loop's sticky interval variable always equals this rule |
| Properties.TickCompletes | src/App.js:58-63 | a tick with points >= total changes no counter, stops running, marks the run completed and schedules nothing; the count is then the run length, less than total + 10 |
| Properties.TickOnlyWhileRunning | src/App.js:109-117 | when idle, paused or completed no tick is pending, so a tick changes nothing |
| Properties.DelayNeverReverts | src/App.js:99-101 | the pacing rule is monotone in the count: once it gives 0.1 it gives 0.1 for every larger count |
| Properties.TickKeepsFastPacing | src/App.js:99-103 | a tick fired at the fast interval schedules the next tick at 0.1 again, or ends the run |
| Run.TicksKeepInv | src/App.js:57-104 | any number of consecutive ticks keeps the invariant |
| Run.FastPacingSticks | src/App.js:99-103 | from a state whose pending tick is at 0.1, every later tick of the run is scheduled at 0.1 or none is pending: the switch happens once |
| Run.FastPacingNeverReverts | src/App.js:99-103 | along one run, if the timer after i ticks is at 0.1, then after every j >= i ticks it is at 0.1 or the run has completed |
| Properties.ToggleKeepsInv | src/App.js:119-130 | the button keeps the invariant |
| Properties.ToggleTransitions | src/App.js:119-130 | the button changes no counter or configuration; it does nothing on a completed run, takes idle to running, running to paused (cancelling the tick) and paused to running (a fresh loop at the slow interval) |
| Properties.PauseResume | src/App.js:109-130 | after a pause ticks do nothing, and pausing then resuming restores the state except for the fresh tick loop: a second press after the start pauses rather than restarts |
| Properties.ResetZeroes | src/App.js:132-142 | from any state reset clears running, started and completed, zeroes the counters and the estimate, cancels the tick, keeps the configuration and the invariant, and is idempotent |
| Properties.ChangePointsOptionGuarded | src/App.js:144-174 | the point-count selector changes nothing once started; before the start a numeric option becomes the target and closes the custom field; it keeps the invariant and never touches a counter |
| Properties.SubmitCustomGuarded | src/App.js:154-163 | a custom count is taken exactly when the simulation is idle and the text parsed to a positive integer; otherwise nothing changes; the invariant is kept |
| Properties.SubmitCustomAgreesBeforeStart | src/App.js:154-163 | before the start the guarded submission and the written handler agree |
| Properties.SubmitCustomAsWrittenMovesTarget | src/App.js:154-163 | as written, a submission during a run replaces the target: a running state at 20 points gets target 5, so the run is already more than 9 past its target and the invariant fails |
| Properties.ChangeShapeGuarded | src/App.js:207-213 | the shape selector changes nothing once started; before the start it sets the shape and resets; it keeps the invariant |
| Run.TicksWithoutPendingTick | src/App.js:109-117 | with no tick pending, any number of ticks changes nothing |
| Run.TicksProgress | src/App.js:57-104 | from a running state, k ticks leave the count at min(points + 10k, run length) with inside never decreasing; the run is completed exactly when points + 10k passes the run length, and running otherwise |
| Run.RunFromStart | src/App.js:119-130 | a run started from idle has count min(10k, run length) after k ticks; it completes exactly at tick run length/10 + 1, at a multiple of 10 that is at least the target and at most the target plus 9 |
| Run.CentreTick | src/App.js:65-96 | a Full-mode tick of centre draws keeps every counted point inside |
| Run.CentreRunEstimatesFour | src/App.js:65-96 | in Full mode, if all draws are one half, every point is inside and the published estimate is exactly 4 |
| Engine.Simulator.constructor | src/App.js:10-23 | the fields start at the initial state, which satisfies the invariant |
| Engine.Simulator.Step | src/App.js:57-104 | the tick method moves the fields as `Lifecycle.Tick`, returns the batch's points to plot, and keeps the invariant |
| Engine.Simulator.Complete | src/App.js:58-60 | on a valid state with a pending tick at the target, ending the run clears `isRunning`, sets `isSimulationCompleted` and leaves nothing pending, changing no other field and keeping the invariant |
| Engine.Simulator.Publish | src/App.js:92-103 | given a batch counted into the new totals and the interval the pacing rule gives, publishing sets the counters, outside = points - inside and the estimate, and schedules the next tick after that interval, changing no other field; the new state is exactly `Lifecycle.Tick` of the old one and keeps the invariant |
| Engine.Simulator.ToggleSimulation | src/App.js:119-130 | the button method moves the fields as `Lifecycle.Toggle` and keeps the invariant |
| Engine.Simulator.ResetSimulation | src/App.js:132-142 | the reset method moves the fields as `Lifecycle.Reset` and keeps the invariant |
| Engine.Simulator.HandleTotalPointsChange | src/App.js:144-152 | the selector method moves the fields as `Lifecycle.ChangePointsOption` and keeps the invariant |
| Engine.Simulator.HandleCustomPointsSubmit | src/App.js:154-163 | the submission method moves the fields as `Lifecycle.SubmitCustom`, keeps the invariant, and reports acceptance exactly when the simulation was idle and the parsed value is positive |
| Engine.Simulator.HandleShapeChange | src/App.js:209-212 | the shape method moves the fields as `Lifecycle.ChangeShape` (set the shape, then reset) and keeps the invariant |

## Left out

- Canvas drawing (`drawCircle`, the fill colours, `fillRect`) is rendering. Only the normalised plot position and the classification of each point are modelled, and the outlined arc appears only as the predicate `Geometry.InDrawnArc`.
- Real time, `setTimeout`, `requestAnimationFrame` and `clearTimeout` are not modelled. The pending tick is the abstract `Timer`, and a tick fires only when the model is stepped.
- "Pausing cancels the pending tick" is an idealisation. In the source `clearTimeout` (src/App.js:113, 116) cancels only the timeout stored at line 103. If that timeout has already fired, the `requestAnimationFrame(step)` it queued still runs; `step` never re-reads `isRunning`, so it draws one more batch and schedules a new timeout, and the loop goes on after a pause or reset that lands in that window. The model has no such window.
- React's asynchronous state updates and effect ordering are not modelled. The model treats each handler together with the effect it triggers as one atomic event.
- The stale closure is not modelled. The source's tick loop keeps the `totalPoints`, `isFullCircle` and counters it captured when the loop started; the model reads the current state. The two agree because, with the corrected custom submission, the configuration cannot change while started, and the counters are written back after every batch.
- The first step of a started or resumed loop runs synchronously in the source. The model schedules it as a tick with delay 0.
- `Math.random` is an injected sequence of draws in [0,1). No statistical claim about convergence to pi is made.
- The percentage error `|pi - estimate| / pi * 100` and the `toFixed` formatting are left out. They are floating point and depend on an irrational constant.
- JavaScript floating point in general: the estimate is an exact rational and the fast delay is the real number 0.1.
- `parseInt` is not modelled; the parsed result is the parameter `ParsedInt`. The text of the custom field (`customPointsInput`) and its clearing after a successful submission are not modelled.
- UI only: `scrollIntoView` (on completion, and on pressing the button after completion), `alert`, the JSX layout, `CircleIndicator` and the labels.

## Findings

| source | as written | input that shows it | evidently intended | confidence | as-written member | corrected member |
|---|---|---|---|---|---|---|
| src/App.js:154-163 | `handleCustomPointsSubmit` sets `totalPoints` without checking `isSimulationStarted`. The custom field stays on screen and usable after the start if it was open when the run started. | choose the custom entry, start the run before submitting, let 20 points be drawn, then submit "5": the target becomes 5 while 20 points are already counted, more than 9 past the target | a submission is refused once a run has started, as with the point-count selector, which is disabled at line 174 | medium; not executed | Properties.SubmitCustomAsWrittenMovesTarget (about Lifecycle.SubmitCustomAsWritten) | Properties.SubmitCustomGuarded (about Lifecycle.SubmitCustom, which Engine.Simulator.HandleCustomPointsSubmit uses) |
