/** The simulator's state and every event that changes it: a scheduled tick
    firing, the start/pause/resume button, the reset button, the point-count
    selector, the custom point-count entry and the shape selector. Each event
    is a function from the state before to the state after; `Inv` is the
    invariant every reachable state satisfies. */
module Lifecycle {
  import opened Geometry
  import opened Batch

  /** The point count selected when the page opens. */
  const DefaultTotal: int := 30000

  /** The tick delays: slow in the first half of a run, fast afterwards. */
  const SlowInterval: real := 50.0
  const FastInterval: real := 0.1

  /** The pending tick, if any. `delay` is the wait before it fires (0 for the
      step that starting or resuming runs at once); `interval` is the pacing
      variable of the tick loop that scheduled it, which a fresh loop sets to
      the slow interval. Cancelling the tick discards both. */
  datatype Timer = NoTick | Scheduled(delay: real, interval: real)

  /** The component's state, one field per state variable (the percentage error
      and the text of the custom entry are not modelled), plus the pending tick. */
  datatype Sim = Sim(
    totalPoints: int,
    shape: Shape,
    currentPoints: nat,
    insideCircle: nat,
    outsideCircle: int,
    estimatedPi: real,
    isRunning: bool,
    isSimulationStarted: bool,
    isSimulationCompleted: bool,
    showCustomInput: bool,
    animation: Timer)

  /** The lifecycle phase the three flags encode. */
  datatype RunState = Idle | Running | Paused | Completed

  function Phase(s: Sim): RunState {
    if !s.isSimulationStarted then Idle
    else if s.isSimulationCompleted then Completed
    else if s.isRunning then Running
    else Paused
  }

  /** The state when the page opens. */
  function Init(): Sim {
    Sim(DefaultTotal, Full, 0, 0, 0, 0.0, false, false, false, false, NoTick)
  }

  /** `points > totalPoints / 2`, the test that switches to the fast interval. */
  predicate PastMidpoint(points: int, total: int) {
    (points as real) > (total as real) / 2.0
  }

  /** The pacing rule: the delay that belongs after a batch ending at `points`. */
  function Delay(points: int, total: int): real {
    if PastMidpoint(points, total) then FastInterval else SlowInterval
  }

  /** Where a run that starts from zero stops: the smallest multiple of the
      batch size that reaches the target. */
  function RunLength(total: int): (n: nat)
    requires total > 0
    ensures n % BatchSize == 0
    ensures total <= n < total + BatchSize
  {
    ((total + BatchSize - 1) / BatchSize) * BatchSize
  }

  lemma RunLengthIsLeast(total: int, m: int)
    requires total > 0 && m % BatchSize == 0 && total <= m
    ensures RunLength(total) <= m
  {
  }

  /** The invariant of every reachable state. */
  ghost predicate Inv(s: Sim) {
    && s.totalPoints > 0
    // counters: multiples of the batch size, never past the run length
    && s.insideCircle <= s.currentPoints
    && s.currentPoints % BatchSize == 0
    && s.currentPoints <= RunLength(s.totalPoints)
    && s.outsideCircle == s.currentPoints - s.insideCircle
    && s.estimatedPi == (if s.currentPoints == 0 then 0.0
                         else Estimate(s.shape, s.insideCircle, s.currentPoints))
    // flags
    && (s.isRunning ==> s.isSimulationStarted)
    && (s.isSimulationCompleted ==> s.isSimulationStarted && !s.isRunning)
    && (!s.isSimulationStarted ==> s.currentPoints == 0)
    && (s.isSimulationCompleted ==> s.currentPoints == RunLength(s.totalPoints))
    // at most one tick is pending, and only while running
    && (s.animation.Scheduled? <==> s.isRunning)
    && (s.animation.Scheduled? ==>
          && (s.animation.interval == SlowInterval || s.animation.interval == FastInterval)
          && (s.animation.interval == FastInterval ==> PastMidpoint(s.currentPoints, s.totalPoints)))
  }

  /** The pending tick fires. A cancelled tick never fires, so with nothing
      pending nothing changes. A tick that finds the target reached completes
      the run and schedules nothing; otherwise it draws one batch, publishes
      the counters and the estimate, and schedules the next tick. */
  function Tick(s: Sim, rand: seq<real>): Sim
    requires IsBatchDraw(rand)
  {
    if !s.animation.Scheduled? then s
    else if s.currentPoints >= s.totalPoints then
      s.(isRunning := false, isSimulationCompleted := true, animation := NoTick)
    else
      var points := s.currentPoints + BatchSize;
      var inside := s.insideCircle + CountInside(BatchPlots(s.shape, rand));
      var interval := if PastMidpoint(points, s.totalPoints) then FastInterval
                      else s.animation.interval;
      s.(currentPoints := points, insideCircle := inside, outsideCircle := points - inside,
         estimatedPi := Estimate(s.shape, inside, points),
         animation := Scheduled(interval, interval))
  }

  /** The render notifications of the tick: the batch's points, or none. */
  function TickPlots(s: Sim, rand: seq<real>): seq<Plot>
    requires IsBatchDraw(rand)
  {
    if s.animation.Scheduled? && s.currentPoints < s.totalPoints then BatchPlots(s.shape, rand)
    else []
  }

  /** The start/pause/resume button. Once completed it changes nothing; before
      the start it starts the run; otherwise it flips `isRunning`. Setting it
      starts a fresh tick loop whose first step runs at once; clearing it
      cancels the pending tick. */
  function Toggle(s: Sim): Sim {
    if s.isSimulationCompleted then s
    else if !s.isSimulationStarted then
      s.(isSimulationStarted := true, isRunning := true, isSimulationCompleted := false,
         animation := Scheduled(0.0, SlowInterval))
    else if s.isRunning then
      s.(isRunning := false, animation := NoTick)
    else
      s.(isRunning := true, animation := Scheduled(0.0, SlowInterval))
  }

  /** The reset button: clears the flags and the counters from any state; the
      tick loop stops with `isRunning`. */
  function Reset(s: Sim): Sim {
    s.(isRunning := false, isSimulationStarted := false, isSimulationCompleted := false,
       currentPoints := 0, insideCircle := 0, outsideCircle := 0, estimatedPi := 0.0,
       animation := NoTick)
  }

  /** An entry of the point-count selector: one of its numeric options, or the
      entry that opens the custom field. */
  datatype PointsOption = Preset(n: int) | CustomEntry

  /** The options the selector lists: the three fixed counts and the current count. */
  predicate Offered(s: Sim, o: PointsOption) {
    o.Preset? ==> o.n in {10000, 20000, 30000} || o.n == s.totalPoints
  }

  /** Choosing an entry of the point-count selector, which is disabled once a
      run has started. */
  function ChangePointsOption(s: Sim, o: PointsOption): Sim
    requires Offered(s, o)
  {
    if s.isSimulationStarted then s
    else match o
      case CustomEntry => s.(showCustomInput := true)
      case Preset(n) => s.(showCustomInput := false, totalPoints := n)
  }

  /** The result of parsing the custom field. */
  datatype ParsedInt = NotANumber | Int(value: int)

  /** Submitting the custom field, as the handler is written: it checks only
      that the text parsed to a positive integer. The field stays usable after
      the start when it was open at the start, so nothing stops a started run's
      target from changing. */
  function SubmitCustomAsWritten(s: Sim, parsed: ParsedInt): Sim {
    if parsed.Int? && parsed.value > 0 then
      s.(totalPoints := parsed.value, showCustomInput := false)
    else s
  }

  /** Submitting the custom field with the guard the point-count selector has:
      refused once a run has started, and refused unless the text parsed to a
      positive integer. A refusal changes nothing. */
  function SubmitCustom(s: Sim, parsed: ParsedInt): Sim {
    if !s.isSimulationStarted && parsed.Int? && parsed.value > 0 then
      s.(totalPoints := parsed.value, showCustomInput := false)
    else s
  }

  /** Choosing a shape, which the disabled selector allows only before the
      start; the change resets the simulation. */
  function ChangeShape(s: Sim, shape: Shape): Sim {
    if s.isSimulationStarted then s
    else Reset(s.(shape := shape))
  }
}
