/** The simulator component as an object: one field per state variable and the
    pending-tick handle, and one method per event, each proved to move the
    fields exactly as the corresponding function of Lifecycle says. */
module Engine {
  import opened Geometry
  import opened Batch
  import opened Lifecycle
  import opened Properties

  class Simulator {
    var totalPoints: int
    var shape: Shape
    var currentPoints: nat
    var insideCircle: nat
    var outsideCircle: int
    var estimatedPi: real
    var isRunning: bool
    var isSimulationStarted: bool
    var isSimulationCompleted: bool
    var showCustomInput: bool
    var animation: Timer

    /** The fields as a value. */
    function State(): Sim
      reads this
    {
      Sim(totalPoints, shape, currentPoints, insideCircle, outsideCircle, estimatedPi,
          isRunning, isSimulationStarted, isSimulationCompleted, showCustomInput, animation)
    }

    ghost predicate Valid()
      reads this
    {
      Inv(State())
    }

    constructor ()
      ensures Valid() && State() == Init()
    {
      totalPoints, shape := DefaultTotal, Full;
      currentPoints, insideCircle, outsideCircle, estimatedPi := 0, 0, 0, 0.0;
      isRunning, isSimulationStarted, isSimulationCompleted := false, false, false;
      showCustomInput, animation := false, NoTick;
    }

    /** The pending tick fires with the draws `rand`; returns the points to plot. */
    method Step(rand: seq<real>) returns (plots: seq<Plot>)
      requires Valid() && IsBatchDraw(rand)
      modifies this
      ensures Valid()
      ensures State() == Tick(old(State()), rand)
      ensures plots == TickPlots(old(State()), rand)
    {
      if !animation.Scheduled? {
        return [];
      }
      if currentPoints >= totalPoints {
        Complete();
        return [];
      }
      var points, inside;
      points, inside, plots := DrawBatch(shape, currentPoints, insideCircle, rand);
      var interval := animation.interval;
      if PastMidpoint(points, totalPoints) {
        interval := FastInterval;
      }
      Publish(rand, points, inside, interval);
    }

    /** The tick that finds the target reached: stop running, mark the run
        completed, schedule nothing. */
    method Complete()
      requires Valid() && animation.Scheduled? && currentPoints >= totalPoints
      modifies this
      ensures Valid()
      ensures State() == old(State()).(isRunning := false, isSimulationCompleted := true,
                                       animation := NoTick)
    {
      AtTargetIsRunLength(currentPoints, totalPoints);
      isRunning, isSimulationCompleted, animation := false, true, NoTick;
    }

    /** The tick below the target, once its batch of draws `rand` has been
        counted into `points` and `inside`: publish the counters and the
        estimate, and schedule the next tick after `interval`. */
    method Publish(ghost rand: seq<real>, points: nat, inside: nat, interval: real)
      requires Valid() && IsBatchDraw(rand) && animation.Scheduled? && currentPoints < totalPoints
      requires points == currentPoints + BatchSize
      requires inside == insideCircle + CountInside(BatchPlots(shape, rand))
      requires interval == if PastMidpoint(points, totalPoints) then FastInterval
                           else animation.interval
      modifies this
      ensures Valid()
      ensures State() == old(State()).(currentPoints := points, insideCircle := inside,
                                       outsideCircle := points - inside,
                                       estimatedPi := Estimate(old(shape), inside, points),
                                       animation := Scheduled(interval, interval))
      ensures State() == Tick(old(State()), rand)
    {
      TickKeepsInv(State(), rand);
      currentPoints, insideCircle, outsideCircle, estimatedPi, animation :=
        points, inside, points - inside, Estimate(shape, inside, points), Scheduled(interval, interval);
    }

    /** The start/pause/resume button. */
    method ToggleSimulation()
      requires Valid()
      modifies this
      ensures Valid()
      ensures State() == Toggle(old(State()))
    {
      ToggleKeepsInv(State());
      if isSimulationCompleted {
        // only brings the result into view
      } else if !isSimulationStarted {
        isSimulationStarted, isRunning, isSimulationCompleted := true, true, false;
        animation := Scheduled(0.0, SlowInterval);
      } else if isRunning {
        isRunning, animation := false, NoTick;
      } else {
        isRunning, animation := true, Scheduled(0.0, SlowInterval);
      }
    }

    /** The reset button. */
    method ResetSimulation()
      requires Valid()
      modifies this
      ensures Valid()
      ensures State() == Reset(old(State()))
    {
      ResetZeroes(State());
      isRunning, isSimulationStarted, isSimulationCompleted,
        currentPoints, insideCircle, outsideCircle, estimatedPi, animation :=
        false, false, false, 0, 0, 0, 0.0, NoTick;
    }

    /** Choosing an entry of the point-count selector. */
    method HandleTotalPointsChange(o: PointsOption)
      requires Valid() && Offered(State(), o)
      modifies this
      ensures Valid()
      ensures State() == ChangePointsOption(old(State()), o)
    {
      ChangePointsOptionGuarded(State(), o);
      if isSimulationStarted {
        return;
      }
      match o
      case CustomEntry =>
        showCustomInput := true;
      case Preset(n) =>
        showCustomInput, totalPoints := false, n;
    }

    /** Submitting the custom point count; returns whether it was accepted. */
    method HandleCustomPointsSubmit(parsed: ParsedInt) returns (accepted: bool)
      requires Valid()
      modifies this
      ensures Valid()
      ensures State() == SubmitCustom(old(State()), parsed)
      ensures accepted <==> !old(isSimulationStarted) && parsed.Int? && parsed.value > 0
    {
      SubmitCustomGuarded(State(), parsed);
      accepted := !isSimulationStarted && parsed.Int? && parsed.value > 0;
      if accepted {
        totalPoints, showCustomInput := parsed.value, false;
      }
    }

    /** Choosing a shape: sets it and resets, unless a run has started. */
    method HandleShapeChange(newShape: Shape)
      requires Valid()
      modifies this
      ensures Valid()
      ensures State() == ChangeShape(old(State()), newShape)
    {
      ChangeShapeGuarded(State(), newShape);
      if isSimulationStarted {
        return;
      }
      shape := newShape;
      ResetSimulation();
    }
  }
}
