/** What each event of the simulator guarantees: the invariant is kept, a tick
    advances by exactly one batch or completes the run, the pacing rule, the
    button's transitions, reset, and the configuration guards. */
module Properties {
  import opened Geometry
  import opened Batch
  import opened Lifecycle

  /** The configuration and the published statistics agree in two states. */
  predicate SameCounters(a: Sim, b: Sim) {
    && a.totalPoints == b.totalPoints && a.shape == b.shape
    && a.currentPoints == b.currentPoints && a.insideCircle == b.insideCircle
    && a.outsideCircle == b.outsideCircle && a.estimatedPi == b.estimatedPi
  }

  /** Counters that are multiples of the batch size and stay within the run
      length are exactly the run length once they reach the target. */
  lemma AtTargetIsRunLength(points: int, total: int)
    requires total > 0 && 0 <= points && points % BatchSize == 0
    requires total <= points <= RunLength(total)
    ensures points == RunLength(total)
  {
    RunLengthIsLeast(total, points);
  }

  /** Counters below the target leave room for one more whole batch. */
  lemma BelowTargetHasRoom(points: int, total: int)
    requires total > 0 && 0 <= points && points % BatchSize == 0 && points < total
    ensures points + BatchSize <= RunLength(total)
  {
    var n := RunLength(total);
    assert (n - points) % BatchSize == 0;
  }

  /** The count after one more batch is still a multiple of the batch size
      (kept as a separate fact: stated inline, the modulus makes the invariant
      proof of a tick much more expensive for the solver). */
  lemma NextBatchMultiple(points: int)
    requires points % BatchSize == 0
    ensures (points + BatchSize) % BatchSize == 0
  {
  }

  lemma InitIsIdle()
    ensures Inv(Init()) && Phase(Init()) == Idle
    ensures Init().currentPoints == 0 && Init().estimatedPi == 0.0
  {
  }

  /** The published statistics stay consistent: the outside count
      complements the inside count and the estimate lies in [0, factor]. */
  lemma StatisticsConsistent(s: Sim)
    requires Inv(s)
    ensures 0 <= s.insideCircle <= s.currentPoints
    ensures s.outsideCircle >= 0 && s.insideCircle + s.outsideCircle == s.currentPoints
    ensures 0.0 <= s.estimatedPi <= Factor(s.shape)
    ensures s.currentPoints == 0 ==> s.estimatedPi == 0.0
  {
    if s.currentPoints > 0 {
      EstimateMeaning(s.shape, s.insideCircle, s.currentPoints);
    }
  }

  // ---- ticks ----

  lemma TickKeepsInv(s: Sim, rand: seq<real>)
    requires Inv(s) && IsBatchDraw(rand)
    ensures Inv(Tick(s, rand))
  {
    if s.animation.Scheduled? {
      if s.currentPoints >= s.totalPoints {
        AtTargetIsRunLength(s.currentPoints, s.totalPoints);
      } else {
        BelowTargetHasRoom(s.currentPoints, s.totalPoints);
        NextBatchMultiple(s.currentPoints);
      }
    }
  }

  /** A tick below the target adds exactly one batch, of which between none and
      all are inside, keeps running, and schedules the next tick with the delay
      the pacing rule gives for the new count: the loop's sticky interval
      variable always equals the stateless rule. */
  lemma TickAdvances(s: Sim, rand: seq<real>)
    requires Inv(s) && IsBatchDraw(rand)
    requires Phase(s) == Running && s.currentPoints < s.totalPoints
    ensures var t := Tick(s, rand);
      && t.currentPoints == s.currentPoints + BatchSize
      && s.insideCircle <= t.insideCircle <= s.insideCircle + BatchSize
      && t.outsideCircle == t.currentPoints - t.insideCircle
      && t.estimatedPi == Estimate(s.shape, t.insideCircle, t.currentPoints)
      && t.totalPoints == s.totalPoints && t.shape == s.shape
      && Phase(t) == Running
      && t.animation == Scheduled(Delay(t.currentPoints, s.totalPoints),
                                  Delay(t.currentPoints, s.totalPoints))
  {
    var t := Tick(s, rand);
    assert t.currentPoints > s.currentPoints;
    if s.animation.interval == FastInterval {
      assert PastMidpoint(t.currentPoints, s.totalPoints);
    }
  }

  /** A tick that finds the target reached changes no counter, ends the run
      and schedules nothing; the run has then stopped at its run length. */
  lemma TickCompletes(s: Sim, rand: seq<real>)
    requires Inv(s) && IsBatchDraw(rand)
    requires Phase(s) == Running && s.currentPoints >= s.totalPoints
    ensures var t := Tick(s, rand);
      && SameCounters(t, s)
      && Phase(t) == Completed && !t.isRunning && t.animation == NoTick
      && t.currentPoints == RunLength(s.totalPoints)
      && t.currentPoints < s.totalPoints + BatchSize
  {
    AtTargetIsRunLength(s.currentPoints, s.totalPoints);
  }

  /** Only a running simulation has a pending tick, so in every other phase a
      tick changes nothing. */
  lemma TickOnlyWhileRunning(s: Sim, rand: seq<real>)
    requires Inv(s) && IsBatchDraw(rand)
    requires Phase(s) != Running
    ensures Tick(s, rand) == s
  {
  }

  /** The switch to the fast interval happens once: it never reverts as the
      count grows. */
  lemma DelayNeverReverts(p1: int, p2: int, total: int)
    requires p1 <= p2 && Delay(p1, total) == FastInterval
    ensures Delay(p2, total) == FastInterval
  {
  }

  /** A tick fired at the fast interval schedules the next one at the fast
      interval too, or ends the run. */
  lemma TickKeepsFastPacing(s: Sim, rand: seq<real>)
    requires Inv(s) && IsBatchDraw(rand)
    requires s.animation.Scheduled? && s.animation.interval == FastInterval
    ensures var a := Tick(s, rand).animation;
      a == NoTick || a == Scheduled(FastInterval, FastInterval)
  {
  }

  // ---- the start/pause/resume button ----

  lemma ToggleKeepsInv(s: Sim)
    requires Inv(s)
    ensures Inv(Toggle(s))
  {
  }

  /** The button's four transitions; none of them touches a counter. */
  lemma ToggleTransitions(s: Sim)
    requires Inv(s)
    ensures SameCounters(Toggle(s), s)
    ensures Phase(s) == Completed ==> Toggle(s) == s
    ensures Phase(s) == Idle ==> Phase(Toggle(s)) == Running && Toggle(s).currentPoints == 0
    ensures Phase(s) == Running ==> Phase(Toggle(s)) == Paused && Toggle(s).animation == NoTick
    ensures Phase(s) == Paused ==>
              Phase(Toggle(s)) == Running && Toggle(s).animation == Scheduled(0.0, SlowInterval)
  {
  }

  /** Pausing and resuming restores the state except that a fresh tick loop
      starts, at once and at the slow interval; in between, ticks do nothing.
      Pressing the button a second time after the start therefore pauses the
      run rather than restarting it. */
  lemma PauseResume(s: Sim, rand: seq<real>)
    requires Inv(s) && IsBatchDraw(rand) && Phase(s) == Running
    ensures Tick(Toggle(s), rand) == Toggle(s)
    ensures Toggle(Toggle(s)) == s.(animation := Scheduled(0.0, SlowInterval))
  {
  }

  // ---- reset ----

  /** Reset from any state: idle, counters and estimate zero, no tick pending,
      configuration kept; it keeps the invariant and is idempotent. */
  lemma ResetZeroes(s: Sim)
    ensures var r := Reset(s);
      && Phase(r) == Idle && !r.isRunning && !r.isSimulationCompleted
      && r.currentPoints == 0 && r.insideCircle == 0 && r.outsideCircle == 0
      && r.estimatedPi == 0.0 && r.animation == NoTick
      && r.totalPoints == s.totalPoints && r.shape == s.shape
    ensures Reset(Reset(s)) == Reset(s)
    ensures s.totalPoints > 0 ==> Inv(Reset(s))
  {
  }

  // ---- configuration ----

  /** The point-count selector does nothing once started; before the start a
      numeric option becomes the target and closes the custom field. */
  lemma ChangePointsOptionGuarded(s: Sim, o: PointsOption)
    requires Inv(s) && Offered(s, o)
    ensures Inv(ChangePointsOption(s, o))
    ensures Phase(s) != Idle ==> ChangePointsOption(s, o) == s
    ensures Phase(s) == Idle && o.Preset? ==>
              ChangePointsOption(s, o).totalPoints == o.n && !ChangePointsOption(s, o).showCustomInput
    ensures SameCounters(ChangePointsOption(s, o).(totalPoints := s.totalPoints), s)
  {
  }

  /** A custom count is accepted exactly when the simulation is idle and the
      text parsed to a positive integer; a refusal changes nothing. */
  lemma SubmitCustomGuarded(s: Sim, parsed: ParsedInt)
    requires Inv(s)
    ensures var t := SubmitCustom(s, parsed);
      && Inv(t)
      && (Phase(s) == Idle && parsed.Int? && parsed.value > 0 ==>
            t.totalPoints == parsed.value && !t.showCustomInput)
      && (!(Phase(s) == Idle && parsed.Int? && parsed.value > 0) ==> t == s)
      && SameCounters(t.(totalPoints := s.totalPoints), s)
  {
  }

  /** Before the start the guarded and the written handler agree. */
  lemma SubmitCustomAgreesBeforeStart(s: Sim, parsed: ParsedInt)
    requires Phase(s) == Idle
    ensures SubmitCustom(s, parsed) == SubmitCustomAsWritten(s, parsed)
  {
  }

  /** As written, a custom count submitted during a run replaces the running
      target: here a run at 20 points gets the target 5, so the run ends
      more than a batch past its target and the invariant is lost. */
  lemma SubmitCustomAsWrittenMovesTarget()
    ensures var s := Sim(30000, Full, 20, 20, 0, 4.0, true, true, false, true,
                         Scheduled(SlowInterval, SlowInterval));
      && Inv(s) && Phase(s) == Running
      && var t := SubmitCustomAsWritten(s, Int(5));
      && Phase(t) == Running && t.totalPoints == 5
      && t.currentPoints >= t.totalPoints + BatchSize
      && !Inv(t)
  {
    var s := Sim(30000, Full, 20, 20, 0, 4.0, true, true, false, true,
                 Scheduled(SlowInterval, SlowInterval));
    assert Estimate(Full, 20, 20) == 4.0;
    assert RunLength(5) == 10;
  }

  /** The shape selector does nothing once started; before the start it sets
      the shape and resets. */
  lemma ChangeShapeGuarded(s: Sim, shape: Shape)
    requires Inv(s)
    ensures Inv(ChangeShape(s, shape))
    ensures Phase(s) != Idle ==> ChangeShape(s, shape) == s
    ensures Phase(s) == Idle ==> ChangeShape(s, shape) == Reset(s).(shape := shape)
  {
  }
}
