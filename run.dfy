/** A whole run: the ticks that fire one after another, each with its own
    batch of draws, and where they leave the counters. */
module Run {
  import opened Geometry
  import opened Batch
  import opened Lifecycle
  import opened Properties

  predicate AllBatchDraws(batches: seq<seq<real>>) {
    forall k :: 0 <= k < |batches| ==> IsBatchDraw(batches[k])
  }

  /** The state after one tick per element of `batches`, in order. */
  function Ticks(s: Sim, batches: seq<seq<real>>): Sim
    requires AllBatchDraws(batches)
    decreases |batches|
  {
    if batches == [] then s else Ticks(Tick(s, batches[0]), batches[1..])
  }

  function Min(a: int, b: int): int {
    if a <= b then a else b
  }

  /** Without a pending tick, no number of ticks changes anything. */
  lemma {:induction false} TicksWithoutPendingTick(s: Sim, batches: seq<seq<real>>)
    requires AllBatchDraws(batches) && !s.animation.Scheduled?
    ensures Ticks(s, batches) == s
    decreases |batches|
  {
    if batches != [] {
      TicksWithoutPendingTick(Tick(s, batches[0]), batches[1..]);
    }
  }

  /** Ticks compose: the ticks of `a` then those of `b` are the ticks of `a + b`. */
  lemma {:induction false} TicksAppend(s: Sim, a: seq<seq<real>>, b: seq<seq<real>>)
    requires AllBatchDraws(a) && AllBatchDraws(b)
    ensures AllBatchDraws(a + b)
    ensures Ticks(s, a + b) == Ticks(Ticks(s, a), b)
    decreases |a|
  {
    assert AllBatchDraws(a + b) by {
      forall k | 0 <= k < |a + b| ensures IsBatchDraw((a + b)[k]) {
        if k < |a| { assert (a + b)[k] == a[k]; } else { assert (a + b)[k] == b[k - |a|]; }
      }
    }
    if a != [] {
      var rest := a[1..];
      assert AllBatchDraws(rest) by {
        forall k | 0 <= k < |rest| ensures IsBatchDraw(rest[k]) {
          assert rest[k] == a[k + 1];
        }
      }
      assert (a + b)[0] == a[0] && (a + b)[1..] == rest + b;
      TicksAppend(Tick(s, a[0]), rest, b);
    } else {
      assert a + b == b;
    }
  }

  /** Every number of ticks keeps the invariant. */
  lemma {:induction false} TicksKeepInv(s: Sim, batches: seq<seq<real>>)
    requires Inv(s) && AllBatchDraws(batches)
    ensures Inv(Ticks(s, batches))
    decreases |batches|
  {
    if batches != [] {
      var rest := batches[1..];
      assert AllBatchDraws(rest) by {
        forall k | 0 <= k < |rest| ensures IsBatchDraw(rest[k]) {
          assert rest[k] == batches[k + 1];
        }
      }
      TickKeepsInv(s, batches[0]);
      TicksKeepInv(Tick(s, batches[0]), rest);
    }
  }

  /** Once the pending tick runs at the fast interval, every later tick of the
      run is scheduled at the fast interval too, until the run completes and
      nothing is scheduled: the loop's pacing switch never reverts. */
  lemma {:induction false} FastPacingSticks(s: Sim, batches: seq<seq<real>>)
    requires Inv(s) && AllBatchDraws(batches)
    requires s.animation == Scheduled(FastInterval, FastInterval)
    ensures var a := Ticks(s, batches).animation;
      a == NoTick || a == Scheduled(FastInterval, FastInterval)
    decreases |batches|
  {
    if batches != [] {
      var t := Tick(s, batches[0]);
      var rest := batches[1..];
      assert AllBatchDraws(rest) by {
        forall k | 0 <= k < |rest| ensures IsBatchDraw(rest[k]) {
          assert rest[k] == batches[k + 1];
        }
      }
      TickKeepsInv(s, batches[0]);
      TickKeepsFastPacing(s, batches[0]);
      if t.animation.Scheduled? {
        FastPacingSticks(t, rest);
      } else {
        TicksWithoutPendingTick(t, rest);
      }
    }
  }

  /** Along one sequence of ticks: if the state after the first i ticks has the
      fast tick pending, then after any j >= i ticks the pending tick is fast or
      there is none. */
  lemma FastPacingNeverReverts(s: Sim, batches: seq<seq<real>>, i: nat, j: nat)
    requires Inv(s) && AllBatchDraws(batches) && i <= j <= |batches|
    requires AllBatchDraws(batches[..i]) && AllBatchDraws(batches[..j])
    requires Ticks(s, batches[..i]).animation == Scheduled(FastInterval, FastInterval)
    ensures var a := Ticks(s, batches[..j]).animation;
      a == NoTick || a == Scheduled(FastInterval, FastInterval)
  {
    var pre, mid := batches[..i], batches[i..j];
    assert AllBatchDraws(mid) by {
      forall k | 0 <= k < |mid| ensures IsBatchDraw(mid[k]) {
        assert mid[k] == batches[i + k];
      }
    }
    assert batches[..j] == pre + mid;
    TicksAppend(s, pre, mid);
    TicksKeepInv(s, pre);
    FastPacingSticks(Ticks(s, pre), mid);
  }

  /** From a running state, k ticks advance the count by k batches until the run
      length is reached, and the tick after that completes the run; the count
      never passes the run length, and the inside count never decreases. */
  lemma {:induction false} TicksProgress(s: Sim, batches: seq<seq<real>>)
    requires Inv(s) && Phase(s) == Running && AllBatchDraws(batches)
    ensures var r := Ticks(s, batches);
      && Inv(r)
      && r.totalPoints == s.totalPoints && r.shape == s.shape
      && r.currentPoints == Min(s.currentPoints + BatchSize * |batches|, RunLength(s.totalPoints))
      && s.insideCircle <= r.insideCircle
      && (Phase(r) == Completed <==> s.currentPoints + BatchSize * |batches| > RunLength(s.totalPoints))
      && (Phase(r) != Completed ==> Phase(r) == Running)
    decreases |batches|
  {
    if batches != [] {
      var t := Tick(s, batches[0]);
      var rest := batches[1..];
      assert AllBatchDraws(rest) by {
        forall k | 0 <= k < |rest| ensures IsBatchDraw(rest[k]) {
          assert rest[k] == batches[k + 1];
        }
      }
      TickKeepsInv(s, batches[0]);
      if s.currentPoints < s.totalPoints {
        TickAdvances(s, batches[0]);
        TicksProgress(t, rest);
      } else {
        TickCompletes(s, batches[0]);
        TicksWithoutPendingTick(t, rest);
      }
    }
  }

  /** A run started from idle: after k ticks the count is
      min(10k, run length); it completes exactly on tick run length/10 + 1,
      at the smallest multiple of the batch size that reaches the target,
      which is less than a batch past it. */
  lemma RunFromStart(s: Sim, batches: seq<seq<real>>)
    requires Inv(s) && Phase(s) == Idle && AllBatchDraws(batches)
    ensures var r := Ticks(Toggle(s), batches);
      && r.currentPoints == Min(BatchSize * |batches|, RunLength(s.totalPoints))
      && (Phase(r) == Completed <==> |batches| > RunLength(s.totalPoints) / BatchSize)
      && (Phase(r) == Completed ==>
            && r.currentPoints % BatchSize == 0
            && s.totalPoints <= r.currentPoints < s.totalPoints + BatchSize)
  {
    ToggleKeepsInv(s);
    TicksProgress(Toggle(s), batches);
  }

  /** One tick of centre draws keeps every counted point inside. */
  lemma CentreTick(s: Sim, b: seq<real>)
    requires Inv(s) && s.shape == Full && s.insideCircle == s.currentPoints
    requires IsBatchDraw(b) && forall i :: 0 <= i < |b| ==> b[i] == 0.5
    ensures var t := Tick(s, b);
      Inv(t) && t.shape == Full && t.insideCircle == t.currentPoints
  {
    assert |b| % 2 == 0 && Draws(b);
    CentreDrawsAllInside(b);
    TickKeepsInv(s, b);
    if s.animation.Scheduled? && s.currentPoints < s.totalPoints {
      var t := Tick(s, b);
      assert t.insideCircle == s.insideCircle + CountInside(BatchPlots(Full, b));
      assert t.currentPoints == s.currentPoints + BatchSize;
    }
  }

  /** In Full mode, draws that all equal one half put every point at the
      centre: every point counts as inside and the published estimate is 4. */
  lemma {:induction false} CentreRunEstimatesFour(s: Sim, batches: seq<seq<real>>)
    requires Inv(s) && s.shape == Full && s.insideCircle == s.currentPoints
    requires AllBatchDraws(batches)
    requires forall k, i :: 0 <= k < |batches| && 0 <= i < |batches[k]| ==> batches[k][i] == 0.5
    ensures var r := Ticks(s, batches);
      && Inv(r) && r.insideCircle == r.currentPoints
      && (r.currentPoints > 0 ==> r.estimatedPi == 4.0)
    decreases |batches|
  {
    if batches != [] {
      var b := batches[0];
      var rest := batches[1..];
      assert AllBatchDraws(rest) by {
        forall k | 0 <= k < |rest| ensures IsBatchDraw(rest[k]) {
          assert rest[k] == batches[k + 1];
        }
      }
      assert forall k, i :: 0 <= k < |rest| && 0 <= i < |rest[k]| ==> rest[k][i] == 0.5 by {
        forall k, i | 0 <= k < |rest| && 0 <= i < |rest[k]| ensures rest[k][i] == 0.5 {
          assert rest[k] == batches[k + 1];
        }
      }
      CentreTick(s, b);
      CentreRunEstimatesFour(Tick(s, b), rest);
    }
    var r := Ticks(s, batches);
    if r.currentPoints > 0 {
      EstimateMeaning(Full, r.insideCircle, r.currentPoints);
    }
  }
}
