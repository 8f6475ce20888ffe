/** One tick's batch of samples and the running statistics it feeds: the
    sampled points in draw order, how many of them fall inside, and the
    published estimate of pi. */
module Batch {
  import opened Geometry

  /** Points sampled per tick. */
  const BatchSize: nat := 10

  /** Calls of the random source per tick: an x and a y for every point. */
  const DrawsPerTick: nat := 2 * BatchSize

  /** The draws handed to one tick: exactly as many as it consumes, each in [0,1). */
  predicate IsBatchDraw(rand: seq<real>) {
    |rand| == DrawsPerTick && Draws(rand)
  }

  predicate Draws(rand: seq<real>) {
    forall i :: 0 <= i < |rand| ==> UnitDraw(rand[i])
  }

  /** The points of a batch in draw order: point k uses draws 2k and 2k+1. */
  function BatchPlots(shape: Shape, rand: seq<real>): (r: seq<Plot>)
    requires |rand| % 2 == 0 && Draws(rand)
    ensures |r| == |rand| / 2
    decreases |rand|
  {
    if |rand| == 0 then []
    else
      var n := |rand|;
      BatchPlots(shape, rand[..n - 2]) + [Classify(shape, rand[n - 2], rand[n - 1])]
  }

  /** Point k of a batch is the one sampled from draws 2k and 2k+1, so it is
      plotted within the unit canvas. */
  lemma {:induction false} BatchPlotsAt(shape: Shape, rand: seq<real>, k: nat)
    requires |rand| % 2 == 0 && Draws(rand)
    requires k < |rand| / 2
    ensures BatchPlots(shape, rand)[k] == Classify(shape, rand[2 * k], rand[2 * k + 1])
    ensures 0.0 <= BatchPlots(shape, rand)[k].px <= 1.0 && 0.0 <= BatchPlots(shape, rand)[k].py <= 1.0
    decreases |rand|
  {
    var n := |rand|;
    if k < n / 2 - 1 {
      var prefix := rand[..n - 2];
      assert prefix[2 * k] == rand[2 * k] && prefix[2 * k + 1] == rand[2 * k + 1];
      BatchPlotsAt(shape, prefix, k);
    }
  }

  /** Extending the draws by one pair extends the batch by one point. */
  lemma BatchPlotsSnoc(shape: Shape, rand: seq<real>, i: nat)
    requires Draws(rand) && 2 * i + 2 <= |rand|
    ensures BatchPlots(shape, rand[..2 * i + 2])
         == BatchPlots(shape, rand[..2 * i]) + [Classify(shape, rand[2 * i], rand[2 * i + 1])]
  {
    var next := rand[..2 * i + 2];
    assert next[..|next| - 2] == rand[..2 * i];
  }

  /** The number of points classified inside. */
  function CountInside(plots: seq<Plot>): (n: nat)
    ensures n <= |plots|
  {
    if plots == [] then 0
    else CountInside(plots[..|plots| - 1]) + (if plots[|plots| - 1].inside then 1 else 0)
  }

  lemma CountInsideSnoc(plots: seq<Plot>, q: Plot)
    ensures CountInside(plots + [q]) == CountInside(plots) + (if q.inside then 1 else 0)
  {
    assert (plots + [q])[..|plots|] == plots;
  }

  /** All points of a batch are inside exactly when the count is the batch's
      length, and none is exactly when the count is zero. */
  lemma {:induction false} CountInsideExtremes(plots: seq<Plot>)
    ensures CountInside(plots) == |plots| <==> forall k :: 0 <= k < |plots| ==> plots[k].inside
    ensures CountInside(plots) == 0 <==> forall k :: 0 <= k < |plots| ==> !plots[k].inside
  {
    if plots != [] {
      var init := plots[..|plots| - 1];
      CountInsideExtremes(init);
      assert forall k :: 0 <= k < |init| ==> init[k] == plots[k];
    }
  }

  /** Draws of exactly one half put every Full-mode point at the centre, so
      the whole batch lands inside. */
  lemma CentreDrawsAllInside(rand: seq<real>)
    requires |rand| % 2 == 0 && Draws(rand)
    requires forall i :: 0 <= i < |rand| ==> rand[i] == 0.5
    ensures CountInside(BatchPlots(Full, rand)) == |rand| / 2
  {
    var plots := BatchPlots(Full, rand);
    forall k | 0 <= k < |plots| ensures plots[k].inside {
      assert 2 * k + 1 < |rand|;
      CentreDrawInside(rand, k);
    }
    CountInsideExtremes(plots);
  }

  lemma CentreDrawInside(rand: seq<real>, k: nat)
    requires |rand| % 2 == 0 && Draws(rand)
    requires k < |rand| / 2 && rand[2 * k] == 0.5 && rand[2 * k + 1] == 0.5
    ensures BatchPlots(Full, rand)[k].inside
  {
    BatchPlotsAt(Full, rand, k);
    assert BatchPlots(Full, rand)[k] == Classify(Full, 0.5, 0.5);
  }

  /** The factor that turns the inside ratio into an estimate of pi: the disk
      covers pi/4 of its square, the quarter disk pi/4 of its square but its
      ratio is published doubled. */
  function Factor(shape: Shape): real {
    match shape
    case Full => 4.0
    case Half => 2.0
  }

  /** The published estimate `factor * inside / points`, as an exact rational. */
  function Estimate(shape: Shape, inside: nat, points: nat): real
    requires points > 0
  {
    Factor(shape) * (inside as real) / (points as real)
  }

  /** The estimate is the inside ratio scaled by the factor: it lies in
      [0, factor], is 0 exactly when no point is inside and is the factor
      exactly when every point is. */
  lemma EstimateMeaning(shape: Shape, inside: nat, points: nat)
    requires points > 0
    ensures Estimate(shape, inside, points) * (points as real) == Factor(shape) * (inside as real)
    ensures 0.0 <= Estimate(shape, inside, points)
    ensures inside <= points ==> Estimate(shape, inside, points) <= Factor(shape)
    ensures Estimate(shape, inside, points) == 0.0 <==> inside == 0
    ensures Estimate(shape, inside, points) == Factor(shape) <==> inside == points
  {
    EstimateBounds(Factor(shape), inside as real, points as real, Estimate(shape, inside, points));
  }

  lemma EstimateBounds(f: real, i: real, p: real, e: real)
    requires f > 0.0 && i >= 0.0 && p > 0.0 && e == f * i / p
    ensures e * p == f * i
    ensures 0.0 <= e
    ensures i <= p ==> e <= f
    ensures e == 0.0 <==> i == 0.0
    ensures e == f <==> i == p
  {
    assert e * p == f * i;
    if i <= p {
      assert e * p <= f * p;
    }
    if e == f {
      assert f * p == f * i;
    }
  }

  /** The sampling loop of one tick: draws BatchSize points, classifying each,
      and advances the counters `points` and `inside`. */
  method DrawBatch(shape: Shape, points0: nat, inside0: nat, rand: seq<real>)
    returns (points: nat, inside: nat, plots: seq<Plot>)
    requires IsBatchDraw(rand)
    ensures points == points0 + BatchSize
    ensures inside0 <= inside <= inside0 + BatchSize
    ensures plots == BatchPlots(shape, rand)
    ensures inside == inside0 + CountInside(plots)
  {
    points, inside, plots := points0, inside0, [];
    for i := 0 to BatchSize
      invariant points == points0 + i
      invariant plots == BatchPlots(shape, rand[..2 * i])
      invariant inside == inside0 + CountInside(plots)
    {
      var q := Classify(shape, rand[2 * i], rand[2 * i + 1]);
      if q.inside {
        inside := inside + 1;
      }
      points := points + 1;
      BatchPlotsSnoc(shape, rand, i);
      CountInsideSnoc(plots, q);
      plots := plots + [q];
    }
    assert rand[..2 * BatchSize] == rand;
  }
}
