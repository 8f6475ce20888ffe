/** The geometry of one sampled point: how two uniform draws become a point of
    the sampling square, whether it falls inside the unit arc, and where it is
    plotted on the normalised [0,1] x [0,1] canvas. */
module Geometry {

  /** The two shape modes: the full unit disk sampled from [-1,1) x [-1,1),
      or the quarter disk sampled from [0,1) x [0,1). */
  datatype Shape = Full | Half

  /** A point of the sampling square. */
  datatype Point = Point(x: real, y: real)

  /** A render notification: normalised plot coordinates and the classification. */
  datatype Plot = Plot(px: real, py: real, inside: bool)

  /** What one call of the random source may return. */
  predicate UnitDraw(r: real) {
    0.0 <= r < 1.0
  }

  /** The point sampled from the draws rx (taken first) and ry. */
  function Draw(shape: Shape, rx: real, ry: real): (p: Point)
    requires UnitDraw(rx) && UnitDraw(ry)
    ensures shape == Full ==> -1.0 <= p.x < 1.0 && -1.0 <= p.y < 1.0
    ensures shape == Half ==> 0.0 <= p.x < 1.0 && 0.0 <= p.y < 1.0
  {
    match shape
    case Full => Point(rx * 2.0 - 1.0, ry * 2.0 - 1.0)
    case Half => Point(rx, ry)
  }

  /** The distance test `sqrt(x*x + y*y) <= 1`, stated without the square root
      (both sides are non-negative, so squaring preserves it). */
  predicate InsideArc(p: Point) {
    p.x * p.x + p.y * p.y <= 1.0
  }

  /** Samples one point and classifies it. */
  function Classify(shape: Shape, rx: real, ry: real): (q: Plot)
    requires UnitDraw(rx) && UnitDraw(ry)
    ensures 0.0 <= q.px <= 1.0 && 0.0 <= q.py <= 1.0
    ensures q.inside <==> InsideArc(Draw(shape, rx, ry))
  {
    var p := Draw(shape, rx, ry);
    match shape
    case Full => Plot((p.x + 1.0) / 2.0, (p.y + 1.0) / 2.0, InsideArc(p))
    case Half => Plot(p.x, 1.0 - p.y, InsideArc(p))
  }

  /** Whether the normalised canvas position (px, py) lies within the arc the
      canvas outlines: in Full mode the circle of radius 1/2 centred on the
      canvas, in Half mode the quarter circle of radius 1 centred on the
      bottom-left corner (canvas y grows downwards). */
  predicate InDrawnArc(shape: Shape, px: real, py: real) {
    match shape
    case Full => (px - 0.5) * (px - 0.5) + (py - 0.5) * (py - 0.5) <= 0.25
    case Half => px * px + (py - 1.0) * (py - 1.0) <= 1.0
  }

  /** A point is coloured as inside exactly when it is plotted within the
      outlined arc. */
  lemma ClassifyMatchesDrawnArc(shape: Shape, rx: real, ry: real)
    requires UnitDraw(rx) && UnitDraw(ry)
    ensures Classify(shape, rx, ry).inside <==>
            InDrawnArc(shape, Classify(shape, rx, ry).px, Classify(shape, rx, ry).py)
  {
    var p := Draw(shape, rx, ry);
    var q := Classify(shape, rx, ry);
    match shape
    case Full =>
      assert q.px - 0.5 == p.x / 2.0 && q.py - 0.5 == p.y / 2.0;
      assert (q.px - 0.5) * (q.px - 0.5) + (q.py - 0.5) * (q.py - 0.5)
          == (p.x * p.x + p.y * p.y) / 4.0;
    case Half =>
      assert (q.py - 1.0) * (q.py - 1.0) == p.y * p.y;
  }
}
