/** The simulated contract layer consumes `Math.random()` values. Each one is
    an explicit input here: a real in [0, 1). This module holds the shapes
    the source builds from them: a scaled draw, a floored index, a jittered
    value, frequency arrays and detection points. */
module Draws {

  /** A value `Math.random()` can return. */
  predicate IsDraw(d: real) {
    0.0 <= d < 1.0
  }

  predicate AllDraws(ds: seq<real>) {
    forall i :: 0 <= i < |ds| ==> IsDraw(ds[i])
  }

  /** `lo + Math.random() * width`: a value in [lo, lo + width). */
  function Scaled(d: real, lo: real, width: real): (r: real)
    requires IsDraw(d) && width > 0.0
    ensures lo <= r < lo + width
  {
    lo + d * width
  }

  /** A draw scales a positive width to a value below it. */
  lemma ScaledBelow(d: real, width: real)
    requires IsDraw(d) && width > 0.0
    ensures 0.0 <= d * width < width
  {
  }

  /** `Math.floor(Math.random() * n)`: an index in 0..n-1. */
  function FloorScaled(d: real, n: nat): (k: nat)
    requires IsDraw(d) && n > 0
    ensures k < n
  {
    ScaledBelow(d, n as real);
    (d * n as real).Floor
  }

  /** `val + (Math.random() - 0.5) * width`: within half a width of `val`. */
  function Jitter(val: real, d: real, width: real): (r: real)
    requires IsDraw(d) && width > 0.0
    ensures val - width / 2.0 <= r < val + width / 2.0
  {
    val + (d - 0.5) * width
  }

  /** Paired frequency arrays for the verification chart. */
  datatype FrequencyData = FrequencyData(original: seq<real>, modified: seq<real>)

  /** `original = Array(n).fill(0).map(() => lo + Math.random() * width)` and
      `modified = original.map(v => v + (Math.random() - 0.5) * jitterWidth)`:
      the first array consumes `base`, the second `jitter`. */
  function Frequencies(base: seq<real>, jitter: seq<real>, lo: real, width: real, jitterWidth: real): (f: FrequencyData)
    requires AllDraws(base) && AllDraws(jitter) && |jitter| == |base|
    requires width > 0.0 && jitterWidth > 0.0
    ensures |f.original| == |base| && |f.modified| == |base|
    ensures forall i :: 0 <= i < |base| ==> lo <= f.original[i] < lo + width
    ensures forall i :: 0 <= i < |base| ==>
      f.original[i] - jitterWidth / 2.0 <= f.modified[i] < f.original[i] + jitterWidth / 2.0
  {
    var original := seq(|base|, i requires 0 <= i < |base| => Scaled(base[i], lo, width));
    var modified := seq(|base|, i requires 0 <= i < |base| => Jitter(original[i], jitter[i], jitterWidth));
    FrequencyData(original, modified)
  }

  /** A point of the detection heat map, in a 100 x 100 grid. */
  datatype DetectionPoint = DetectionPoint(x: int, y: int, confidence: real)

  /** The three draws one detection point consumes, in order. */
  datatype PointDraw = PointDraw(x: real, y: real, confidence: real)

  predicate IsPointDraw(p: PointDraw) {
    IsDraw(p.x) && IsDraw(p.y) && IsDraw(p.confidence)
  }

  predicate AllPointDraws(ps: seq<PointDraw>) {
    forall i :: 0 <= i < |ps| ==> IsPointDraw(ps[i])
  }

  /** Grid coordinates in 0..99 and a confidence in [confidenceLo, 1). */
  predicate PointWithin(p: DetectionPoint, confidenceLo: real) {
    0 <= p.x < 100 && 0 <= p.y < 100 && confidenceLo <= p.confidence < 1.0
  }

  /** `{ x: Math.floor(Math.random() * 100), y: Math.floor(Math.random() * 100),
        confidence: lo + Math.random() * (1 - lo) }` for each draw triple. */
  function Points(ps: seq<PointDraw>, confidenceLo: real): (points: seq<DetectionPoint>)
    requires AllPointDraws(ps) && confidenceLo < 1.0
    ensures |points| == |ps|
    ensures forall i :: 0 <= i < |points| ==> PointWithin(points[i], confidenceLo)
  {
    seq(|ps|, i requires 0 <= i < |ps| =>
      DetectionPoint(FloorScaled(ps[i].x, 100), FloorScaled(ps[i].y, 100),
                     Scaled(ps[i].confidence, confidenceLo, 1.0 - confidenceLo)))
  }
}
