/**
 * Plane geometry shared by every digitizer variant: canvas points, squared
 * distances (so that no square root is needed), linear interpolation, the
 * Catmull-Rom spline point and the orthogonal axis helpers.
 */
module Geometry {
  datatype Pt = Pt(x: real, y: real)

  /** `Math.round`: the nearest integer, halves rounded up. */
  function Round(x: real): (k: int)
    ensures x - 0.5 < k as real <= x + 0.5
  {
    (x + 0.5).Floor
  }

  /** The squared Euclidean distance; `Math.hypot(dx, dy) < t` is `SqDist < t*t` for `t > 0`. */
  function SqDist(a: Pt, b: Pt): (d: real)
    ensures d >= 0.0
    ensures a == b ==> d == 0.0
  {
    Square(a.x - b.x);
    Square(a.y - b.y);
    (a.x - b.x) * (a.x - b.x) + (a.y - b.y) * (a.y - b.y)
  }

  lemma Square(u: real)
    ensures u * u >= 0.0
  {
    if u < 0.0 { assert u * u == (-u) * (-u); }
  }

  /** `Math.hypot(a - b) < limit`, stated without a square root. */
  predicate Closer(a: Pt, b: Pt, limit: real)
  {
    limit > 0.0 && SqDist(a, b) < limit * limit
  }

  /** The point a fraction `t` of the way from `a` to `b`. */
  function Lerp(a: Pt, b: Pt, t: real): (p: Pt)
    ensures t == 0.0 ==> p == a
    ensures t == 1.0 ==> p == b
  {
    Pt(a.x + t * (b.x - a.x), a.y + t * (b.y - a.y))
  }

  // ---------------------------------------------------------------------
  // Catmull-Rom spline (digitizer-core.js getCatmullRomPoint)

  /** The four cardinal-spline blending weights at parameter `t`. */
  function Weights(t: real, tension: real): (real, real, real, real)
  {
    var t2 := t * t;
    var t3 := t2 * t;
    (-tension * t3 + 2.0 * tension * t2 - tension * t,
     (2.0 - tension) * t3 + (tension - 3.0) * t2 + 1.0,
     (tension - 2.0) * t3 + (3.0 - 2.0 * tension) * t2 + tension * t,
     tension * t3 - tension * t2)
  }

  function CatmullRom(t: real, p0: Pt, p1: Pt, p2: Pt, p3: Pt, tension: real): Pt
  {
    var (f1, f2, f3, f4) := Weights(t, tension);
    Pt(f1 * p0.x + f2 * p1.x + f3 * p2.x + f4 * p3.x,
       f1 * p0.y + f2 * p1.y + f3 * p2.y + f4 * p3.y)
  }

  /** The curve passes through its two inner control points, whatever the tension. */
  lemma CatmullRomEndpoints(p0: Pt, p1: Pt, p2: Pt, p3: Pt, tension: real)
    ensures CatmullRom(0.0, p0, p1, p2, p3, tension) == p1
    ensures CatmullRom(1.0, p0, p1, p2, p3, tension) == p2
  {
    assert Weights(0.0, tension) == (0.0, 1.0, 0.0, 0.0);
    assert Weights(1.0, tension) == (0.0, 0.0, 1.0, 0.0);
  }

  /** The weights always sum to one, so the spline point is an affine combination. */
  lemma WeightsSumToOne(t: real, tension: real)
    ensures var (f1, f2, f3, f4) := Weights(t, tension); f1 + f2 + f3 + f4 == 1.0
  {
  }

  // ---------------------------------------------------------------------
  // Axis points and orthogonal axes

  /** The axis points a calibration needs: three with a shared origin, four otherwise. */
  function Needed(shared: bool): nat { if shared then 3 else 4 }

  /**
   * The fourth axis point synthesised in orthogonal mode (core.js): the
   * direction from `p1` to `p2` turned by a right angle about `p1`.
   */
  function OrthogonalFourth(p1: Pt, p2: Pt): (p4: Pt)
    ensures (p4.x - p1.x) * (p2.x - p1.x) + (p4.y - p1.y) * (p2.y - p1.y) == 0.0
    ensures SqDist(p4, p1) == SqDist(p2, p1)
  {
    var dx, dy := p2.x - p1.x, p2.y - p1.y;
    Pt(p1.x - dy, p1.y + dx)
  }

  /**
   * A partial axis-point list is aligned when, as far as it goes, the X2
   * point shares X1's row and the second Y point shares the first Y point's
   * column (the origin, with a shared origin; Y1, otherwise).
   */
  predicate Aligned(axisPoints: seq<Pt>, shared: bool)
  {
    && (|axisPoints| >= 2 ==> axisPoints[1].y == axisPoints[0].y)
    && (shared && |axisPoints| >= 3 ==> axisPoints[2].x == axisPoints[0].x)
    && (!shared && |axisPoints| >= 4 ==> axisPoints[3].x == axisPoints[2].x)
  }

  /**
   * The orthogonal click constraint of digitizer-tools.js: the second click
   * takes the first point's y, and the last click takes the x of the point
   * its axis starts from. Appending the constrained click keeps the list aligned.
   */
  function ConstrainClick(axisPoints: seq<Pt>, shared: bool, click: Pt): (p: Pt)
    ensures Aligned(axisPoints, shared) && |axisPoints| < Needed(shared)
      ==> Aligned(axisPoints + [p], shared)
    ensures p.x == click.x || p.y == click.y
  {
    if |axisPoints| == 1 then Pt(click.x, axisPoints[0].y)
    else if shared && |axisPoints| == 2 then Pt(axisPoints[0].x, click.y)
    else if !shared && |axisPoints| == 3 then Pt(axisPoints[2].x, click.y)
    else click
  }

  /** The pixels a calibration reads: X1 and X2, and the Y reference (the origin or Y1) and Y2. */
  datatype CalibrationPixels = CalibrationPixels(x1: real, x2: real, yRef: real, y2: real)

  function PixelsOf(ap: seq<Pt>, shared: bool): CalibrationPixels
    requires |ap| >= Needed(shared)
  {
    var p1, p2 := ap[0], ap[1];
    var p3 := if shared then ap[1] else ap[2];
    var p4 := if shared then ap[2] else ap[3];
    CalibrationPixels(p1.x, p2.x, if shared then p1.y else p3.y, p4.y)
  }
}
