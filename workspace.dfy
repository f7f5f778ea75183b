/**
 * What the two global-state variants (digitizer.js and the split
 * digitizer-core.js / digitizer-tools.js) share: the fields a history
 * entry records, the edits a click makes to one line, and the re-reading of
 * every stored point after a calibration.
 */
module Workspace {
  import opened Wrappers
  import opened Geometry
  import opened Coordinates
  import opened Document

  /** The fields `saveState` and `addToHistory` copy into a history entry. */
  datatype Snapshot = Snapshot(
    lines: seq<Line>, axisPoints: seq<Pt>, ax: Axis, ay: Axis, calibrated: bool,
    view: View, mode: Mode, current: int, highlightPath: seq<Pt>, highlighting: bool)

  /** A state the handlers can work on: the current line exists and the zoom is positive. */
  predicate Usable(s: Snapshot)
  {
    0 <= s.current < |s.lines| && s.view.zoom > 0.0
  }

  /** An axis with its scale and offset `undefined`, as before calibration and after a reset. */
  function Unset(log: bool): Axis
  {
    Axis(NaN, NaN, log)
  }

  // ---------------------------------------------------------------------
  // Re-reading the stored points

  /** A stored point after calibrate: its data is re-read where both axes convert its pixel. */
  function Reread(p: Point, ax: Axis, ay: Axis, e: Exp10): Point
  {
    match BothAxes(ax, ay, e, At(p))
    case Some(d) => p.(dataX := Fin(d.x), dataY := Fin(d.y))
    case None => p
  }

  function RereadLine(l: Line, ax: Axis, ay: Axis, e: Exp10): Line
  {
    l.(points := seq(|l.points|, k requires 0 <= k < |l.points| => Reread(l.points[k], ax, ay, e)))
  }

  function RereadAll(lines: seq<Line>, ax: Axis, ay: Axis, e: Exp10): seq<Line>
  {
    seq(|lines|, i requires 0 <= i < |lines| => RereadLine(lines[i], ax, ay, e))
  }

  /**
   * Once both axes convert, a re-read point keeps its pixel and order and
   * holds finite data. That data converts back to the point's own pixel.
   */
  lemma RereadRoundTrip(p: Point, ax: Axis, ay: Axis, e: Exp10)
    requires Lawful(e) && Converts(ax) && Converts(ay)
    ensures var q := Reread(p, ax, ay, e);
      q.x == p.x && q.y == p.y && q.order == p.order && q.dataX.Fin? && q.dataY.Fin? &&
      DataToPixel(ax, e, q.dataX.v) == Fin(p.x) && DataToPixel(ay, e, q.dataY.v) == Fin(p.y)
  {
    PixelDataPixel(ax, e, p.x);
    PixelDataPixel(ay, e, p.y);
  }

  /**
   * The `forEach` over every line and point after a calibration: each point
   * is re-read in place.
   */
  method RereadEach(lines: seq<Line>, ax: Axis, ay: Axis, e: Exp10) returns (r: seq<Line>)
    ensures r == RereadAll(lines, ax, ay, e)
  {
    r := lines;
    for i := 0 to |lines|
      invariant |r| == |lines|
      invariant forall j :: 0 <= j < i ==> r[j] == RereadLine(lines[j], ax, ay, e)
      invariant forall j :: i <= j < |r| ==> r[j] == lines[j]
    {
      var line := r[i];
      for k := 0 to |line.points|
        invariant |line.points| == |lines[i].points|
        invariant line == lines[i].(points := line.points)
        invariant forall m :: 0 <= m < k ==> line.points[m] == Reread(lines[i].points[m], ax, ay, e)
        invariant forall m :: k <= m < |line.points| ==> line.points[m] == lines[i].points[m]
      {
        line := line.(points := line.points[k := Reread(line.points[k], ax, ay, e)]);
      }
      r := r[i := line];
    }
  }

  // ---------------------------------------------------------------------
  // Edits of one line

  /** A point at canvas position `at` with data `d` and click order `order`. */
  function Placed(at: Pt, d: Pt, order: int): Point
  {
    Point(at.x, at.y, Fin(d.x), Fin(d.y), Some(order))
  }

  /**
   * The line after an add-mode click lands at `at` with data `d`: the point
   * is appended with the next order, and a well-numbered line stays so.
   */
  function Clicked(l: Line, at: Pt, d: Pt): (r: Line)
    ensures r.name == l.name && r.sorted == l.sorted && r.orderCounter == l.orderCounter + 1
    ensures r.points == l.points + [Placed(at, d, r.orderCounter)]
    ensures WellNumbered(l) ==> WellNumbered(r)
  {
    var p := Placed(at, d, l.orderCounter + 1);
    if WellNumbered(l) then
      AppendKeepsNumbered(l, p);
      l.(points := l.points + [p], orderCounter := l.orderCounter + 1)
    else
      l.(points := l.points + [p], orderCounter := l.orderCounter + 1)
  }

  /** The line without its point `idx`; the others keep their order, and a well-numbered line stays so. */
  function Removed(l: Line, idx: int): (r: Line)
    requires 0 <= idx < |l.points|
    ensures r.name == l.name && r.sorted == l.sorted && r.orderCounter == l.orderCounter
    ensures |r.points| == |l.points| - 1
    ensures forall i :: 0 <= i < |r.points| ==> r.points[i] == l.points[if i < idx then i else i + 1]
    ensures WellNumbered(l) ==> WellNumbered(r)
  {
    var rest := l.points[..idx] + l.points[idx + 1..];
    if WellNumbered(l) then RemoveKeepsNumbered(l, idx); l.(points := rest) else l.(points := rest)
  }

  /**
   * The line with its point `idx` dragged to `at` with data `d`. The point
   * keeps its order, so a well-numbered line stays so.
   */
  function Moved(l: Line, idx: int, at: Pt, d: Pt): (r: Line)
    requires 0 <= idx < |l.points|
    ensures r.name == l.name && r.sorted == l.sorted && r.orderCounter == l.orderCounter
    ensures |r.points| == |l.points| && r.points[idx].order == l.points[idx].order
    ensures r.points[idx].x == at.x && r.points[idx].y == at.y && r.points[idx].dataX == Fin(d.x) && r.points[idx].dataY == Fin(d.y)
    ensures forall i :: 0 <= i < |l.points| && i != idx ==> r.points[i] == l.points[i]
    ensures WellNumbered(l) ==> WellNumbered(r)
  {
    var p := Point(at.x, at.y, Fin(d.x), Fin(d.y), l.points[idx].order);
    if WellNumbered(l) then ReplaceKeepsNumbered(l, idx, p); l.(points := l.points[idx := p])
    else l.(points := l.points[idx := p])
  }

}
