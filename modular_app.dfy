/**
 * The ES-module variant (modules/history.js, calibration.js, points.js,
 * ui.js and io.js): one shared state object whose fields the handlers
 * change in place, with a snapshot history beside it.
 *
 * Calibration follows convention B: each axis stores `scale` and `offset`
 * and every point is converted with `data = scale * pixel + offset`,
 * whatever the log flags say. A handler receives the click already mapped
 * to canvas pixels and, when auto-centring is on, already moved by
 * modules/color-detect.js (the `ColorDetect` module).
 */
module ModularApp {
  import opened Wrappers
  import opened Geometry
  import opened Coordinates
  import opened Document
  import opened History
  import opened Resample
  import opened Text

  /** The colour-detection settings. A colour the hex parser refused is `None`, an unparsable number too. */
  datatype Detection = Detection(autoCenter: bool, bgColor: Option<Rgb>, lineColor: Option<Rgb>,
                                 tolerance: Option<int>, radius: Option<int>)

  /** Everything `saveState` records and `restore` assigns back. */
  datatype Snapshot = Snapshot(
    lines: seq<Line>, axisPoints: seq<Pt>, mx: Linear, my: Linear, logX: bool, logY: bool,
    calibrated: bool, view: View, mode: Mode, current: int,
    highlightPath: seq<Pt>, highlighting: bool, detection: Detection)

  /** The scale and offset of an axis that was never calibrated, or was reset: both zero. */
  const Zero: Linear := Linear(Fin(0.0), Fin(0.0))

  /** The distance `nearestPointIndex` accepts, in canvas pixels. */
  const PickRadius: real := 15.0

  /** A stroke sample closer than this to the last kept one is dropped. */
  const StrokeSpacing: real := 3.0

  // ---------------------------------------------------------------------
  // Calibration (modules/calibration.js)

  /**
   * The pixels `calibrate` reads as written: X from the first two points,
   * and Y from the first point and from the third (shared origin) or fourth point.
   */
  function PixelsAsWritten(ap: seq<Pt>, shared: bool): CalibrationPixels
    requires |ap| >= Needed(shared)
  {
    CalibrationPixels(ap[0].x, ap[1].x, ap[0].y, if shared then ap[2].y else ap[3].y)
  }

  /** With a shared origin the first point is the Y reference, so the reading as written is right. */
  lemma SharedPixelsAgree(ap: seq<Pt>)
    requires |ap| >= 3
    ensures PixelsAsWritten(ap, true) == PixelsOf(ap, true)
  {
  }

  /**
   * With four axis points the Y axis is fitted through the X1 point's row
   * instead of the Y1 point: the Y1 click, entered as 10, reads back as 15.
   */
  lemma FourPointY1Missed()
    ensures var ap := [Pt(0.0, 100.0), Pt(100.0, 100.0), Pt(0.0, 50.0), Pt(0.0, 0.0)];
      var px := PixelsAsWritten(ap, false);
      var my := FitAffine(px.yRef, px.y2, 10.0, 20.0);
      Affine(my.scale, my.offset, ap[2].y) == Fin(15.0)
  {
    var my := FitAffine(100.0, 0.0, 10.0, 20.0);
    assert my == Linear(Fin(-0.1), Fin(20.0));
  }

  /**
   * Fitting both axes through the calibration pixels: every pixel that was
   * clicked for a value reads back as exactly that value.
   */
  lemma CalibrationEndpoints(ap: seq<Pt>, shared: bool, x1: real, x2: real, y1: real, y2: real)
    requires |ap| >= Needed(shared)
    requires PixelsOf(ap, shared).x1 != PixelsOf(ap, shared).x2
    requires PixelsOf(ap, shared).yRef != PixelsOf(ap, shared).y2
    ensures var px := PixelsOf(ap, shared);
      var mx, my := FitAffine(px.x1, px.x2, x1, x2), FitAffine(px.yRef, px.y2, y1, y2);
      && Affine(mx.scale, mx.offset, px.x1) == Fin(x1) && Affine(mx.scale, mx.offset, px.x2) == Fin(x2)
      && Affine(my.scale, my.offset, px.yRef) == Fin(y1) && Affine(my.scale, my.offset, px.y2) == Fin(y2)
  {
    var px := PixelsOf(ap, shared);
    FitAffineEndpoints(px.x1, px.x2, x1, x2);
    FitAffineEndpoints(px.yRef, px.y2, y1, y2);
  }

  // ---------------------------------------------------------------------
  // Points (modules/points.js)

  /** `convertToData`: both data values from the stored fits, linear on both axes. */
  function Convert(p: Point, mx: Linear, my: Linear): Point
  {
    p.(dataX := Affine(mx.scale, mx.offset, p.x), dataY := Affine(my.scale, my.offset, p.y))
  }

  /** A new point at `at` carrying click order `order`. */
  function Placed(at: Pt, order: int, mx: Linear, my: Linear): Point
  {
    Convert(Point(at.x, at.y, NaN, NaN, Some(order)), mx, my)
  }

  /** A point placed on a calibration pixel pair reads the values entered for them. */
  lemma PlacedReadsCalibration(ap: seq<Pt>, shared: bool, x1: real, x2: real, y1: real, y2: real, order: int)
    requires |ap| >= Needed(shared)
    requires PixelsOf(ap, shared).x1 != PixelsOf(ap, shared).x2
    requires PixelsOf(ap, shared).yRef != PixelsOf(ap, shared).y2
    ensures var px := PixelsOf(ap, shared);
      var mx, my := FitAffine(px.x1, px.x2, x1, x2), FitAffine(px.yRef, px.y2, y1, y2);
      var p, q := Placed(Pt(px.x1, px.yRef), order, mx, my), Placed(Pt(px.x2, px.y2), order, mx, my);
      p.dataX == Fin(x1) && p.dataY == Fin(y1) && q.dataX == Fin(x2) && q.dataY == Fin(y2)
  {
    CalibrationEndpoints(ap, shared, x1, x2, y1, y2);
  }

  /**
   * What a point click does to the current line: the next order is handed
   * out on every click; in add mode a point carrying it is appended, in
   * adjust mode the nearest point within reach moves (keeping its order),
   * in delete mode it is removed; with no point within reach, or in any
   * other mode, only the counter moves. The numbering stays well formed.
   */
  ghost predicate Clicked(before: Line, after: Line, m: Mode, at: Pt, mx: Linear, my: Linear, idx: int)
  {
    && after.name == before.name && after.sorted == before.sorted
    && after.orderCounter == before.orderCounter + 1
    && (WellNumbered(before) ==> WellNumbered(after))
    && match m
       case Add => idx == -1 && after.points == before.points + [Placed(at, after.orderCounter, mx, my)]
       case Adjust =>
         && IsNearest(before.points, at, PickRadius, idx)
         && if idx < 0 then after.points == before.points
            else (after.points == before.points[idx := Convert(before.points[idx].(x := at.x, y := at.y), mx, my)]
                  && after.points[idx].order == before.points[idx].order)
       case Delete =>
         && IsNearest(before.points, at, PickRadius, idx)
         && if idx < 0 then after.points == before.points
            else after.points == before.points[..idx] + before.points[idx + 1..]
       case _ => idx == -1 && after.points == before.points
  }

  /** The line arithmetic of `handlePointClick`. */
  method ClickLine(line: Line, m: Mode, at: Pt, mx: Linear, my: Linear) returns (next: Line, idx: int)
    ensures Clicked(line, next, m, at, mx, my, idx)
  {
    var order := line.orderCounter + 1;
    if WellNumbered(line) { BumpKeepsNumbered(line); }
    var bumped := line.(orderCounter := order);
    next := bumped;
    idx := -1;
    if m == Add {
      next := bumped.(points := bumped.points + [Placed(at, order, mx, my)]);
      if WellNumbered(line) { AppendKeepsNumbered(line, Placed(at, order, mx, my)); }
    } else if m == Adjust || m == Delete {
      idx := NearestIndex(bumped.points, at, PickRadius);
      if idx >= 0 && m == Adjust {
        var moved := Convert(bumped.points[idx].(x := at.x, y := at.y), mx, my);
        next := bumped.(points := bumped.points[idx := moved]);
        if WellNumbered(bumped) { ReplaceKeepsNumbered(bumped, idx, moved); }
      } else if idx >= 0 {
        next := bumped.(points := bumped.points[..idx] + bumped.points[idx + 1..]);
        if WellNumbered(bumped) { RemoveKeepsNumbered(bumped, idx); }
      }
    }
  }

  // ---------------------------------------------------------------------
  // Highlight tracing (modules/points.js)

  /** `parseInt(input) || 5`: a missing, unparsable or zero count falls back to five. */
  function Divisions(input: Option<int>): (n: int)
    ensures n != 0
    ensures input.Some? && input.value != 0 ==> n == input.value
  {
    if input.None? || input.value == 0 then 5 else input.value
  }

  /** The traced positions as new points, numbered on from `counter`. */
  function Stamped(pts: seq<Pt>, counter: int, mx: Linear, my: Linear): seq<Point>
  {
    seq(|pts|, i requires 0 <= i < |pts| => Placed(pts[i], counter + i + 1, mx, my))
  }

  /** The line with the positions appended as new points, the counter moved past them. */
  function Appended(l: Line, pts: seq<Pt>, mx: Linear, my: Linear): Line
  {
    l.(points := l.points + Stamped(pts, l.orderCounter, mx, my), orderCounter := l.orderCounter + |pts|)
  }

  /** The current line after a stroke along `path` cut into `n` parts per segment. */
  function Traced(l: Line, path: seq<Pt>, n: int, mx: Linear, my: Linear): Line
    requires n != 0
  {
    Appended(l, Subdivision(path, n), mx, my)
  }

  /**
   * A stroke of two or more samples appends exactly `(len - 1) * (n + 1)`
   * points (none for a negative count) after the existing ones, numbered
   * consecutively after the counter, which ends at the last number handed out.
   */
  lemma TracedShape(l: Line, path: seq<Pt>, n: int, mx: Linear, my: Linear)
    requires n != 0 && |path| >= 2
    ensures var t := Traced(l, path, n, mx, my);
      var k := (|path| - 1) * (if n >= 0 then n + 1 else 0);
      && |t.points| == |l.points| + k && t.points[..|l.points|] == l.points
      && t.orderCounter == l.orderCounter + k
      && (forall i :: |l.points| <= i < |t.points| ==> t.points[i].order == Some(l.orderCounter + i - |l.points| + 1))
      && t.name == l.name && t.sorted == l.sorted
  {
    SubdivisionLength(path, n);
    var t := Traced(l, path, n, mx, my);
    assert t.points[..|l.points|] == l.points;
  }

  /** Point `j` of segment `i` lies the fraction `j / n` along that segment. */
  lemma TracedAt(l: Line, path: seq<Pt>, n: int, mx: Linear, my: Linear, i: nat, j: nat)
    requires n > 0 && i + 1 < |path| && j <= n
    ensures |l.points| + i * (n + 1) + j < |Traced(l, path, n, mx, my).points|
    ensures At(Traced(l, path, n, mx, my).points[|l.points| + i * (n + 1) + j])
         == Lerp(path[i], path[i + 1], j as real / n as real)
  {
    var pts := Subdivision(path, n);
    var m := i * (n + 1) + j;
    SubdivisionAt(path, n, i, j);
    var t := Traced(l, path, n, mx, my);
    assert t.points == l.points + Stamped(pts, l.orderCounter, mx, my);
    var p := Placed(pts[m], l.orderCounter + m + 1, mx, my);
    assert t.points[|l.points| + m] == Stamped(pts, l.orderCounter, mx, my)[m] == p;
    assert At(p) == pts[m];
  }

  /** A stroke keeps the line well numbered. */
  lemma TracedNumbered(l: Line, path: seq<Pt>, n: int, mx: Linear, my: Linear)
    requires n != 0 && WellNumbered(l)
    ensures WellNumbered(Traced(l, path, n, mx, my))
  {
    var t := Traced(l, path, n, mx, my);
    var added := Stamped(Subdivision(path, n), l.orderCounter, mx, my);
    var m := |l.points|;
    assert t.points == l.points + added;
    forall i | 0 <= i < |t.points|
      ensures t.points[i].order.Some? && t.points[i].order.value <= t.orderCounter
    {
      if i >= m { assert t.points[i] == added[i - m]; }
    }
    forall i, j | 0 <= i < j < |t.points| ensures t.points[i].order != t.points[j].order {
      if j >= m {
        assert t.points[j] == added[j - m];
        if i >= m { assert t.points[i] == added[i - m]; }
      }
    }
  }

  // ---------------------------------------------------------------------
  // Axis instructions (modules/ui.js updateAxisInstruction)

  /** The label the instruction asks for at axis click `count`, as written. */
  function AxisLabelAsWritten(shared: bool, count: nat): string
    requires count < Needed(shared)
  {
    if shared && count == 0 then "Shared Origin (X1/Y1)" else ["X1", "X2", "Y1", "Y2"][count]
  }

  /**
   * Axis point `p` is the one calibration reads for the value `asked` names:
   * X1 and X2 are read at its column, Y1 (or the shared origin's Y) as
   * the Y reference and Y2 at its row; the shared origin stands for both X1
   * and Y1.
   */
  predicate PairedWith(asked: string, px: CalibrationPixels, p: Pt)
  {
    if asked == "Shared Origin (X1/Y1)" then px.x1 == p.x && px.yRef == p.y
    else if asked == "X1" then px.x1 == p.x
    else if asked == "X2" then px.x2 == p.x
    else if asked == "Y1" then px.yRef == p.y
    else asked == "Y2" && px.y2 == p.y
  }

  /**
   * With a shared origin the third click is asked for as Y1, yet calibration
   * reads it as Y2: whenever it does not share the origin's row, it is not
   * the pixel calibration pairs with Y1.
   */
  lemma SharedThirdLabelMismatch(ap: seq<Pt>)
    requires |ap| >= 3 && ap[2].y != ap[0].y
    ensures AxisLabelAsWritten(true, 2) == "Y1"
    ensures !PairedWith(AxisLabelAsWritten(true, 2), PixelsOf(ap, true), ap[2])
    ensures PixelsOf(ap, true).y2 == ap[2].y
  {
  }

  /** The label asked for at axis click `count`: the value calibration pairs with that click. */
  function AxisLabel(shared: bool, count: nat): (name: string)
    requires count < Needed(shared)
    ensures forall ap :: |ap| >= Needed(shared) ==> PairedWith(name, PixelsOf(ap, shared), ap[count])
  {
    if shared then ["Shared Origin (X1/Y1)", "X2", "Y2"][count] else ["X1", "X2", "Y1", "Y2"][count]
  }

  /** The text of the axis instruction. */
  function AxisInstruction(calibrated: bool, shared: bool, count: nat): string
  {
    if calibrated then "Calibration complete. Select a mode to digitize."
    else if count < Needed(shared) then "Click point for " + AxisLabel(shared, count) + " on the chart."
    else "Enter axis values and click Calibrate."
  }

  /**
   * Before calibration, while points are missing, the instruction asks for
   * the value calibration will pair with the next click, whatever the
   * clicks turn out to be; once the points are set it asks for the values,
   * and after calibration it says so.
   */
  lemma InstructionAsksForPairedValue(calibrated: bool, shared: bool, ap: seq<Pt>, count: nat)
    requires count < Needed(shared) <= |ap|
    ensures !calibrated ==> exists asked ::
      AxisInstruction(calibrated, shared, count) == "Click point for " + asked + " on the chart." &&
      PairedWith(asked, PixelsOf(ap, shared), ap[count])
    ensures calibrated ==> AxisInstruction(calibrated, shared, count) == "Calibration complete. Select a mode to digitize."
    ensures AxisInstruction(false, shared, Needed(shared)) == "Enter axis values and click Calibrate."
  {
    var asked := AxisLabel(shared, count);
    assert PairedWith(asked, PixelsOf(ap, shared), ap[count]);
  }

  // ---------------------------------------------------------------------
  // Exports (modules/io.js)

  /** Every line with its points in export order: by data X when sorted, by click order otherwise. */
  function InExportOrder(lines: seq<Line>): (r: seq<Line>)
    ensures |r| == |lines|
  {
    seq(|lines|, i requires 0 <= i < |lines| => lines[i].(points := ExportOrder(lines[i])))
  }

  /**
   * The CSV lists every line, empty ones included: line `i` fills its block
   * with a title, the header, a permutation of its points, sorted by the
   * line's key when every key is a number, and a blank row.
   */
  lemma CsvExportBlocks(lines: seq<Line>, i: nat)
    requires i < |lines|
    ensures var ordered := InExportOrder(lines);
      && |CsvRows(ordered)| == BlockStart(ordered, |lines|)
      && BlockStart(ordered, i + 1) <= |CsvRows(ordered)|
      && CsvRows(ordered)[BlockStart(ordered, i)..BlockStart(ordered, i + 1)] == LineRows(ordered[i])
      && ordered[i].name == lines[i].name
      && multiset(ordered[i].points) == multiset(lines[i].points)
      && var key := if lines[i].sorted then ByDataX else ByOrder;
         AllKeysFinite(lines[i].points, key) ==> SortedBy(ordered[i].points, key)
  {
    var ordered := InExportOrder(lines);
    CsvBlocks(ordered, i);
    ExportOrderPermutes(lines[i]);
    var key := if lines[i].sorted then ByDataX else ByOrder;
    if AllKeysFinite(lines[i].points, key) {
      SortBySorted(lines[i].points, key);
    }
  }

  /** A row of the single XLSX sheet. */
  datatype SheetRow = NameRow(name: string) | PairRow(x: Num, y: Num) | EmptyRow

  function PairRows(pts: seq<Point>): seq<SheetRow>
  {
    seq(|pts|, k requires 0 <= k < |pts| => PairRow(pts[k].dataX, pts[k].dataY))
  }

  /**
   * The rows of line `i` of lines already in export order: none when it is
   * empty, otherwise its name, its points, and a blank row unless it is the
   * last line (even when every later line is empty).
   */
  function XlsxBlock(ordered: seq<Line>, i: nat): seq<SheetRow>
    requires i < |ordered|
  {
    var l := ordered[i];
    if l.points == [] then []
    else [NameRow(l.name)] + PairRows(l.points) + (if i < |ordered| - 1 then [EmptyRow] else [])
  }

  /** The rows of the first `k` lines. */
  function XlsxRows(ordered: seq<Line>, k: nat): seq<SheetRow>
    requires k <= |ordered|
  {
    if k == 0 then [] else XlsxRows(ordered, k - 1) + XlsxBlock(ordered, k - 1)
  }

  /** None of the first `k` lines has a point. */
  predicate NoPoints(lines: seq<Line>, k: nat)
    requires k <= |lines|
  {
    forall i :: 0 <= i < k ==> lines[i].points == []
  }

  lemma NoPointsStep(lines: seq<Line>, k: nat)
    requires 0 < k <= |lines|
    ensures NoPoints(lines, k) <==> NoPoints(lines, k - 1) && lines[k - 1].points == []
  {
  }

  /** The sheet has rows exactly when some line among the first `k` has points. */
  lemma {:induction false} XlsxRowsEmpty(ordered: seq<Line>, k: nat)
    requires k <= |ordered|
    ensures XlsxRows(ordered, k) == [] <==> NoPoints(ordered, k)
  {
    if k > 0 {
      XlsxRowsEmpty(ordered, k - 1);
      NoPointsStep(ordered, k);
      var rest, block := XlsxRows(ordered, k - 1), XlsxBlock(ordered, k - 1);
      assert XlsxRows(ordered, k) == rest + block;
      assert block == [] <==> ordered[k - 1].points == [];
    }
  }

  /** Every line with points contributes its name row. */
  lemma {:induction false} XlsxNamesEveryLine(ordered: seq<Line>, k: nat, i: nat)
    requires i < k <= |ordered| && ordered[i].points != []
    ensures NameRow(ordered[i].name) in XlsxRows(ordered, k)
  {
    var rest, block := XlsxRows(ordered, k - 1), XlsxBlock(ordered, k - 1);
    assert XlsxRows(ordered, k) == rest + block;
    if i < k - 1 {
      XlsxNamesEveryLine(ordered, k - 1, i);
    } else {
      assert block[0] == NameRow(ordered[i].name);
      assert (rest + block)[|rest|] == block[0];
    }
  }

  /** Ordering a line for export empties it exactly when it was empty. */
  lemma ExportOrderEmpty(l: Line)
    ensures ExportOrder(l) == [] <==> l.points == []
  {
    ExportOrderPermutes(l);
    assert |multiset(ExportOrder(l))| == |ExportOrder(l)|;
    assert |multiset(l.points)| == |l.points|;
  }

  /**
   * `exportXlsx`: the sheet's rows, or `None` (the "no data" message)
   * exactly when every line is empty.
   */
  function ExportXlsx(lines: seq<Line>): (r: Option<seq<SheetRow>>)
    ensures r.None? <==> forall i :: 0 <= i < |lines| ==> lines[i].points == []
  {
    var ordered := InExportOrder(lines);
    XlsxRowsEmpty(ordered, |lines|);
    assert NoPoints(ordered, |lines|) <==> NoPoints(lines, |lines|) by {
      forall i | 0 <= i < |lines| ensures ordered[i].points == [] <==> lines[i].points == [] {
        ExportOrderEmpty(lines[i]);
      }
    }
    var rows := XlsxRows(ordered, |lines|);
    if rows == [] then None else Some(rows)
  }

  // ---------------------------------------------------------------------
  // JSON files (modules/io.js)

  /** A line as a JSON file holds it: a field that is absent or `null` is `None`. */
  datatype RawLine = RawLine(name: Option<string>, points: Option<seq<Point>>, sorted: bool, orderCounter: Option<int>)

  /** A document as a JSON file holds it; `lines` is `None` when it is not an array. */
  datatype RawDoc = RawDoc(
    lines: Option<seq<RawLine>>, axisPoints: Option<seq<Pt>>,
    scaleX: Num, scaleY: Num, offsetX: Num, offsetY: Num, logX: bool, logY: bool, calibrated: bool,
    zoom: Num, panX: Num, panY: Num, showGrid: bool, mode: Option<Mode>, current: Option<int>,
    magnifierZoom: Num, autoCenter: bool, bgColor: Option<Rgb>, lineColor: Option<Rgb>,
    tolerance: Option<int>, radius: Option<int>)

  /** `exportJson`: every recorded field except the stroke in progress. */
  function ExportDoc(s: Snapshot): RawDoc
  {
    RawDoc(
      Some(seq(|s.lines|, i requires 0 <= i < |s.lines| =>
        RawLine(Some(s.lines[i].name), Some(s.lines[i].points), s.lines[i].sorted, Some(s.lines[i].orderCounter)))),
      Some(s.axisPoints), s.mx.scale, s.my.scale, s.mx.offset, s.my.offset, s.logX, s.logY, s.calibrated,
      Fin(s.view.zoom), Fin(s.view.panX), Fin(s.view.panY), s.view.showGrid, Some(s.mode), Some(s.current),
      Fin(s.view.magnifierZoom), s.detection.autoCenter, s.detection.bgColor, s.detection.lineColor,
      s.detection.tolerance, s.detection.radius)
  }

  /** An imported line: the name defaults to `Line`, the points to none, the counter to zero. */
  function ImportLine(l: RawLine): Line
  {
    Line(if l.name.Some? && l.name.value != [] then l.name.value else "Line",
         l.points.GetOr([]), l.sorted, OrInt(l.orderCounter, 0))
  }

  const White: Rgb := Rgb(255, 255, 255)
  const Black: Rgb := Rgb(0, 0, 0)

  /** The state `importJson` assigns: every field from the file, falsy ones defaulted; the stroke is kept. */
  function Imported(doc: RawDoc, keep: Snapshot): Snapshot
    requires doc.lines.Some?
  {
    var ls := doc.lines.value;
    keep.(
      lines := seq(|ls|, i requires 0 <= i < |ls| => ImportLine(ls[i])),
      axisPoints := doc.axisPoints.GetOr([]),
      mx := Linear(Fin(OrNum(doc.scaleX, 0.0)), Fin(OrNum(doc.offsetX, 0.0))),
      my := Linear(Fin(OrNum(doc.scaleY, 0.0)), Fin(OrNum(doc.offsetY, 0.0))),
      logX := doc.logX, logY := doc.logY, calibrated := doc.calibrated,
      view := View(OrNum(doc.zoom, 1.0), OrNum(doc.panX, 0.0), OrNum(doc.panY, 0.0), doc.showGrid,
                   OrNum(doc.magnifierZoom, 2.0)),
      mode := doc.mode.GetOr(NoMode), current := OrInt(doc.current, 0),
      detection := Detection(doc.autoCenter, Some(doc.bgColor.GetOr(White)), Some(doc.lineColor.GetOr(Black)),
                             Some(OrInt(doc.tolerance, 30)), Some(OrInt(doc.radius, 20))))
  }

  /**
   * The states a file round trip reproduces: named lines, finite fits, and
   * no setting that is falsy but differs from its default.
   */
  predicate Portable(s: Snapshot)
  {
    && (forall i :: 0 <= i < |s.lines| ==> s.lines[i].name != [])
    && s.mx.scale.Fin? && s.mx.offset.Fin? && s.my.scale.Fin? && s.my.offset.Fin?
    && s.view.zoom != 0.0 && s.view.magnifierZoom != 0.0
    && s.detection.bgColor.Some? && s.detection.lineColor.Some?
    && s.detection.tolerance.Some? && s.detection.tolerance.value != 0
    && s.detection.radius.Some? && s.detection.radius.value != 0
  }

  /** Exporting a portable state and importing the file gives the same state back. */
  lemma ImportExported(s: Snapshot)
    requires Portable(s)
    ensures Imported(ExportDoc(s), s) == s
  {
    var r := Imported(ExportDoc(s), s);
    assert r.lines == s.lines;
  }

  /** A tolerance of zero does not survive the round trip: it comes back as thirty. */
  lemma ZeroToleranceBecomesDefault(s: Snapshot)
    requires s.detection.tolerance == Some(0)
    ensures Imported(ExportDoc(s), s).detection.tolerance == Some(30)
  {
  }

  // ---------------------------------------------------------------------
  // The shared state

  class Session {
    var lines: seq<Line>
    var current: int
    var axisPoints: seq<Pt>
    var mx: Linear
    var my: Linear
    var logX: bool
    var logY: bool
    var calibrated: bool
    var view: View
    var mode: Mode
    var highlightPath: seq<Pt>
    var highlighting: bool
    var detection: Detection
    /** The last stroke sample kept (a module variable of points.js). */
    var lastHighlight: Option<Pt>
    var history: seq<Snapshot>
    var historyIndex: int

    function Snap(): Snapshot
      reads this`lines, this`axisPoints, this`mx, this`my, this`logX, this`logY, this`calibrated,
        this`view, this`mode, this`current, this`highlightPath, this`highlighting, this`detection
    {
      Snapshot(lines, axisPoints, mx, my, logX, logY, calibrated, view, mode, current,
               highlightPath, highlighting, detection)
    }

    function Hist(): Timeline<Snapshot>
      reads this`history, this`historyIndex
    {
      Timeline(history, historyIndex)
    }

    /** The history is a timeline; nothing else is guaranteed, since a file may set any line index. */
    ghost predicate Valid()
      reads this`history, this`historyIndex
    {
      History.Valid(Hist())
    }

    /** The line index names a line, as the current-line handlers need. */
    predicate HasCurrent()
      reads this`lines, this`current
    {
      0 <= current < |lines|
    }

    /** The state at start-up with an empty history (`initHistory`). */
    constructor (s: Snapshot)
      ensures Snap() == s && Valid() && history == [] && lastHighlight == None
    {
      lines := s.lines;
      current := s.current;
      axisPoints := s.axisPoints;
      mx := s.mx;
      my := s.my;
      logX := s.logX;
      logY := s.logY;
      calibrated := s.calibrated;
      view := s.view;
      mode := s.mode;
      highlightPath := s.highlightPath;
      highlighting := s.highlighting;
      detection := s.detection;
      lastHighlight := None;
      history := [];
      historyIndex := -1;
    }

    // -------------------------------------------------------------------
    // History (modules/history.js)

    /**
     * `saveState`: record the state after the cursor. Afterwards redo is
     * disabled and undo is enabled exactly when something was recorded before.
     */
    method SaveState()
      requires Valid()
      modifies this`history, this`historyIndex
      ensures Valid()
      ensures Hist() == Record(old(Hist()), Snap())
      ensures !CanRedo(Hist()) && (CanUndo(Hist()) <==> old(historyIndex) >= 0)
    {
      var s := Snap();
      history := history[..historyIndex + 1] + [s];
      historyIndex := historyIndex + 1;
    }

    /** `restore`: every recorded field is assigned back; values cannot alias the stored snapshot. */
    method Restore(s: Snapshot)
      modifies this`lines, this`axisPoints, this`mx, this`my, this`logX, this`logY, this`calibrated,
        this`view, this`mode, this`current, this`highlightPath, this`highlighting, this`detection
      ensures Snap() == s
    {
      Assign(s);
      AssignSettings(s);
    }

    /** Assigns the recorded document and calibration fields. */
    method Assign(s: Snapshot)
      modifies this`lines, this`axisPoints, this`mx, this`my, this`logX, this`logY, this`calibrated, this`current
      ensures lines == s.lines && current == s.current && axisPoints == s.axisPoints && mx == s.mx
      ensures my == s.my && logX == s.logX && logY == s.logY && calibrated == s.calibrated
    {
      lines := s.lines;
      current := s.current;
      axisPoints := s.axisPoints;
      mx := s.mx;
      my := s.my;
      logX := s.logX;
      logY := s.logY;
      calibrated := s.calibrated;
    }

    /** Assigns the recorded settings and the stroke. */
    method AssignSettings(s: Snapshot)
      modifies this`view, this`mode, this`highlightPath, this`highlighting, this`detection
      ensures view == s.view && mode == s.mode && highlightPath == s.highlightPath
      ensures highlighting == s.highlighting && detection == s.detection
    {
      view := s.view;
      mode := s.mode;
      highlightPath := s.highlightPath;
      highlighting := s.highlighting;
      detection := s.detection;
    }

    method Undo()
      requires Valid()
      modifies this`historyIndex, this`lines, this`axisPoints, this`mx, this`my, this`logX, this`logY,
        this`calibrated, this`view, this`mode, this`current, this`highlightPath, this`highlighting, this`detection
      ensures Valid()
      ensures Hist() == History.Undo(old(Hist()))
      ensures CanUndo(old(Hist())) ==> Snap() == history[historyIndex]
      ensures !CanUndo(old(Hist())) ==> Snap() == old(Snap())
    {
      if historyIndex <= 0 {
        return;
      }
      historyIndex := historyIndex - 1;
      Restore(history[historyIndex]);
    }

    method Redo()
      requires Valid()
      modifies this`historyIndex, this`lines, this`axisPoints, this`mx, this`my, this`logX, this`logY,
        this`calibrated, this`view, this`mode, this`current, this`highlightPath, this`highlighting, this`detection
      ensures Valid()
      ensures Hist() == History.Redo(old(Hist()))
      ensures CanRedo(old(Hist())) ==> Snap() == history[historyIndex]
      ensures !CanRedo(old(Hist())) ==> Snap() == old(Snap())
    {
      if historyIndex >= |history| - 1 {
        return;
      }
      historyIndex := historyIndex + 1;
      Restore(history[historyIndex]);
    }

    // -------------------------------------------------------------------
    // Calibration (modules/calibration.js)

    /** `handleAxisClick`: one more axis point, with no limit on how many. */
    method AxisClick(snapped: Pt)
      modifies this`axisPoints
      ensures axisPoints == old(axisPoints) + [snapped]
    {
      axisPoints := axisPoints + [snapped];
    }

    /**
     * `calibrate`: refused with too few axis points or an unparsable value,
     * otherwise both axes are fitted through the clicked pixels, the state
     * counts as calibrated even when a fit divided by zero, and it is recorded.
     */
    method Calibrate(shared: bool, x1: Num, x2: Num, y1: Num, y2: Num) returns (ok: bool)
      requires Valid()
      modifies this`mx, this`my, this`calibrated, this`history, this`historyIndex
      ensures Valid()
      ensures ok <==> |axisPoints| >= Needed(shared) && x1.Fin? && x2.Fin? && y1.Fin? && y2.Fin?
      ensures !ok ==> mx == old(mx) && my == old(my) && calibrated == old(calibrated) && Hist() == old(Hist())
      ensures ok ==> var px := PixelsOf(axisPoints, shared);
        && mx == FitAffine(px.x1, px.x2, x1.v, x2.v) && my == FitAffine(px.yRef, px.y2, y1.v, y2.v)
        && calibrated && Hist() == Record(old(Hist()), Snap())
    {
      if |axisPoints| < Needed(shared) || !(x1.Fin? && x2.Fin? && y1.Fin? && y2.Fin?) {
        return false;
      }
      var px := PixelsOf(axisPoints, shared);
      mx := FitAffine(px.x1, px.x2, x1.v, x2.v);
      my := FitAffine(px.yRef, px.y2, y1.v, y2.v);
      calibrated := true;
      SaveState();
      ok := true;
    }

    /** Empties every line's points; names, sort flags and counters stay. */
    method EmptyLines()
      modifies this`lines
      ensures |lines| == |old(lines)|
      ensures forall i :: 0 <= i < |lines| ==> lines[i] == old(lines)[i].(points := [])
    {
      var i := 0;
      while i < |lines|
        invariant 0 <= i <= |lines| == |old(lines)|
        invariant forall j :: 0 <= j < i ==> lines[j] == old(lines)[j].(points := [])
        invariant forall j :: i <= j < |lines| ==> lines[j] == old(lines)[j]
      {
        lines := lines[i := lines[i].(points := [])];
        i := i + 1;
      }
    }

    /** `resetCalibration`, once confirmed: no axis points, zero fits, uncalibrated, every line emptied, recorded. */
    method ResetCalibration()
      requires Valid()
      modifies this`axisPoints, this`calibrated, this`mx, this`my, this`lines, this`history, this`historyIndex
      ensures Valid()
      ensures axisPoints == [] && !calibrated && mx == Zero && my == Zero
      ensures |lines| == |old(lines)|
      ensures forall i :: 0 <= i < |lines| ==> lines[i] == old(lines)[i].(points := [])
      ensures Hist() == Record(old(Hist()), Snap())
    {
      axisPoints := [];
      calibrated := false;
      mx, my := Zero, Zero;
      EmptyLines();
      SaveState();
    }

    method ToggleLogX()
      modifies this`logX
      ensures logX == !old(logX)
    {
      logX := !logX;
    }

    method ToggleLogY()
      modifies this`logY
      ensures logY == !old(logY)
    {
      logY := !logY;
    }

    // -------------------------------------------------------------------
    // Points (modules/points.js)

    /**
     * `handlePointClick`: the current line changes as `Clicked` describes,
     * the others stay, and the state is recorded in every case. Returns the
     * index picked, or -1.
     */
    method PointClick(snapped: Pt) returns (idx: int)
      requires Valid() && HasCurrent()
      modifies this`lines, this`history, this`historyIndex
      ensures Valid() && HasCurrent()
      ensures |lines| == |old(lines)|
      ensures forall i :: 0 <= i < |lines| && i != current ==> lines[i] == old(lines)[i]
      ensures Clicked(old(lines)[current], lines[current], mode, snapped, mx, my, idx)
      ensures Hist() == Record(old(Hist()), Snap())
    {
      var next;
      next, idx := ClickLine(lines[current], mode, snapped, mx, my);
      lines := lines[current := next];
      SaveState();
    }

    /** `startHighlight`: a new, empty stroke, then the first sample as `moveHighlight` takes it. */
    method StartHighlight(snapped: Pt)
      modifies this`highlighting, this`highlightPath, this`lastHighlight
      ensures highlighting
      ensures var last := old(lastHighlight);
        if last.Some? && Closer(last.value, snapped, StrokeSpacing) then highlightPath == [] && lastHighlight == last
        else highlightPath == [snapped] && lastHighlight == Some(snapped)
    {
      highlighting := true;
      highlightPath := [];
      MoveHighlight(snapped);
    }

    /**
     * `moveHighlight`: while a stroke is drawn, a sample at least three
     * pixels from the last kept one is appended and becomes the last kept one.
     */
    method MoveHighlight(snapped: Pt)
      modifies this`highlightPath, this`lastHighlight
      ensures var keep := old(highlighting) && !(old(lastHighlight).Some? && Closer(old(lastHighlight).value, snapped, StrokeSpacing));
        && (keep ==> highlightPath == old(highlightPath) + [snapped] && lastHighlight == Some(snapped))
        && (!keep ==> highlightPath == old(highlightPath) && lastHighlight == old(lastHighlight))
    {
      if !highlighting {
        return;
      }
      if lastHighlight.Some? && Closer(lastHighlight.value, snapped, StrokeSpacing) {
        return;
      }
      highlightPath := highlightPath + [snapped];
      lastHighlight := Some(snapped);
    }

    /** Numbers the traced positions on from the current line's counter, one at a time. */
    method StampTraced(pts: seq<Pt>)
      requires HasCurrent()
      modifies this`lines
      ensures lines == old(lines)[current := Appended(old(lines)[current], pts, mx, my)]
    {
      var line := lines[current];
      var k := 0;
      while k < |pts|
        invariant 0 <= k <= |pts|
        invariant line == Appended(old(lines)[current], pts[..k], mx, my)
      {
        var l0 := old(lines)[current];
        assert Stamped(pts[..k + 1], l0.orderCounter, mx, my)
            == Stamped(pts[..k], l0.orderCounter, mx, my) + [Placed(pts[k], line.orderCounter + 1, mx, my)];
        line := line.(points := line.points + [Placed(pts[k], line.orderCounter + 1, mx, my)],
                      orderCounter := line.orderCounter + 1);
        k := k + 1;
      }
      assert pts[..k] == pts;
      lines := lines[current := line];
    }

    /**
     * `interpolateHighlight`: a stroke shorter than two samples changes
     * nothing; otherwise the subdivided stroke is appended to the current
     * line, the stroke is cleared and the state recorded.
     */
    method InterpolateHighlight(nInput: Option<int>)
      requires Valid() && HasCurrent()
      modifies this`lines, this`highlightPath, this`history, this`historyIndex
      ensures Valid() && HasCurrent()
      ensures |old(highlightPath)| < 2 ==>
        lines == old(lines) && highlightPath == old(highlightPath) && Hist() == old(Hist())
      ensures |old(highlightPath)| >= 2 ==>
        && lines == old(lines)[current := Traced(old(lines)[current], old(highlightPath), Divisions(nInput), mx, my)]
        && highlightPath == [] && Hist() == Record(old(Hist()), Snap())
    {
      var n := Divisions(nInput);
      if |highlightPath| < 2 {
        return;
      }
      var pts := Subdivide(highlightPath, n);
      StampTraced(pts);
      highlightPath := [];
      SaveState();
    }

    /** `endHighlight`: finishes a stroke in progress and forgets the last kept sample. */
    method EndHighlight(nInput: Option<int>)
      requires Valid() && HasCurrent()
      modifies this`highlighting, this`lastHighlight, this`lines, this`highlightPath, this`history, this`historyIndex
      ensures Valid() && HasCurrent()
      ensures !old(highlighting) ==>
        && lines == old(lines) && highlightPath == old(highlightPath) && Hist() == old(Hist())
        && lastHighlight == old(lastHighlight) && !highlighting
      ensures old(highlighting) && |old(highlightPath)| < 2 ==>
        && lines == old(lines) && highlightPath == old(highlightPath) && Hist() == old(Hist())
        && lastHighlight == None && !highlighting
      ensures old(highlighting) && |old(highlightPath)| >= 2 ==>
        && lines == old(lines)[current := Traced(old(lines)[current], old(highlightPath), Divisions(nInput), mx, my)]
        && highlightPath == [] && lastHighlight == None && !highlighting
        && Hist() == Record(old(Hist()), Snap())
    {
      if !highlighting {
        return;
      }
      highlighting := false;
      InterpolateHighlight(nInput);
      lastHighlight := None;
    }

    /** `deleteHighlight`: drops the stroke; the last kept sample is not forgotten. */
    method DeleteHighlight()
      modifies this`highlightPath
      ensures highlightPath == []
    {
      highlightPath := [];
    }

    /** `clearCurrentLine`, once confirmed: no points, counter back to zero, the sort flag kept; recorded. */
    method ClearCurrentLine()
      requires Valid() && HasCurrent()
      modifies this`lines, this`history, this`historyIndex
      ensures Valid() && HasCurrent()
      ensures lines == old(lines)[current := old(lines)[current].(points := [], orderCounter := 0)]
      ensures WellNumbered(lines[current])
      ensures Hist() == Record(old(Hist()), Snap())
    {
      lines := lines[current := lines[current].(points := [], orderCounter := 0)];
      SaveState();
    }

    /** `sortCurrentLine`: flips the current line's sort flag only; not recorded. */
    method SortCurrentLine()
      requires HasCurrent()
      modifies this`lines
      ensures lines == old(lines)[current := old(lines)[current].(sorted := !old(lines)[current].sorted)]
      ensures multiset(ExportOrder(lines[current])) == multiset(old(lines)[current].points)
    {
      lines := lines[current := lines[current].(sorted := !lines[current].sorted)];
      ExportOrderPermutes(lines[current]);
    }

    // -------------------------------------------------------------------
    // Controls (modules/ui.js)

    /** The reset-axis-points button: the clicks are forgotten, nothing else changes. */
    method ResetAxisPoints()
      modifies this`axisPoints
      ensures axisPoints == []
    {
      axisPoints := [];
    }

    /** A new empty line under a non-empty typed name (taken or not), made current; not recorded. */
    method NewLine(name: Option<string>)
      modifies this`lines, this`current
      ensures name.Some? && name.value != [] ==>
        lines == old(lines) + [Line(name.value, [], false, 0)] && current == |lines| - 1 && HasCurrent()
      ensures name.None? || name.value == [] ==> lines == old(lines) && current == old(current)
      ensures name.Some? && name.value != [] ==> WellNumbered(lines[current])
    {
      if name.Some? && name.value != [] {
        lines := lines + [Line(name.value, [], false, 0)];
        current := |lines| - 1;
      }
    }

    /** Renames the current line to a non-empty typed name; nothing else changes. */
    method RenameLine(name: Option<string>)
      requires HasCurrent()
      modifies this`lines
      ensures name.Some? && name.value != [] ==> lines == old(lines)[current := old(lines)[current].(name := name.value)]
      ensures name.None? || name.value == [] ==> lines == old(lines)
    {
      if name.Some? && name.value != [] {
        lines := lines[current := lines[current].(name := name.value)];
      }
    }

    /** The line selector: the chosen line becomes current. */
    method SelectLine(i: int)
      requires 0 <= i < |lines|
      modifies this`current
      ensures current == i && HasCurrent()
    {
      current := i;
    }

    /**
     * `setMode`: sets the mode and says whether the axis-value inputs and the
     * stroke controls are shown.
     */
    method SetMode(m: Mode) returns (axisInputs: bool, strokeControls: bool)
      modifies this`mode
      ensures mode == m
      ensures axisInputs <==> m == Axes && |axisPoints| > 0 && !calibrated
      ensures strokeControls <==> m == Highlight
    {
      mode := m;
      strokeControls := m == Highlight;
      axisInputs := m == Axes && |axisPoints| > 0 && !calibrated;
    }

    /** The colour pickers: the typed colour, or `None` when it is not six hex digits. */
    method SetBgColor(hex: string)
      modifies this`detection
      ensures detection == old(detection).(bgColor := HexToRgb(hex))
      ensures detection.bgColor.Some? ==> IsByteColor(detection.bgColor.value)
    {
      detection := detection.(bgColor := HexToRgb(hex));
    }

    method SetLineColor(hex: string)
      modifies this`detection
      ensures detection == old(detection).(lineColor := HexToRgb(hex))
      ensures detection.lineColor.Some? ==> IsByteColor(detection.lineColor.value)
    {
      detection := detection.(lineColor := HexToRgb(hex));
    }

    // -------------------------------------------------------------------
    // Files (modules/io.js)

    /** `exportCsv`: each line's block, with its points in export order; storage is not reordered. */
    method ExportCsv() returns (rows: seq<Row>)
      ensures rows == CsvRows(InExportOrder(lines))
    {
      rows := [];
      for i := 0 to |lines|
        invariant rows == CsvRows(InExportOrder(lines[..i]))
      {
        var l := lines[i];
        var pts := ExportOrder(l);
        var block := [Title(l.name), Header];
        for k := 0 to |pts|
          invariant block == [Title(l.name), Header] + seq(k, j requires 0 <= j < k => Values(pts[j].dataX, pts[j].dataY))
        {
          block := block + [Values(pts[k].dataX, pts[k].dataY)];
        }
        block := block + [Blank];
        assert block == LineRows(l.(points := pts));
        assert InExportOrder(lines[..i + 1]) == InExportOrder(lines[..i]) + [l.(points := pts)];
        rows := rows + block;
      }
      assert lines[..|lines|] == lines;
    }

    /**
     * `importJson`: a file whose `lines` is not an array is refused and
     * nothing changes; otherwise every field is taken from it, falsy ones
     * defaulted. The stroke, the history and the selection tool are untouched.
     */
    method ImportJson(doc: RawDoc) returns (ok: bool)
      modifies this`lines, this`axisPoints, this`mx, this`my, this`logX, this`logY, this`calibrated,
        this`view, this`mode, this`current, this`highlightPath, this`highlighting, this`detection
      ensures ok <==> doc.lines.Some?
      ensures ok ==> Snap() == Imported(doc, old(Snap()))
      ensures !ok ==> Snap() == old(Snap())
    {
      if doc.lines.None? {
        return false;
      }
      Restore(Imported(doc, Snap()));
      ok := true;
    }
  }
}
