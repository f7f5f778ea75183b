/**
 * The global-state variant (core.js, point-line.js, data-history.js): the
 * document, the calibration and the view are globals that event handlers
 * change in place, most of them closing with `saveState`.
 *
 * Calibration follows convention B (`data = scale * pixel + offset`); the
 * conversion of canvas points is the corrected `CoreToData`.
 */
module ClassicApp {
  import opened Wrappers
  import opened Geometry
  import opened Coordinates
  import opened Document
  import opened History
  import opened Resample
  import opened Text

  /** The fields `saveState` copies into a history entry. */
  datatype Snapshot = Snapshot(
    lines: seq<Line>, axisPoints: seq<Pt>, mx: Linear, my: Linear,
    logX: bool, logY: bool, calibrated: bool, view: View, mode: Mode, current: int)

  /** The scale and offset globals before any calibration, and after a reset (`null`). */
  const Unset: Linear := Linear(NaN, NaN)

  /** The recorded state at page load and after a total reset: one empty `Line 1`, nothing calibrated. */
  const Initial: Snapshot := Snapshot([DefaultLine], [], Unset, Unset, false, false, false, DefaultView, NoMode, 0)

  /** A state the handlers can work on: the current line exists and the zoom is positive. */
  predicate Usable(s: Snapshot)
  {
    0 <= s.current < |s.lines| && s.view.zoom > 0.0
  }

  // ---------------------------------------------------------------------
  // Axis points

  /**
   * The axis points after a click in axes mode: the click is appended while
   * fewer than `Needed` are set, and in orthogonal mode without a shared
   * origin the third point brings a synthesised fourth with it.
   */
  function AxisClickPoints(ap: seq<Pt>, shared: bool, orthogonal: bool, click: Pt): (r: seq<Pt>)
    ensures |ap| <= Needed(shared) ==> |r| <= Needed(shared)
    ensures |ap| >= Needed(shared) ==> r == ap
    ensures |ap| < Needed(shared) ==> |r| > |ap| && r[..|ap| + 1] == ap + [click]
    ensures orthogonal && !shared && |ap| == 2 ==>
      |r| == 4 && r[3] == OrthogonalFourth(r[0], r[1])
    ensures |ap| < Needed(shared) && !(orthogonal && !shared && |ap| == 2) ==> |r| == |ap| + 1
  {
    var pushed := if |ap| < Needed(shared) then ap + [click] else ap;
    if orthogonal && !shared && |pushed| == 3 then
      assert pushed[..2] == ap;
      pushed + [OrthogonalFourth(pushed[0], pushed[1])]
    else pushed
  }

  /** The orthogonal fourth point is at a right angle to the X axis and as far from the origin as X2. */
  lemma OrthogonalClickSquare(ap: seq<Pt>, click: Pt)
    requires |ap| == 2
    ensures var r := AxisClickPoints(ap, false, true, click);
      (r[3].x - r[0].x) * (r[1].x - r[0].x) + (r[3].y - r[0].y) * (r[1].y - r[0].y) == 0.0 &&
      SqDist(r[3], r[0]) == SqDist(r[1], r[0]) && r[2] == click
  {
    var r := AxisClickPoints(ap, false, true, click);
    assert r[..3] == ap + [click];
    assert r[2] == (ap + [click])[2];
  }

  /** Every axis value is a number and each axis has two distinct values. */
  predicate ValuesAccepted(x1: Num, x2: Num, y1: Num, y2: Num)
  {
    x1.Fin? && x2.Fin? && y1.Fin? && y2.Fin? && x1.v != x2.v && y1.v != y2.v
  }

  /** The four fitted numbers are finite. */
  predicate Fitted(mx: Linear, my: Linear)
  {
    mx.scale.Fin? && mx.offset.Fin? && my.scale.Fin? && my.offset.Fin?
  }

  /**
   * After a successful calibration each calibration pixel converts to the
   * value entered for it: X1 and X2 on the X axis, the Y reference pixel (the
   * origin with a shared origin, Y1 otherwise) and Y2 on the Y axis.
   */
  lemma CalibrationEndpoints(ap: seq<Pt>, shared: bool, x1: Num, x2: Num, y1: Num, y2: Num, e: Exp10)
    requires |ap| >= Needed(shared) && ValuesAccepted(x1, x2, y1, y2)
    requires var px := PixelsOf(ap, shared);
      Fitted(FitAffine(px.x1, px.x2, x1.v, x2.v), FitAffine(px.yRef, px.y2, y1.v, y2.v))
    ensures var px := PixelsOf(ap, shared);
      var mx, my := FitAffine(px.x1, px.x2, x1.v, x2.v), FitAffine(px.yRef, px.y2, y1.v, y2.v);
      ToData(mx, my, false, false, e, Pt(px.x1, px.yRef)) == Some(Pt(x1.v, y1.v)) &&
      ToData(mx, my, false, false, e, Pt(px.x2, px.y2)) == Some(Pt(x2.v, y2.v))
  {
    var px := PixelsOf(ap, shared);
    CoreToDataEndpoints(px.x1, px.x2, x1.v, x2.v, e);
    CoreToDataEndpoints(px.yRef, px.y2, y1.v, y2.v, e);
  }

  // ---------------------------------------------------------------------
  // Conversion and the points it produces

  /** `canvasToDataCoords`, corrected: both data values, or nothing when either is not finite. */
  function ToData(mx: Linear, my: Linear, logX: bool, logY: bool, e: Exp10, p: Pt): (r: Option<Pt>)
    ensures r.Some? <==> CoreToData(mx, logX, e, p.x).Fin? && CoreToData(my, logY, e, p.y).Fin?
  {
    var dx, dy := CoreToData(mx, logX, e, p.x), CoreToData(my, logY, e, p.y);
    if dx.Fin? && dy.Fin? then Some(Pt(dx.v, dy.v)) else None
  }

  /** Everything the conversion of a canvas point reads: both fits, both log flags and `Math.pow`. */
  datatype Cal = Cal(mx: Linear, my: Linear, logX: bool, logY: bool, e: Exp10)

  function Convert(cal: Cal, p: Pt): Option<Pt>
  {
    ToData(cal.mx, cal.my, cal.logX, cal.logY, cal.e, p)
  }

  /** The reading a sample gives: none for a missing sample (`0 / 0`) or one that does not convert. */
  function Reading(sample: Option<Pt>, cal: Cal): seq<Point>
  {
    match sample
    case None => []
    case Some(p) =>
      match Convert(cal, p)
      case None => []
      case Some(d) => [Point(p.x, p.y, Fin(d.x), Fin(d.y), None)]
  }

  /** The points a highlight commit stores: each sample that converts, in order, without an order number. */
  function Readings(samples: seq<Option<Pt>>, cal: Cal): seq<Point>
  {
    if samples == [] then []
    else Readings(samples[..|samples| - 1], cal) + Reading(samples[|samples| - 1], cal)
  }

  /**
   * Every stored point has no order and finite data, sits on one of the
   * samples and converts to its data.
   */
  lemma {:induction false} ReadingsSound(samples: seq<Option<Pt>>, cal: Cal)
    ensures var r := Readings(samples, cal);
      |r| <= |samples| &&
      forall k :: 0 <= k < |r| ==>
        r[k].order.None? && r[k].dataX.Fin? && r[k].dataY.Fin? &&
        Some(At(r[k])) in samples && Convert(cal, At(r[k])) == Some(Pt(r[k].dataX.v, r[k].dataY.v))
  {
    if samples != [] {
      var init, last := samples[..|samples| - 1], samples[|samples| - 1];
      ReadingsSound(init, cal);
      var r, rest := Readings(samples, cal), Readings(init, cal);
      assert r == rest + Reading(last, cal);
      forall k | 0 <= k < |r|
        ensures r[k].order.None? && r[k].dataX.Fin? && r[k].dataY.Fin? &&
          Some(At(r[k])) in samples && Convert(cal, At(r[k])) == Some(Pt(r[k].dataX.v, r[k].dataY.v))
      {
        if k < |rest| {
          assert r[k] == rest[k];
          var j :| 0 <= j < |init| && init[j] == Some(At(rest[k]));
          assert samples[j] == init[j];
        } else {
          assert samples[|samples| - 1] == last;
        }
      }
    }
  }

  /** Every sample that converts is stored. */
  lemma {:induction false} ReadingsComplete(samples: seq<Option<Pt>>, cal: Cal, i: nat)
    requires i < |samples| && samples[i].Some? && Convert(cal, samples[i].value).Some?
    ensures exists k :: 0 <= k < |Readings(samples, cal)| && At(Readings(samples, cal)[k]) == samples[i].value
  {
    var init, last := samples[..|samples| - 1], samples[|samples| - 1];
    var r, rest := Readings(samples, cal), Readings(init, cal);
    assert r == rest + Reading(last, cal);
    if i < |init| {
      assert init[i] == samples[i];
      ReadingsComplete(init, cal, i);
      var k :| 0 <= k < |rest| && At(rest[k]) == samples[i].value;
      assert r[k] == rest[k];
    } else {
      assert r[|rest|] == Reading(last, cal)[0];
    }
  }

  /**
   * What `interpolatePoints` gives for a stroke of `path` and a count `n`
   * (`None` is the NaN `parseInt` gives for an empty or non-numeric box): a
   * path too short to resample comes back as it is; a NaN count emits no
   * sample and `slice(0, NaN)` empties the result; otherwise `n` samples
   * starting at the first point, the rest at the multiples of the step
   * along the path, or not finite when the path has length 0.
   */
  ghost predicate StrokeSamples(path: seq<Pt>, n: Option<int>, dist: (Pt, Pt) -> real, samples: seq<Option<Pt>>)
  {
    && (|path| < 2 ==> samples == seq(|path|, i requires 0 <= i < |path| => Some(path[i])))
    && (|path| >= 2 && n.None? ==> samples == [])
    && (|path| >= 2 && n.Some? ==>
          var k := n.value;
          && (k == 1 ==> samples == [Some(path[0])])
          && (k >= 2 ==> |samples| == k && samples[0] == Some(path[0]))
          && (k >= 2 && Total(path, dist) == 0.0 ==> forall j :: 1 <= j < k ==> samples[j] == None)
          && (k >= 2 && Total(path, dist) != 0.0 ==>
                forall j :: 1 <= j < |samples| ==> (samples[j].Some? &&
                  SampleAt(path, dist, Mark(Total(path, dist) / (k - 1) as real, j), samples[j].value))))
  }

  /** The resampling of a finished stroke: `interpolatePoints` with the parsed count `n`. */
  method StrokeSampling(path: seq<Pt>, n: Option<int>, dist: (Pt, Pt) -> real) returns (samples: seq<Option<Pt>>)
    requires NonNegative(dist) && (n.Some? ==> n.value >= 1)
    ensures StrokeSamples(path, n, dist, samples)
  {
    if n.None? {
      samples := if |path| < 2 then seq(|path|, i requires 0 <= i < |path| => Some(path[i])) else [];
    } else {
      samples := ResampleUnguarded(path, n.value, dist);
    }
  }

  /** `nPoints < 1` for the parsed count; false for NaN. */
  predicate TooFew(n: Option<int>)
  {
    n.Some? && n.value < 1
  }

  /** The line a stroke commits: the chosen name and every sample that converts under the calibration. */
  function StrokeLine(typed: string, count: nat, samples: seq<Option<Pt>>,
                      mx: Linear, my: Linear, logX: bool, logY: bool, e: Exp10): Line
  {
    Line(HighlightName(typed, count), Readings(samples, Cal(mx, my, logX, logY, e)), false, 0)
  }

  /** The name of a highlighted line: the typed one, or `Highlighted Line <count + 1>`. */
  function HighlightName(typed: string, count: nat): (r: string)
    ensures r != []
    ensures typed != [] ==> r == typed
  {
    if typed != [] then typed else HighlightedLineName(count)
  }

  // ---------------------------------------------------------------------
  // Exports

  /** One XLSX sheet: a sanitised name and the points of its rows, after the `X, Y` header. */
  datatype Sheet = Sheet(name: string, points: seq<Point>)

  /** The sheet of a non-empty line: its name made safe, its points sorted by data X. */
  function SheetOf(l: Line): Sheet
  {
    Sheet(SheetName(l.name), SortBy(l.points, ByDataX))
  }

  /** The sheets of the XLSX export: one per non-empty line, in document order. */
  function XlsxSheets(lines: seq<Line>): (r: seq<Sheet>)
    ensures |r| <= |lines|
  {
    if lines == [] then []
    else
      var rest := XlsxSheets(lines[..|lines| - 1]);
      var last := lines[|lines| - 1];
      if last.points == [] then rest else rest + [SheetOf(last)]
  }

  /** Each sheet comes from a line that has points. */
  lemma {:induction false} XlsxSheetSource(lines: seq<Line>, k: nat)
    requires k < |XlsxSheets(lines)|
    ensures exists i :: 0 <= i < |lines| && lines[i].points != [] && XlsxSheets(lines)[k] == SheetOf(lines[i])
  {
    var init, last := lines[..|lines| - 1], lines[|lines| - 1];
    var rest := XlsxSheets(init);
    var all := XlsxSheets(lines);
    assert all == if last.points == [] then rest else rest + [SheetOf(last)];
    if k < |rest| {
      XlsxSheetSource(init, k);
      var i :| 0 <= i < |init| && init[i].points != [] && rest[k] == SheetOf(init[i]);
      assert lines[i] == init[i] && all[k] == rest[k];
    } else {
      assert all[k] == SheetOf(last) && last.points != [];
      assert lines[|lines| - 1] == last;
    }
  }

  /** Every line that has points gets its sheet. */
  lemma {:induction false} XlsxSheetPresent(lines: seq<Line>, i: nat)
    requires i < |lines| && lines[i].points != []
    ensures SheetOf(lines[i]) in XlsxSheets(lines)
  {
    var init, last := lines[..|lines| - 1], lines[|lines| - 1];
    var rest := XlsxSheets(init);
    var all := XlsxSheets(lines);
    assert all == if last.points == [] then rest else rest + [SheetOf(last)];
    if i < |init| {
      XlsxSheetPresent(init, i);
      assert init[i] == lines[i];
      var k :| 0 <= k < |rest| && rest[k] == SheetOf(init[i]);
      assert all[k] == rest[k];
    } else {
      assert all[|all| - 1] == SheetOf(last);
    }
  }

  /**
   * Every sheet is named within the workbook's limits and holds a non-empty
   * line's points, sorted by data X whenever those are all numbers.
   */
  lemma XlsxSheetsShape(lines: seq<Line>, k: nat)
    requires k < |XlsxSheets(lines)|
    ensures var s := XlsxSheets(lines)[k];
      |s.name| <= 31 && (forall j :: 0 <= j < |s.name| ==> !ForbiddenInSheet(s.name[j])) &&
      s.points != [] &&
      (AllKeysFinite(s.points, ByDataX) ==> SortedBy(s.points, ByDataX))
  {
    XlsxSheetSource(lines, k);
    var i :| 0 <= i < |lines| && lines[i].points != [] && XlsxSheets(lines)[k] == SheetOf(lines[i]);
    SheetOfShape(lines[i]);
  }

  /** The sheet of one non-empty line has the shape `XlsxSheetsShape` promises. */
  lemma SheetOfShape(l: Line)
    requires l.points != []
    ensures var s := SheetOf(l);
      |s.name| <= 31 && (forall j :: 0 <= j < |s.name| ==> !ForbiddenInSheet(s.name[j])) &&
      s.points != [] &&
      (AllKeysFinite(s.points, ByDataX) ==> SortedBy(s.points, ByDataX))
  {
    var ps := l.points;
    var s := SortBy(ps, ByDataX);
    SortByPermutes(ps, ByDataX);
    assert ps[0] in multiset(s);
    if AllKeysFinite(s, ByDataX) {
      forall j | 0 <= j < |ps| ensures Key(ps[j], ByDataX).Fin? {
        assert ps[j] in multiset(s);
        var m :| 0 <= m < |s| && s[m] == ps[j];
      }
      SortBySorted(ps, ByDataX);
    }
  }

  /** The XLSX export refuses ("No data to export") exactly when every line is empty. */
  function ExportXlsx(lines: seq<Line>): (r: Option<seq<Sheet>>)
    ensures r.None? <==> forall i :: 0 <= i < |lines| ==> lines[i].points == []
    ensures r.Some? ==> r.value == XlsxSheets(lines)
  {
    var sheets := XlsxSheets(lines);
    if sheets == [] then
      assert forall i :: 0 <= i < |lines| ==> lines[i].points == [] by {
        forall i | 0 <= i < |lines| && lines[i].points != [] ensures false {
          XlsxSheetPresent(lines, i);
        }
      }
      None
    else
      XlsxSheetSource(lines, 0);
      Some(sheets)
  }

  // ---------------------------------------------------------------------
  // The globals and their handlers

  class Digitizer {
    /** `Math.pow(10, ·)` and its inverse. */
    const e: Exp10

    var lines: seq<Line>
    var current: int
    var axisPoints: seq<Pt>
    /** The shared-origin and orthogonal checkboxes. */
    var shared: bool
    var orthogonal: bool
    var mx: Linear
    var my: Linear
    var logX: bool
    var logY: bool
    var calibrated: bool
    var view: View
    var mode: Mode
    /** The point grabbed in adjust mode, -1 for none. */
    var selected: int
    var dragging: bool
    var highlightPath: seq<Pt>
    var highlighting: bool
    var history: seq<Snapshot>
    var historyIndex: int

    /** What `saveState` would record now. */
    function Snap(): Snapshot
      reads this`lines, this`axisPoints, this`mx, this`my, this`logX, this`logY, this`calibrated,
        this`view, this`mode, this`current
    {
      Snapshot(lines, axisPoints, mx, my, logX, logY, calibrated, view, mode, current)
    }

    function Hist(): Timeline<Snapshot>
      reads this`history, this`historyIndex
    {
      Timeline(history, historyIndex)
    }

    /**
     * The current line exists, the zoom is positive, no selection is below
     * -1, and the history is a timeline of such states. It reads only the
     * fields it constrains, so handlers that touch other fields keep it.
     */
    ghost predicate Valid()
      reads this`lines, this`current, this`view, this`selected, this`history, this`historyIndex
    {
      && 0 <= current < |lines| && view.zoom > 0.0
      && -1 <= selected
      && History.Valid(Timeline(history, historyIndex))
      && forall i :: 0 <= i < |history| ==> Usable(history[i])
    }

    /** The state at page load: one empty line, nothing calibrated, nothing recorded. */
    constructor (e: Exp10)
      ensures Valid() && this.e == e
      ensures Snap() == Initial
      ensures history == [] && highlightPath == [] && !shared && !orthogonal
    {
      this.e := e;
      lines := [DefaultLine];
      current := 0;
      axisPoints := [];
      shared := false;
      orthogonal := false;
      mx := Unset;
      my := Unset;
      logX := false;
      logY := false;
      calibrated := false;
      view := DefaultView;
      mode := NoMode;
      selected := -1;
      dragging := false;
      highlightPath := [];
      highlighting := false;
      history := [];
      historyIndex := -1;
    }

    /** `saveState`: record the current state after the cursor, dropping any redo entries. */
    method SaveState()
      requires Valid()
      modifies this`history, this`historyIndex
      ensures Valid()
      ensures Hist() == Record(old(Hist()), Snap())
    {
      var s := Snap();
      history := history[..historyIndex + 1] + [s];
      historyIndex := historyIndex + 1;
      assert forall i :: 0 <= i < |history| - 1 ==> history[i] == old(history)[i];
    }

    /** Puts every recorded field back from `s`. */
    method Restore(s: Snapshot)
      modifies this`lines, this`axisPoints, this`mx, this`my, this`logX, this`logY,
        this`calibrated, this`view, this`mode, this`current
      ensures Snap() == s
    {
      lines := s.lines;
      axisPoints := s.axisPoints;
      mx := s.mx;
      my := s.my;
      logX := s.logX;
      logY := s.logY;
      calibrated := s.calibrated;
      view := s.view;
      mode := s.mode;
      current := s.current;
    }

    /** The undo button: step back and restore that entry, or do nothing at the first entry. */
    method Undo()
      requires Valid()
      modifies this`historyIndex, this`lines, this`axisPoints, this`mx, this`my, this`logX,
        this`logY, this`calibrated, this`view, this`mode, this`current
      ensures Valid()
      ensures Hist() == History.Undo(old(Hist()))
      ensures CanUndo(old(Hist())) ==> Snap() == history[historyIndex]
      ensures !CanUndo(old(Hist())) ==> Snap() == old(Snap())
    {
      if historyIndex > 0 {
        historyIndex := historyIndex - 1;
        Restore(history[historyIndex]);
      }
    }

    /** The redo button: step forward and restore that entry, or do nothing at the last entry. */
    method Redo()
      requires Valid()
      modifies this`historyIndex, this`lines, this`axisPoints, this`mx, this`my, this`logX,
        this`logY, this`calibrated, this`view, this`mode, this`current
      ensures Valid()
      ensures Hist() == History.Redo(old(Hist()))
      ensures CanRedo(old(Hist())) ==> Snap() == history[historyIndex]
      ensures !CanRedo(old(Hist())) ==> Snap() == old(Snap())
    {
      if historyIndex < |history| - 1 {
        historyIndex := historyIndex + 1;
        Restore(history[historyIndex]);
      }
    }

    /**
     * Total reset: one empty `Line 1`, no axis points, uncalibrated, default
     * view, an emptied history, and then the one entry its `saveState` records.
     */
    method TotalReset()
      requires Valid()
      modifies this`lines, this`current, this`axisPoints, this`mx, this`my, this`logX, this`logY,
        this`calibrated, this`view, this`mode, this`highlightPath, this`history, this`historyIndex
      ensures Valid()
      ensures Snap() == Initial
      ensures highlightPath == []
      ensures history == [Initial] && historyIndex == 0
    {
      Restore(Initial);
      highlightPath := [];
      RestartHistory();
    }

    /** Empties the history and records the current state as its only entry. */
    method RestartHistory()
      requires 0 <= current < |lines| && view.zoom > 0.0 && -1 <= selected
      modifies this`history, this`historyIndex
      ensures Valid()
      ensures history == [Snap()] && historyIndex == 0
    {
      history := [];
      historyIndex := -1;
      SaveState();
      assert history == [][..0] + [Snap()];
    }

    // -------------------------------------------------------------------
    // Axes and calibration

    /** Ticking or unticking "shared origin" discards the axis points set so far. */
    method SetShared(checked: bool)
      requires Valid()
      modifies this`shared, this`axisPoints, this`history, this`historyIndex
      ensures Valid() && shared == checked && axisPoints == []
      ensures old(axisPoints) == [] ==> Hist() == old(Hist())
      ensures old(axisPoints) != [] ==> Hist() == Record(old(Hist()), Snap())
    {
      shared := checked;
      if |axisPoints| > 0 {
        axisPoints := [];
        SaveState();
      }
    }

    /** Toggling "orthogonal axes" without a shared origin keeps only X1 and X2. */
    method SetOrthogonal(checked: bool)
      requires Valid()
      modifies this`orthogonal, this`axisPoints, this`history, this`historyIndex
      ensures Valid() && orthogonal == checked
      ensures |old(axisPoints)| > 2 && !shared ==>
        axisPoints == old(axisPoints)[..2] && Hist() == Record(old(Hist()), Snap())
      ensures !(|old(axisPoints)| > 2 && !shared) ==> axisPoints == old(axisPoints) && Hist() == old(Hist())
    {
      orthogonal := checked;
      if |axisPoints| > 2 && !shared {
        axisPoints := axisPoints[..2];
        SaveState();
      }
    }

    /** A click on the canvas in axes mode; every such click is recorded. */
    method AxisClick(click: Pt)
      requires Valid()
      modifies this`axisPoints, this`history, this`historyIndex
      ensures Valid()
      ensures mode != Axes ==> axisPoints == old(axisPoints) && Hist() == old(Hist())
      ensures mode == Axes ==>
        axisPoints == AxisClickPoints(old(axisPoints), shared, orthogonal, click) &&
        Hist() == Record(old(Hist()), Snap())
    {
      if mode == Axes {
        axisPoints := AxisClickPoints(axisPoints, shared, orthogonal, click);
        SaveState();
      }
    }

    /**
     * The calibrate button. Unusable axis values change nothing. Otherwise
     * both axes are fitted and stored; only when all four fitted numbers are
     * finite does the state become calibrated and get recorded, and then
     * each calibration pixel converts to its entered value. The button does
     * not check the point count: with fewer than two points reading X1 or X2
     * throws before anything is stored, and with two or more but fewer than
     * needed the X fit is stored before reading the Y2 point throws.
     */
    method Calibrate(x1: Num, x2: Num, y1: Num, y2: Num)
      requires Valid()
      modifies this`mx, this`my, this`calibrated, this`mode, this`history, this`historyIndex
      ensures Valid()
      ensures !ValuesAccepted(x1, x2, y1, y2) || |axisPoints| < 2 ==>
        mx == old(mx) && my == old(my) && calibrated == old(calibrated) && mode == old(mode) &&
        Hist() == old(Hist())
      ensures ValuesAccepted(x1, x2, y1, y2) && 2 <= |axisPoints| < Needed(shared) ==>
        mx == FitAffine(axisPoints[0].x, axisPoints[1].x, x1.v, x2.v) && my == old(my) &&
        calibrated == old(calibrated) && mode == old(mode) && Hist() == old(Hist())
      ensures ValuesAccepted(x1, x2, y1, y2) && |axisPoints| >= Needed(shared) ==>
        var px := PixelsOf(axisPoints, shared);
        mx == FitAffine(px.x1, px.x2, x1.v, x2.v) && my == FitAffine(px.yRef, px.y2, y1.v, y2.v) &&
        (Fitted(mx, my) <==> px.x1 != px.x2 && px.yRef != px.y2)
      ensures ValuesAccepted(x1, x2, y1, y2) && |axisPoints| >= Needed(shared) && !Fitted(mx, my) ==>
        calibrated == old(calibrated) && mode == old(mode) && Hist() == old(Hist())
      ensures ValuesAccepted(x1, x2, y1, y2) && |axisPoints| >= Needed(shared) && Fitted(mx, my) ==>
        calibrated && mode == NoMode && Hist() == Record(old(Hist()), Snap())
    {
      if x1.NaN? || x2.NaN? || y1.NaN? || y2.NaN? {
        return;
      }
      if x1.v == x2.v || y1.v == y2.v {
        return;
      }
      if |axisPoints| < 2 {
        return;
      }
      if |axisPoints| < Needed(shared) {
        mx := FitAffine(axisPoints[0].x, axisPoints[1].x, x1.v, x2.v);
        return;
      }
      var px := PixelsOf(axisPoints, shared);
      var fx, fy := FitAffine(px.x1, px.x2, x1.v, x2.v), FitAffine(px.yRef, px.y2, y1.v, y2.v);
      StoreScales(fx, fy);
      if !Fitted(fx, fy) {
        return;
      }
      MarkCalibrated();
    }

    /** Stores both fitted scales, whatever they are. */
    method StoreScales(fx: Linear, fy: Linear)
      requires Valid()
      modifies this`mx, this`my
      ensures Valid() && mx == fx && my == fy
    {
      mx, my := fx, fy;
    }

    /** A successful calibration: calibrated, back to no mode, recorded. */
    method MarkCalibrated()
      requires Valid()
      modifies this`calibrated, this`mode, this`history, this`historyIndex
      ensures Valid() && calibrated && mode == NoMode
      ensures Hist() == Record(old(Hist()), Snap())
    {
      calibrated := true;
      mode := NoMode;
      SaveState();
    }

    /** Reset calibration: no axis points, no scales, uncalibrated; the lines are kept. */
    method ResetCalibration()
      requires Valid()
      modifies this`calibrated, this`axisPoints, this`mx, this`my, this`mode, this`history, this`historyIndex
      ensures Valid()
      ensures !calibrated && axisPoints == [] && mx == Unset && my == Unset && mode == NoMode
      ensures Hist() == Record(old(Hist()), Snap())
    {
      calibrated := false;
      axisPoints := [];
      mx := Unset;
      my := Unset;
      mode := NoMode;
      SaveState();
    }

    // -------------------------------------------------------------------
    // Points of the current line

    /** A click in add mode: the converted point is appended to the current line only. */
    method AddPoint(click: Pt)
      requires Valid()
      modifies this`lines, this`history, this`historyIndex
      ensures Valid()
      ensures var conv := ToData(mx, my, logX, logY, e, click);
        if mode == Add && calibrated && conv.Some? then
          var pt := Point(click.x, click.y, Fin(conv.value.x), Fin(conv.value.y), None);
          lines == old(lines)[current := old(lines)[current].(points := old(lines)[current].points + [pt])] &&
          Hist() == Record(old(Hist()), Snap())
        else
          lines == old(lines) && Hist() == old(Hist())
    {
      if mode == Add && calibrated {
        var conv := ToData(mx, my, logX, logY, e, click);
        if conv.Some? {
          var line := lines[current];
          var pt := Point(click.x, click.y, Fin(conv.value.x), Fin(conv.value.y), None);
          lines := lines[current := line.(points := line.points + [pt])];
          SaveState();
        }
      }
    }

    /** A click in delete mode removes exactly the nearest point within `10 / zoom`, if any. */
    method DeletePoint(click: Pt) returns (idx: int)
      requires Valid()
      modifies this`lines, this`history, this`historyIndex
      ensures Valid()
      ensures mode == Delete && calibrated ==> IsNearest(old(lines)[current].points, click, 10.0 / view.zoom, idx)
      ensures mode == Delete && calibrated && idx >= 0 ==>
        var ps := old(lines)[current].points;
        lines == old(lines)[current := old(lines)[current].(points := ps[..idx] + ps[idx + 1..])] &&
        Hist() == Record(old(Hist()), Snap())
      ensures !(mode == Delete && calibrated && idx >= 0) ==> lines == old(lines) && Hist() == old(Hist())
    {
      idx := -1;
      if mode == Delete && calibrated {
        var line := lines[current];
        idx := NearestIndex(line.points, click, 10.0 / view.zoom);
        if idx != -1 {
          lines := lines[current := line.(points := line.points[..idx] + line.points[idx + 1..])];
          SaveState();
        }
      }
    }

    /**
     * A press in adjust mode grabs the nearest point within `10 / zoom`, if
     * any; a miss leaves a drag still pending from an earlier press.
     */
    method GrabPoint(click: Pt)
      requires Valid()
      modifies this`selected, this`dragging
      ensures Valid()
      ensures mode == Adjust && calibrated ==>
        IsNearest(lines[current].points, click, 10.0 / view.zoom, selected) &&
        dragging == (selected != -1 || old(dragging))
      ensures !(mode == Adjust && calibrated) ==> selected == old(selected) && dragging == old(dragging)
    {
      if mode == Adjust && calibrated {
        selected := NearestIndex(lines[current].points, click, 10.0 / view.zoom);
        if selected != -1 {
          dragging := true;
        }
      }
    }

    /** Dragging a grabbed point replaces it by the converted mouse position; nothing is recorded. */
    method DragPoint(p: Pt)
      requires Valid()
      requires mode == Adjust && dragging && selected != -1 ==> selected < |lines[current].points|
      modifies this`lines
      ensures Valid()
      ensures var conv := ToData(mx, my, logX, logY, e, p);
        if mode == Adjust && dragging && selected != -1 && conv.Some? then
          var pt := Point(p.x, p.y, Fin(conv.value.x), Fin(conv.value.y), None);
          lines == old(lines)[current := old(lines)[current].(points := old(lines)[current].points[selected := pt])]
        else
          lines == old(lines)
    {
      if mode == Adjust && dragging && selected != -1 {
        var conv := ToData(mx, my, logX, logY, e, p);
        if conv.Some? {
          var line := lines[current];
          var pt := Point(p.x, p.y, Fin(conv.value.x), Fin(conv.value.y), None);
          lines := lines[current := line.(points := line.points[selected := pt])];
        }
      }
    }

    /** Releasing a dragged point ends the drag and records the result. */
    method ReleasePoint()
      requires Valid()
      modifies this`selected, this`dragging, this`history, this`historyIndex
      ensures Valid()
      ensures mode == Adjust && old(dragging) ==> !dragging && selected == -1 && Hist() == Record(old(Hist()), Snap())
      ensures !(mode == Adjust && old(dragging)) ==> dragging == old(dragging) && selected == old(selected) && Hist() == old(Hist())
    {
      if mode == Adjust && dragging {
        dragging := false;
        selected := -1;
        SaveState();
      }
    }

    /** The clear button empties the current line's points and the highlight path. */
    method ClearPoints()
      requires Valid()
      modifies this`lines, this`highlightPath, this`history, this`historyIndex
      ensures Valid()
      ensures lines == old(lines)[current := old(lines)[current].(points := [])]
      ensures highlightPath == [] && Hist() == Record(old(Hist()), Snap())
    {
      lines := lines[current := lines[current].(points := [])];
      highlightPath := [];
      SaveState();
    }

    /** The sort button reorders the current line's stored points by data X. */
    method SortPoints()
      requires Valid()
      modifies this`lines, this`history, this`historyIndex
      ensures Valid()
      ensures lines == old(lines)[current := old(lines)[current].(points := SortBy(old(lines)[current].points, ByDataX))]
      ensures multiset(lines[current].points) == multiset(old(lines)[current].points)
      ensures AllKeysFinite(old(lines)[current].points, ByDataX) ==> SortedBy(lines[current].points, ByDataX)
      ensures Hist() == Record(old(Hist()), Snap())
    {
      var line := lines[current];
      SortByPermutes(line.points, ByDataX);
      if AllKeysFinite(line.points, ByDataX) {
        SortBySorted(line.points, ByDataX);
      }
      lines := lines[current := line.(points := SortBy(line.points, ByDataX))];
      SaveState();
    }

    // -------------------------------------------------------------------
    // Highlighting

    /** A press in highlight mode starts a stroke at the click. */
    method HighlightPress(click: Pt)
      requires Valid()
      modifies this`highlighting, this`highlightPath
      ensures Valid()
      ensures mode == Highlight ==> highlighting && highlightPath == old(highlightPath) + [click]
      ensures mode != Highlight ==> highlighting == old(highlighting) && highlightPath == old(highlightPath)
    {
      if mode == Highlight {
        highlighting := true;
        highlightPath := highlightPath + [click];
      }
    }

    /** Moving the mouse during a stroke extends the path. */
    method HighlightMove(p: Pt)
      requires Valid()
      modifies this`highlightPath
      ensures Valid()
      ensures mode == Highlight && highlighting ==> highlightPath == old(highlightPath) + [p]
      ensures !(mode == Highlight && highlighting) ==> highlightPath == old(highlightPath)
    {
      if mode == Highlight && highlighting {
        highlightPath := highlightPath + [p];
      }
    }

    /** Releasing the mouse button: only a stroke in progress in highlight mode is acted on. */
    method EndHighlight(n: Option<int>, typed: string, dist: (Pt, Pt) -> real) returns (committed: bool, samples: seq<Option<Pt>>)
      requires Valid() && NonNegative(dist)
      modifies this`lines, this`current, this`mode, this`highlighting, this`highlightPath,
        this`history, this`historyIndex
      ensures Valid()
      ensures !(old(mode) == Highlight && old(highlighting)) ==>
        !committed && lines == old(lines) && current == old(current) && mode == old(mode) &&
        highlighting == old(highlighting) && highlightPath == old(highlightPath) && Hist() == old(Hist())
      ensures old(mode) == Highlight && old(highlighting) ==> !highlighting && highlightPath == []
      ensures committed ==> old(mode) == Highlight && old(highlighting)
    {
      committed, samples := false, [];
      if mode == Highlight && highlighting {
        committed, samples := CommitStroke(n, typed, dist);
      }
    }

    /**
     * The end of a stroke: `n < 1` is refused (a NaN count `None` is not);
     * otherwise the path is resampled with `n`, the converted samples become a new line that
     * turns current, and a stroke none of whose samples converts is refused.
     * The path is cleared in every case.
     */
    method CommitStroke(n: Option<int>, typed: string, dist: (Pt, Pt) -> real) returns (committed: bool, samples: seq<Option<Pt>>)
      requires Valid() && NonNegative(dist) && mode == Highlight && highlighting
      modifies this`lines, this`current, this`mode, this`highlighting, this`highlightPath,
        this`history, this`historyIndex
      ensures Valid() && !highlighting && highlightPath == []
      ensures !TooFew(n) ==> StrokeSamples(old(highlightPath), n, dist, samples)
      ensures var line := StrokeLine(typed, |old(lines)|, samples, mx, my, logX, logY, e);
        (committed <==> !TooFew(n) && line.points != []) &&
        (committed ==>
          lines == old(lines) + [line] && current == |lines| - 1 && mode == NoMode &&
          Hist() == Record(old(Hist()), Snap()))
      ensures !committed ==>
        lines == old(lines) && current == old(current) && mode == old(mode) && Hist() == old(Hist())
    {
      committed, samples := false, [];
      highlighting := false;
      if TooFew(n) {
        highlightPath := [];
        return;
      }
      samples := StrokeSampling(highlightPath, n, dist);
      var line := StrokeLine(typed, |lines|, samples, mx, my, logX, logY, e);
      highlightPath := [];
      if line.points == [] {
        return;
      }
      PushStrokeLine(line);
      committed := true;
    }

    /** A committed stroke's line is appended, made current, the mode cleared and the state recorded. */
    method PushStrokeLine(line: Line)
      requires Valid()
      modifies this`lines, this`current, this`mode, this`history, this`historyIndex
      ensures Valid()
      ensures lines == old(lines) + [line] && current == |lines| - 1 && mode == NoMode
      ensures Hist() == Record(old(Hist()), Snap())
    {
      lines := lines + [line];
      current := |lines| - 1;
      mode := NoMode;
      SaveState();
    }

    // -------------------------------------------------------------------
    // Lines

    /** New line: an empty or already used name is refused; otherwise an empty line is appended and made current. */
    method NewLine(name: string)
      requires Valid()
      modifies this`lines, this`current, this`history, this`historyIndex
      ensures Valid()
      ensures name == [] || NameTaken(old(lines), name) ==>
        lines == old(lines) && current == old(current) && Hist() == old(Hist())
      ensures name != [] && !NameTaken(old(lines), name) ==>
        lines == old(lines) + [Line(name, [], false, 0)] && current == |lines| - 1 &&
        !NameTakenByOther(lines, name, current) && Hist() == Record(old(Hist()), Snap())
    {
      if name == [] || NameTaken(lines, name) {
        return;
      }
      lines := lines + [Line(name, [], false, 0)];
      current := |lines| - 1;
      SaveState();
    }

    /** Rename: an empty name or one another line has is refused; otherwise only the current line's name changes. */
    method RenameLine(name: string)
      requires Valid()
      modifies this`lines, this`history, this`historyIndex
      ensures Valid()
      ensures name == [] || NameTakenByOther(old(lines), name, current) ==>
        lines == old(lines) && Hist() == old(Hist())
      ensures name != [] && !NameTakenByOther(old(lines), name, current) ==>
        lines == old(lines)[current := old(lines)[current].(name := name)] &&
        !NameTakenByOther(lines, name, current) && Hist() == Record(old(Hist()), Snap())
    {
      if name == [] || NameTakenByOther(lines, name, current) {
        return;
      }
      lines := lines[current := lines[current].(name := name)];
      SaveState();
    }

    /** Choosing a line in the selector makes it current; nothing is recorded. */
    method SelectLine(i: int)
      requires Valid() && 0 <= i < |lines|
      modifies this`current
      ensures Valid() && current == i
    {
      current := i;
    }

    /** The CSV export: the rows of every line in turn, the file only being written out. */
    method ExportCsv() returns (rows: seq<Row>)
      ensures rows == CsvRows(lines)
    {
      rows := [];
      for i := 0 to |lines|
        invariant rows == CsvRows(lines[..i])
      {
        var line := lines[i];
        rows := rows + [Title(line.name), Header];
        for k := 0 to |line.points|
          invariant rows == CsvRows(lines[..i]) + [Title(line.name), Header] +
            seq(k, j requires 0 <= j < k => Values(line.points[j].dataX, line.points[j].dataY))
        {
          rows := rows + [Values(line.points[k].dataX, line.points[k].dataY)];
        }
        rows := rows + [Blank];
        assert lines[..i + 1][..i] == lines[..i];
      }
      assert lines[..|lines|] == lines;
    }
  }
}
