/**
 * The split global-state variant: the state and its persistence in
 * digitizer-core.js, the mouse and button handlers in digitizer-tools.js.
 * Handlers change globals in place and most close with an uncapped
 * `saveState`.
 *
 * Calibration follows convention A (`pixel = value * scale + offset`). It
 * refuses its input before touching any state. Canvas points convert with
 * `BothAxes` (`canvasToDataCoords`).
 */
module EngineApp {
  import opened Wrappers
  import opened Geometry
  import opened Coordinates
  import opened Document
  import opened Workspace
  import opened History
  import opened Resample
  import opened Pixels

  // ---------------------------------------------------------------------
  // Calibration

  /** `1e-10`, the smallest pixel separation calibrate accepts on each axis. */
  const MinSeparation: real := 0.0000000001

  /**
   * The checks of the calibrate handler in the order it makes them: the
   * values, the axis-point count, the pixel separation, the log axes. The
   * result is the first one that fails, or none.
   */
  function Check(ap: seq<Pt>, shared: bool, logX: bool, logY: bool, v: AxisValues): (r: Option<Refusal>)
    ensures r.None? <==> Acceptable(ap, shared, logX, logY, v, MinSeparation)
    ensures r == Some(NotANumber) <==> !AllNumbers(v)
    ensures r == Some(PointCount) <==>
      AllNumbers(v) && v.x1.v != v.x2.v && v.y1.v != v.y2.v && |ap| != Needed(shared)
  {
    if !AllNumbers(v) then Some(NotANumber)
    else if v.x1.v == v.x2.v || v.y1.v == v.y2.v then Some(SameValues)
    else if |ap| != Needed(shared) then Some(PointCount)
    else
      var px := PixelsOf(ap, shared);
      if !Separated(px.x1, px.x2, MinSeparation) then Some(XPixelsTooClose)
      else if !Separated(px.yRef, px.y2, MinSeparation) then Some(YPixelsTooClose)
      else if logX && (v.x1.v <= 0.0 || v.x2.v <= 0.0) then Some(LogXNotPositive)
      else if logY && (v.y1.v <= 0.0 || v.y2.v <= 0.0) then Some(LogYNotPositive)
      else None
  }

  // ---------------------------------------------------------------------
  // Axis clicks

  /**
   * The axis points after a click in axes mode. The click is appended while
   * fewer than `Needed` are set. In orthogonal mode it is first constrained
   * to the row or column of the points already set.
   */
  function AxisClickPoints(ap: seq<Pt>, shared: bool, orthogonal: bool, click: Pt): (r: seq<Pt>)
    ensures |ap| <= Needed(shared) ==> |r| <= Needed(shared)
    ensures |ap| < Needed(shared) <==> |r| == |ap| + 1
    ensures |ap| >= Needed(shared) <==> r == ap
    ensures |r| >= |ap| && r[..|ap|] == ap
    ensures orthogonal && Aligned(ap, shared) ==> Aligned(r, shared)
    ensures |r| == |ap| + 1 ==> r[|ap|].x == click.x || r[|ap|].y == click.y
  {
    if |ap| >= Needed(shared) then ap
    else if orthogonal && |ap| > 0 then ap + [ConstrainClick(ap, shared, click)]
    else ap + [click]
  }

  // ---------------------------------------------------------------------
  // Points added by clicks and strokes

  /** `canvasToDataCoords` as the function the highlight commit applies to each candidate. */
  function Converter(ax: Axis, ay: Axis, e: Exp10): Pt -> Option<Pt>
  {
    p => BothAxes(ax, ay, e, p)
  }

  /** The candidates after `snapToDark(p.x, p.y, false)`. */
  function SnapEach(img: Option<Image>, cv: Canvas, snapOn: bool, cands: seq<Pt>): (r: seq<Pt>)
    requires img.Some? ==> WellFormed(img.value) && Positive(cv)
    ensures |r| == |cands|
    ensures forall i :: 0 <= i < |cands| ==> r[i] == Snapped(img, cv, snapOn, false, cands[i])
  {
    seq(|cands|, i requires 0 <= i < |cands| => Snapped(img, cv, snapOn, false, cands[i]))
  }

  /** The snapping loop of the highlight commit. */
  method SnapAll(img: Option<Image>, cv: Canvas, snapOn: bool, cands: seq<Pt>) returns (snapped: seq<Pt>)
    requires img.Some? ==> WellFormed(img.value) && Positive(cv)
    ensures snapped == SnapEach(img, cv, snapOn, cands)
  {
    snapped := [];
    for i := 0 to |cands|
      invariant snapped == SnapEach(img, cv, snapOn, cands[..i])
    {
      var p := SnapToDark(img, cv, snapOn, false, cands[i]);
      snapped := snapped + [p];
    }
    assert cands[..|cands|] == cands;
  }

  /**
   * What `interpolatePoints` returns for a path of at least two points and
   * `n >= 2`. A path of length zero gives its first point. Otherwise the
   * result is `n` samples from the first point at equal arc-length steps.
   */
  ghost predicate Interpolated(path: seq<Pt>, n: int, dist: (Pt, Pt) -> real, r: seq<Pt>)
    requires |path| >= 2 && n >= 2
  {
    && (Total(path, dist) == 0.0 ==> r == [path[0]])
    && (Total(path, dist) != 0.0 ==>
          |r| == n && r[0] == path[0] &&
          forall j :: 1 <= j < |r| ==> SampleAt(path, dist, Mark(Total(path, dist) / (n - 1) as real, j), r[j]))
  }

  /**
   * `cands` is the path resampled to `n` candidates, and `pts` numbers the
   * snapped candidates that convert.
   */
  ghost predicate Traced(path: seq<Pt>, n: int, dist: (Pt, Pt) -> real, img: Option<Image>, cv: Canvas,
                         snapOn: bool, ax: Axis, ay: Axis, e: Exp10, cands: seq<Pt>, pts: seq<Point>)
    requires |path| >= 2 && n >= 2
    requires img.Some? ==> WellFormed(img.value) && Positive(cv)
  {
    Interpolated(path, n, dist, cands) && NumberedFrom(pts, SnapEach(img, cv, snapOn, cands), Converter(ax, ay, e))
  }

  /**
   * The points of a committed stroke. The path is resampled to `n`
   * candidates, and each candidate is snapped. Those that convert become
   * points numbered from 1.
   */
  method TraceStroke(name: string, path: seq<Pt>, n: int, dist: (Pt, Pt) -> real, img: Option<Image>, cv: Canvas,
                     snapOn: bool, ax: Axis, ay: Axis, e: Exp10) returns (cands: seq<Pt>, pts: seq<Point>)
    requires NonNegative(dist) && |path| >= 2 && n >= 2
    requires img.Some? ==> WellFormed(img.value) && Positive(cv)
    ensures Traced(path, n, dist, img, cv, snapOn, ax, ay, e, cands, pts)
    ensures WellNumbered(Line(name, pts, false, |pts|))
  {
    cands := ResampleClamped(path, n, dist);
    var snapped := SnapAll(img, cv, snapOn, cands);
    pts := NumberPoints(snapped, Converter(ax, ay, e));
    NumberedConsecutive(pts, snapped, Converter(ax, ay, e));
  }

  // ---------------------------------------------------------------------
  // Restoring a saved session

  /** A line as `JSON.parse` gives it back; the flag and the counter may be missing. */
  datatype SavedLine = SavedLine(name: string, points: seq<Point>, sorted: Option<bool>, orderCounter: Option<int>)

  /** The parsed session of `saveSession`; missing numbers are `NaN`, missing flags `false`. */
  datatype Saved = Saved(
    lines: Option<seq<SavedLine>>, axisPoints: Option<seq<Pt>>,
    scaleX: Num, scaleY: Num, offsetX: Num, offsetY: Num, logX: bool, logY: bool, calibrated: bool,
    zoom: Num, panX: Num, panY: Num, showGrid: bool, mode: Option<Mode>, current: Option<int>,
    magnifierZoom: Num, snapToLine: bool)

  /** The default for a missing line list: one empty `Line 1`. */
  const DefaultSaved: SavedLine := SavedLine("Line 1", [], Some(false), Some(0))

  function SavedLines(s: Saved): seq<SavedLine>
  {
    if s.lines.Some? then s.lines.value else [DefaultSaved]
  }

  /**
   * What a session written by `saveSession` guarantees: the current line
   * exists and the zoom, once defaulted, is positive.
   */
  predicate Restorable(s: Saved)
  {
    0 <= OrInt(s.current, 0) < |SavedLines(s)| && OrNum(s.zoom, 1.0) > 0.0
  }

  /**
   * The restored mode. A missing mode is `none`. Without a calibration the
   * digitising modes fall back to `none`.
   */
  function RestoredMode(calibrated: bool, saved: Option<Mode>): (m: Mode)
    ensures !calibrated ==> m == NoMode || m == Axes
    ensures calibrated ==> m == saved.GetOr(NoMode)
    ensures !calibrated && saved.GetOr(NoMode) in {NoMode, Axes} ==> m == saved.GetOr(NoMode)
  {
    match saved.GetOr(NoMode)
    case Add | Adjust | Delete | Highlight => if calibrated then saved.GetOr(NoMode) else NoMode
    case m => m
  }

  /**
   * `l` is the restored form of `s`. A missing `sorted` becomes false. A
   * line without a counter has its missing orders back-filled, and its
   * counter becomes the largest order.
   */
  predicate Loaded(l: Line, s: SavedLine)
  {
    && l.name == s.name && l.sorted == s.sorted.GetOr(false)
    && (s.orderCounter.Some? ==> l.points == s.points && l.orderCounter == s.orderCounter.value)
    && (s.orderCounter.None? ==>
          |l.points| == |s.points| && l.orderCounter == MaxOrder(l.points) &&
          forall k :: 0 <= k < |s.points| ==> FilledAt(l.points, s.points, k))
  }

  /** The `forEach` over the saved lines. */
  method LoadLines(saved: seq<SavedLine>) returns (lines: seq<Line>)
    ensures |lines| == |saved|
    ensures forall i :: 0 <= i < |saved| ==> Loaded(lines[i], saved[i])
  {
    lines := [];
    for i := 0 to |saved|
      invariant |lines| == i
      invariant forall j :: 0 <= j < i ==> Loaded(lines[j], saved[j])
    {
      var s := saved[i];
      var l := Line(s.name, s.points, s.sorted.GetOr(false), 0);
      if s.orderCounter.None? {
        var filled, max := BackfillOrders(s.points);
        l := l.(points := filled, orderCounter := max);
      } else {
        l := l.(orderCounter := s.orderCounter.value);
      }
      lines := lines + [l];
    }
  }

  /** A line saved before orders existed is restored numbered 1, 2, ... with the counter at its count. */
  lemma LegacyLineNumbered(l: Line, s: SavedLine)
    requires Loaded(l, s) && s.orderCounter.None?
    requires forall k :: 0 <= k < |s.points| ==> s.points[k].order.None?
    ensures forall k :: 0 <= k < |l.points| ==> l.points[k].order == Some(k + 1)
    ensures WellNumbered(l)
  {
    BackfillLegacy(s.points, l);
  }

  // ---------------------------------------------------------------------
  // The globals and their handlers

  class Engine {
    /** `Math.pow(10, ·)` and `Math.log10`. */
    const e: Exp10

    /** The pixels `snapToDark` reads (none before an image is loaded) and the canvas they are drawn on. */
    var image: Option<Image>
    var canvas: Canvas
    /** The magnet toggle. */
    var snapOn: bool

    var lines: seq<Line>
    var current: int
    var axisPoints: seq<Pt>
    /** The shared-origin and orthogonal checkboxes. */
    var shared: bool
    var orthogonal: bool
    var ax: Axis
    var ay: Axis
    var calibrated: bool
    var view: View
    var mode: Mode
    /** Whether the calibrate button is enabled. */
    var calibrateEnabled: bool
    /** The point grabbed in adjust mode, -1 for none. */
    var selected: int
    var dragging: bool
    var highlightPath: seq<Pt>
    var highlighting: bool
    var history: seq<Snapshot>
    var historyIndex: int

    /** What `saveState` would record now. */
    function Snap(): Snapshot
      reads this`lines, this`axisPoints, this`ax, this`ay, this`calibrated, this`view, this`mode,
        this`current, this`highlightPath, this`highlighting
    {
      Snapshot(lines, axisPoints, ax, ay, calibrated, view, mode, current, highlightPath, highlighting)
    }

    function Hist(): Timeline<Snapshot>
      reads this`history, this`historyIndex
    {
      Timeline(history, historyIndex)
    }

    /**
     * The current line exists, the zoom is positive, no selection is below
     * -1, a loaded image has a well-formed buffer and a canvas to scale to,
     * and the history is a timeline of usable states.
     */
    ghost predicate Valid()
      reads this`lines, this`current, this`view, this`selected, this`history, this`historyIndex
    {
      && 0 <= current < |lines| && view.zoom > 0.0
      && -1 <= selected
      && History.Valid(Timeline(history, historyIndex))
      && forall i :: 0 <= i < |history| ==> Usable(history[i])
    }

    /**
     * A loaded image has a well-formed buffer and a canvas to scale to. Only
     * the constructor and the total reset set these fields, and both
     * establish it; the handlers that snap require it.
     */
    ghost predicate Pictured()
      reads this`image, this`canvas
    {
      image.Some? ==> WellFormed(image.value) && Positive(canvas)
    }

    /** The globals at page load: one empty `Line 1`, nothing calibrated, nothing recorded. */
    constructor (e: Exp10, image: Option<Image>, canvas: Canvas)
      requires image.Some? ==> WellFormed(image.value) && Positive(canvas)
      ensures Valid() && Pictured() && this.e == e && this.image == image && this.canvas == canvas
      ensures Snap() == Snapshot([DefaultLine], [], Unset(false), Unset(false), false, DefaultView, NoMode, 0, [], false)
      ensures history == [] && !snapOn && !shared && !orthogonal
    {
      this.e := e;
      this.image := image;
      this.canvas := canvas;
      snapOn := false;
      lines := [DefaultLine];
      current := 0;
      axisPoints := [];
      shared := false;
      orthogonal := false;
      ax := Unset(false);
      ay := Unset(false);
      calibrated := false;
      view := DefaultView;
      mode := NoMode;
      calibrateEnabled := false;
      selected := -1;
      dragging := false;
      highlightPath := [];
      highlighting := false;
      history := [];
      historyIndex := -1;
    }

    // -------------------------------------------------------------------
    // History

    /** `saveState`: record the current state after the cursor, dropping any redo entries; no cap. */
    method SaveState()
      requires Valid()
      modifies this`history, this`historyIndex
      ensures Valid()
      ensures Hist() == Record(old(Hist()), Snap())
      ensures !CanRedo(Hist()) && (CanUndo(Hist()) <==> old(historyIndex) >= 0)
    {
      var s := Snap();
      history := history[..historyIndex + 1] + [s];
      historyIndex := historyIndex + 1;
      assert forall i :: 0 <= i < |history| - 1 ==> history[i] == old(history)[i];
    }

    /** `_restoreState`: every recorded field back from `s`; the calibrate button follows the point count. */
    method Restore(s: Snapshot)
      modifies this`lines, this`axisPoints, this`ax, this`ay, this`calibrated, this`view, this`mode,
        this`current, this`highlightPath, this`highlighting, this`calibrateEnabled
      ensures Snap() == s
      ensures calibrateEnabled <==> |s.axisPoints| == Needed(shared)
    {
      RestoreDocument(s);
      RestoreInteraction(s);
    }

    /** The document half of `_restoreState`. */
    method RestoreDocument(s: Snapshot)
      modifies this`lines, this`axisPoints, this`ax, this`ay, this`calibrated
      ensures lines == s.lines && axisPoints == s.axisPoints && ax == s.ax && ay == s.ay
      ensures calibrated == s.calibrated
    {
      lines, axisPoints := s.lines, s.axisPoints;
      ax, ay, calibrated := s.ax, s.ay, s.calibrated;
    }

    /** The interaction half of `_restoreState`, with the calibrate button. */
    method RestoreInteraction(s: Snapshot)
      modifies this`view, this`mode, this`current, this`highlightPath, this`highlighting, this`calibrateEnabled
      ensures view == s.view && mode == s.mode && current == s.current
      ensures highlightPath == s.highlightPath && highlighting == s.highlighting
      ensures calibrateEnabled <==> |s.axisPoints| == Needed(shared)
    {
      view, mode, current := s.view, s.mode, s.current;
      highlightPath, highlighting := s.highlightPath, s.highlighting;
      calibrateEnabled := |s.axisPoints| == Needed(shared);
    }

    /** The undo button: step back and restore that entry, or do nothing at the first entry. */
    method Undo()
      requires Valid()
      modifies this`historyIndex, this`lines, this`axisPoints, this`ax, this`ay, this`calibrated,
        this`view, this`mode, this`current, this`highlightPath, this`highlighting, this`calibrateEnabled
      ensures Valid()
      ensures Hist() == History.Undo(old(Hist()))
      ensures CanUndo(old(Hist())) ==> Snap() == history[historyIndex]
      ensures !CanUndo(old(Hist())) ==> Snap() == old(Snap()) && calibrateEnabled == old(calibrateEnabled)
    {
      if historyIndex > 0 {
        historyIndex := historyIndex - 1;
        Restore(history[historyIndex]);
      }
    }

    /** The redo button: step forward and restore that entry, or do nothing at the last entry. */
    method Redo()
      requires Valid()
      modifies this`historyIndex, this`lines, this`axisPoints, this`ax, this`ay, this`calibrated,
        this`view, this`mode, this`current, this`highlightPath, this`highlighting, this`calibrateEnabled
      ensures Valid()
      ensures Hist() == History.Redo(old(Hist()))
      ensures CanRedo(old(Hist())) ==> Snap() == history[historyIndex]
      ensures !CanRedo(old(Hist())) ==> Snap() == old(Snap()) && calibrateEnabled == old(calibrateEnabled)
    {
      if historyIndex < |history| - 1 {
        historyIndex := historyIndex + 1;
        Restore(history[historyIndex]);
      }
    }

    /**
     * `loadSession` with a stored session: lines restored with orders
     * back-filled, every other field taken with its default, and the mode
     * restored only as far as the calibration allows. Nothing is recorded.
     */
    method LoadSession(saved: Saved)
      requires Valid() && Restorable(saved)
      modifies this`lines, this`axisPoints, this`ax, this`ay, this`calibrated, this`view, this`mode,
        this`current, this`snapOn
      ensures Valid()
      ensures |lines| == |SavedLines(saved)|
      ensures forall i :: 0 <= i < |lines| ==> Loaded(lines[i], SavedLines(saved)[i])
      ensures axisPoints == saved.axisPoints.GetOr([])
      ensures ax == Axis(saved.scaleX, saved.offsetX, saved.logX) && ay == Axis(saved.scaleY, saved.offsetY, saved.logY)
      ensures calibrated == saved.calibrated && current == OrInt(saved.current, 0)
      ensures view == View(OrNum(saved.zoom, 1.0), OrNum(saved.panX, 0.0), OrNum(saved.panY, 0.0),
                           saved.showGrid, OrNum(saved.magnifierZoom, 2.0))
      ensures mode == RestoredMode(saved.calibrated, saved.mode) && snapOn == saved.snapToLine
    {
      var restored := LoadLines(SavedLines(saved));
      LoadDocument(restored, saved);
      LoadSettings(saved);
    }

    /** The lines, axes and calibration of a restored session. */
    method LoadDocument(restored: seq<Line>, saved: Saved)
      requires Valid() && Restorable(saved) && |restored| == |SavedLines(saved)|
      modifies this`lines, this`axisPoints, this`ax, this`ay, this`calibrated, this`current
      ensures Valid()
      ensures lines == restored && axisPoints == saved.axisPoints.GetOr([]) && current == OrInt(saved.current, 0)
      ensures ax == Axis(saved.scaleX, saved.offsetX, saved.logX) && ay == Axis(saved.scaleY, saved.offsetY, saved.logY)
      ensures calibrated == saved.calibrated
    {
      lines, current := restored, OrInt(saved.current, 0);
      axisPoints := saved.axisPoints.GetOr([]);
      ax, ay := Axis(saved.scaleX, saved.offsetX, saved.logX), Axis(saved.scaleY, saved.offsetY, saved.logY);
      calibrated := saved.calibrated;
    }

    /** The view, the magnet and the mode of a restored session. */
    method LoadSettings(saved: Saved)
      requires Valid() && Restorable(saved)
      modifies this`view, this`mode, this`snapOn
      ensures Valid()
      ensures view == View(OrNum(saved.zoom, 1.0), OrNum(saved.panX, 0.0), OrNum(saved.panY, 0.0),
                           saved.showGrid, OrNum(saved.magnifierZoom, 2.0))
      ensures mode == RestoredMode(saved.calibrated, saved.mode) && snapOn == saved.snapToLine
    {
      view := View(OrNum(saved.zoom, 1.0), OrNum(saved.panX, 0.0), OrNum(saved.panY, 0.0),
                   saved.showGrid, OrNum(saved.magnifierZoom, 2.0));
      snapOn := saved.snapToLine;
      mode := RestoredMode(saved.calibrated, saved.mode);
    }

    /**
     * The confirmed "clear session": no image, one empty `Line 1`, no axis
     * points, uncalibrated, linear axes, no mode, an empty history. Zoom and
     * pan are kept.
     */
    method TotalReset()
      requires Valid()
      modifies this`image, this`canvas, this`snapOn, this`lines, this`current, this`axisPoints,
        this`ax, this`ay, this`calibrated, this`view, this`mode, this`highlightPath, this`highlighting,
        this`history, this`historyIndex
      ensures Valid()
      ensures Snap() == Snapshot([DefaultLine], [], Unset(false), Unset(false), false,
        old(view).(showGrid := false, magnifierZoom := 2.0), NoMode, 0, [], false)
      ensures Pictured() && image.None? && !snapOn && history == [] && historyIndex == -1
    {
      ClearDocument();
      ClearSettings();
    }

    /** The document half of the total reset. */
    method ClearDocument()
      requires Valid()
      modifies this`lines, this`current, this`axisPoints, this`ax, this`ay, this`calibrated,
        this`mode, this`highlightPath, this`highlighting
      ensures Valid()
      ensures lines == [DefaultLine] && current == 0 && axisPoints == [] && !calibrated
      ensures ax == Unset(false) && ay == Unset(false) && mode == NoMode && highlightPath == [] && !highlighting
    {
      lines, current := [DefaultLine], 0;
      Uncalibrate(false, false);
      highlightPath, highlighting := [], false;
    }

    /** No axis points, no scales on axes of the given kinds, uncalibrated, no mode. */
    method Uncalibrate(logX: bool, logY: bool)
      modifies this`axisPoints, this`ax, this`ay, this`calibrated, this`mode
      ensures axisPoints == [] && ax == Unset(logX) && ay == Unset(logY) && !calibrated && mode == NoMode
    {
      axisPoints := [];
      ax, ay := Unset(logX), Unset(logY);
      calibrated, mode := false, NoMode;
    }

    /** The settings half of the total reset. */
    method ClearSettings()
      requires 0 <= current < |lines| && view.zoom > 0.0 && -1 <= selected
      modifies this`image, this`canvas, this`snapOn, this`view, this`history, this`historyIndex
      ensures Valid()
      ensures Pictured() && image.None? && canvas == Canvas(0.0, 0.0) && !snapOn
      ensures view == old(view).(showGrid := false, magnifierZoom := 2.0)
      ensures history == [] && historyIndex == -1
    {
      image := None;
      canvas := Canvas(0.0, 0.0);
      snapOn := false;
      view := view.(showGrid := false, magnifierZoom := 2.0);
      history := [];
      historyIndex := -1;
    }

    // -------------------------------------------------------------------
    // Axes and calibration

    /** "Set axis points": start over in axes mode; nothing is recorded. */
    method SetAxes()
      requires Valid()
      modifies this`axisPoints, this`mode, this`calibrateEnabled
      ensures Valid()
      ensures axisPoints == [] && mode == Axes && !calibrateEnabled
    {
      SetAxisPoints([]);
      mode := Axes;
    }

    /** Replaces the axis points; the calibrate button is enabled exactly when the needed number is set. */
    method SetAxisPoints(ap: seq<Pt>)
      modifies this`axisPoints, this`calibrateEnabled
      ensures axisPoints == ap && (calibrateEnabled <==> |ap| == Needed(shared))
    {
      axisPoints := ap;
      calibrateEnabled := |ap| == Needed(shared);
    }

    /** Ticking or unticking "shared origin"; in axes mode the points set so far are discarded and recorded. */
    method SetShared(checked: bool)
      requires Valid()
      modifies this`shared, this`axisPoints, this`calibrateEnabled, this`history, this`historyIndex
      ensures Valid() && shared == checked
      ensures mode == Axes ==>
        axisPoints == [] && !calibrateEnabled && Hist() == Record(old(Hist()), Snap())
      ensures mode != Axes ==>
        axisPoints == old(axisPoints) && calibrateEnabled == old(calibrateEnabled) && Hist() == old(Hist())
    {
      shared := checked;
      if mode == Axes {
        SetAxisPoints([]);
        SaveState();
      }
    }

    /** "Reset axis points": start over in axes mode, recorded. */
    method ResetAxisPoints()
      requires Valid()
      modifies this`axisPoints, this`mode, this`calibrateEnabled, this`history, this`historyIndex
      ensures Valid()
      ensures axisPoints == [] && mode == Axes && !calibrateEnabled
      ensures Hist() == Record(old(Hist()), Snap())
    {
      SetAxisPoints([]);
      mode := Axes;
      SaveState();
    }

    /**
     * A press in axes mode. The constrained click is appended while there is
     * room. The press is recorded even when nothing was added, and the
     * calibrate button is enabled exactly when the needed points are set.
     */
    method AxisClick(click: Pt)
      requires Valid()
      modifies this`axisPoints, this`calibrateEnabled, this`history, this`historyIndex
      ensures Valid()
      ensures mode != Axes ==>
        axisPoints == old(axisPoints) && calibrateEnabled == old(calibrateEnabled) && Hist() == old(Hist())
      ensures mode == Axes ==>
        axisPoints == AxisClickPoints(old(axisPoints), shared, orthogonal, click) &&
        (calibrateEnabled <==> |axisPoints| == Needed(shared)) &&
        Hist() == Record(old(Hist()), Snap())
    {
      if mode == Axes {
        SetAxisPoints(AxisClickPoints(axisPoints, shared, orthogonal, click));
        SaveState();
      }
    }

    /**
     * The calibrate button. A refused input changes nothing. Otherwise both
     * axes are fitted, the state becomes calibrated in add mode, and every
     * stored point is re-read. The result is recorded. That both fitted
     * axes convert, so the `isFinite` refusal is never reached, is
     * `CalibrationEndpoints`.
     */
    method Calibrate(v: AxisValues) returns (refusal: Option<Refusal>)
      requires Valid()
      modifies this`ax, this`ay, this`calibrated, this`mode, this`lines, this`history, this`historyIndex
      ensures Valid()
      ensures refusal == Check(axisPoints, shared, old(ax).log, old(ay).log, v)
      ensures refusal.Some? ==>
        ax == old(ax) && ay == old(ay) && calibrated == old(calibrated) && mode == old(mode) &&
        lines == old(lines) && Hist() == old(Hist())
      ensures refusal.None? ==>
        ax == FitX(axisPoints, shared, old(ax).log, v, e) && ay == FitY(axisPoints, shared, old(ay).log, v, e) &&
        calibrated && mode == Add &&
        lines == RereadAll(old(lines), ax, ay, e) && Hist() == Record(old(Hist()), Snap())
    {
      refusal := Check(axisPoints, shared, ax.log, ay.log, v);
      if refusal.None? {
        ApplyCalibration(FitX(axisPoints, shared, ax.log, v, e), FitY(axisPoints, shared, ay.log, v, e));
      }
    }

    /**
     * Stores the fitted axes, enters add mode, re-reads every stored point
     * and records the result.
     */
    method ApplyCalibration(fx: Axis, fy: Axis)
      requires Valid()
      modifies this`ax, this`ay, this`calibrated, this`mode, this`lines, this`history, this`historyIndex
      ensures Valid()
      ensures ax == fx && ay == fy && calibrated && mode == Add
      ensures lines == RereadAll(old(lines), fx, fy, e) && Hist() == Record(old(Hist()), Snap())
    {
      ax, ay := fx, fy;
      calibrated, mode := true, Add;
      lines := RereadEach(lines, fx, fy, e);
      SaveState();
    }

    /** Reset calibration: no axis points, scales `undefined`, uncalibrated, no mode; the lines are kept. */
    method ResetCalibration()
      requires Valid()
      modifies this`calibrated, this`ax, this`ay, this`axisPoints, this`mode, this`history, this`historyIndex
      ensures Valid()
      ensures !calibrated && axisPoints == [] && mode == NoMode
      ensures ax == Unset(old(ax).log) && ay == Unset(old(ay).log)
      ensures lines == old(lines) && Hist() == Record(old(Hist()), Snap())
    {
      Uncalibrate(ax.log, ay.log);
      SaveState();
    }

    /** The grid button flips the grid and records it. */
    method ToggleGrid()
      requires Valid()
      modifies this`view, this`history, this`historyIndex
      ensures Valid()
      ensures view == old(view).(showGrid := !old(view).showGrid)
      ensures Hist() == Record(old(Hist()), Snap())
    {
      view := view.(showGrid := !view.showGrid);
      SaveState();
    }

    // -------------------------------------------------------------------
    // Points of the current line

    /**
     * A press in add mode while calibrated. The click is snapped and
     * converted. When both axes convert it, it is appended to the current
     * line with the next order.
     */
    method AddPoint(click: Pt)
      requires Valid() && Pictured()
      modifies this`lines, this`history, this`historyIndex
      ensures Valid()
      ensures var at := Snapped(image, canvas, snapOn, false, click);
        var conv := BothAxes(ax, ay, e, at);
        if mode == Add && calibrated && conv.Some? then
          lines == old(lines)[current := Clicked(old(lines)[current], at, conv.value)] &&
          Hist() == Record(old(Hist()), Snap())
        else
          lines == old(lines) && Hist() == old(Hist())
    {
      if mode == Add && calibrated {
        var at := SnapToDark(image, canvas, snapOn, false, click);
        var conv := BothAxes(ax, ay, e, at);
        if conv.Some? {
          ReplaceCurrent(Clicked(lines[current], at, conv.value));
        }
      }
    }

    /** Replaces the current line and records the state. */
    method ReplaceCurrent(l: Line)
      requires Valid()
      modifies this`lines, this`history, this`historyIndex
      ensures Valid()
      ensures lines == old(lines)[current := l] && Hist() == Record(old(Hist()), Snap())
    {
      lines := lines[current := l];
      SaveState();
    }

    /** A press in delete mode while calibrated removes exactly the nearest point within `10 / zoom`, if any. */
    method DeletePoint(click: Pt) returns (idx: int)
      requires Valid()
      modifies this`lines, this`history, this`historyIndex
      ensures Valid()
      ensures mode == Delete && calibrated ==> IsNearest(old(lines)[current].points, click, 10.0 / view.zoom, idx)
      ensures mode == Delete && calibrated && idx >= 0 ==>
        lines == old(lines)[current := Removed(old(lines)[current], idx)] && Hist() == Record(old(Hist()), Snap())
      ensures !(mode == Delete && calibrated && idx >= 0) ==> lines == old(lines) && Hist() == old(Hist())
    {
      idx := -1;
      if mode == Delete && calibrated {
        idx := NearestIndex(lines[current].points, click, 10.0 / view.zoom);
        if idx != -1 {
          ReplaceCurrent(Removed(lines[current], idx));
        }
      }
    }

    /** A press in adjust mode while calibrated grabs the nearest point within `10 / zoom`, if any. */
    method GrabPoint(click: Pt)
      requires Valid()
      modifies this`selected, this`dragging
      ensures Valid()
      ensures mode == Adjust && calibrated ==>
        IsNearest(lines[current].points, click, 10.0 / view.zoom, selected) &&
        dragging == (selected != -1 || old(dragging))
      ensures !(mode == Adjust && calibrated) ==> selected == old(selected) && dragging == old(dragging)
    {
      if mode == Adjust && calibrated {
        selected := NearestIndex(lines[current].points, click, 10.0 / view.zoom);
        if selected != -1 {
          dragging := true;
        }
      }
    }

    /**
     * Dragging a grabbed point: the snapped mouse position replaces it,
     * with fresh data and its old order, when both axes convert it. Nothing
     * is recorded until the release. A selection left stale (past the end
     * after the line was cleared or switched) makes reading the old order
     * throw before anything changes.
     */
    method DragPoint(p: Pt)
      requires Valid() && Pictured()
      modifies this`lines
      ensures Valid()
      ensures var at := Snapped(image, canvas, snapOn, false, p);
        var conv := BothAxes(ax, ay, e, at);
        if mode == Adjust && dragging && conv.Some? && 0 <= selected < |old(lines)[current].points| then
          lines == old(lines)[current := Moved(old(lines)[current], selected, at, conv.value)]
        else
          lines == old(lines)
    {
      if mode == Adjust && dragging {
        var at := SnapToDark(image, canvas, snapOn, false, p);
        var conv := BothAxes(ax, ay, e, at);
        if conv.Some? && 0 <= selected < |lines[current].points| {
          lines := lines[current := Moved(lines[current], selected, at, conv.value)];
        }
      }
    }

    /** Releasing a dragged point ends the drag and records the result. */
    method ReleasePoint()
      requires Valid()
      modifies this`selected, this`dragging, this`history, this`historyIndex
      ensures Valid()
      ensures mode == Adjust && old(dragging) ==>
        !dragging && selected == -1 && Hist() == Record(old(Hist()), Snap())
      ensures !(mode == Adjust && old(dragging)) ==>
        dragging == old(dragging) && selected == old(selected) && Hist() == old(Hist())
    {
      if mode == Adjust && dragging {
        dragging := false;
        selected := -1;
        SaveState();
      }
    }

    /** "Clear points": the current line loses its points, its counter and its sort flag. */
    method ClearPoints()
      requires Valid()
      modifies this`lines, this`history, this`historyIndex
      ensures Valid()
      ensures lines == old(lines)[current := old(lines)[current].(points := [], orderCounter := 0, sorted := false)]
      ensures WellNumbered(lines[current]) && Hist() == Record(old(Hist()), Snap())
    {
      ReplaceCurrent(lines[current].(points := [], orderCounter := 0, sorted := false));
    }

    /** The sort toggle flips only the current line's flag; the points stay in storage order. */
    method ToggleSort()
      requires Valid()
      modifies this`lines, this`history, this`historyIndex
      ensures Valid()
      ensures lines == old(lines)[current := old(lines)[current].(sorted := !old(lines)[current].sorted)]
      ensures Hist() == Record(old(Hist()), Snap())
    {
      ReplaceCurrent(lines[current].(sorted := !lines[current].sorted));
    }

    // -------------------------------------------------------------------
    // Highlight strokes

    /** A press in highlight mode while calibrated and not already stroking starts a new path. */
    method HighlightPress(click: Pt)
      requires Valid()
      modifies this`highlighting, this`highlightPath
      ensures Valid()
      ensures mode == Highlight && calibrated && !old(highlighting) ==> highlighting && highlightPath == [click]
      ensures !(mode == Highlight && calibrated && !old(highlighting)) ==>
        highlighting == old(highlighting) && highlightPath == old(highlightPath)
    {
      if mode == Highlight && calibrated && !highlighting {
        highlighting := true;
        highlightPath := [click];
      }
    }

    /** Moving during a stroke extends the path by a point more than `5 / zoom` from its last one. */
    method ExtendStroke(p: Pt)
      requires Valid()
      modifies this`highlightPath
      ensures Valid()
      ensures var t := 5.0 / view.zoom;
        if mode == Highlight && highlighting &&
           (old(highlightPath) == [] || SqDist(p, old(highlightPath)[|old(highlightPath)| - 1]) > t * t)
        then highlightPath == old(highlightPath) + [p]
        else highlightPath == old(highlightPath)
    {
      if mode == Highlight && highlighting {
        var t := 5.0 / view.zoom;
        if highlightPath == [] || SqDist(p, highlightPath[|highlightPath| - 1]) > t * t {
          highlightPath := highlightPath + [p];
        }
      }
    }

    /**
     * Releasing the mouse button ends a stroke in highlight mode. A path of fewer
     * than two points or an `n` that is missing or below 2 is dropped.
     * Otherwise a new line gets the first free name for the typed or default
     * name. It holds the snapped samples that convert, numbered from 1. It
     * becomes current and the state is recorded. The path is emptied in every case.
     */
    method EndStroke(n: Option<int>, typed: string, dist: (Pt, Pt) -> real)
      returns (committed: bool, name: string, cands: seq<Pt>, pts: seq<Point>)
      requires Valid() && Pictured() && NonNegative(dist)
      modifies this`lines, this`current, this`highlighting, this`highlightPath, this`history, this`historyIndex
      ensures Valid()
      ensures !(mode == Highlight && old(highlighting)) ==>
        !committed && lines == old(lines) && current == old(current) &&
        highlighting == old(highlighting) && highlightPath == old(highlightPath) && Hist() == old(Hist())
      ensures mode == Highlight && old(highlighting) ==> !highlighting && highlightPath == []
      ensures committed <==> (mode == Highlight && old(highlighting) && |old(highlightPath)| >= 2 &&
        n.Some? && n.value >= 2)
      ensures committed ==>
        FirstFreeName(old(lines), ChosenName(typed, |old(lines)|), name) &&
        Traced(old(highlightPath), n.value, dist, image, canvas, snapOn, ax, ay, e, cands, pts) &&
        lines == old(lines) + [Line(name, pts, false, |pts|)] && current == |lines| - 1 &&
        WellNumbered(lines[current]) && Hist() == Record(old(Hist()), Snap())
      ensures !committed ==> lines == old(lines) && current == old(current) && Hist() == old(Hist())
    {
      committed, name, cands, pts := false, [], [], [];
      if !(mode == Highlight && highlighting) {
        return;
      }
      if |highlightPath| < 2 || n.None? || n.value < 2 {
        highlighting, highlightPath := false, [];
        return;
      }
      committed := true;
      name, cands, pts := CommitStroke(n.value, typed, dist);
    }

    /** The committing branch of the stroke release. */
    method CommitStroke(n: int, typed: string, dist: (Pt, Pt) -> real)
      returns (name: string, cands: seq<Pt>, pts: seq<Point>)
      requires Valid() && Pictured() && NonNegative(dist) && |highlightPath| >= 2 && n >= 2
      modifies this`lines, this`current, this`highlighting, this`highlightPath, this`history, this`historyIndex
      ensures Valid() && !highlighting && highlightPath == []
      ensures FirstFreeName(old(lines), ChosenName(typed, |old(lines)|), name)
      ensures Traced(old(highlightPath), n, dist, image, canvas, snapOn, ax, ay, e, cands, pts)
      ensures lines == old(lines) + [Line(name, pts, false, |pts|)] && current == |lines| - 1
      ensures WellNumbered(lines[current]) && Hist() == Record(old(Hist()), Snap())
    {
      name := FreeNameByRenaming(lines, ChosenName(typed, |lines|));
      cands, pts := TraceStroke(name, highlightPath, n, dist, image, canvas, snapOn, ax, ay, e);
      FinishStroke(Line(name, pts, false, |pts|));
    }

    /** Ends the stroke: the path is emptied and the traced line appended, made current and recorded. */
    method FinishStroke(line: Line)
      requires Valid()
      modifies this`lines, this`current, this`highlighting, this`highlightPath, this`history, this`historyIndex
      ensures Valid() && !highlighting && highlightPath == []
      ensures lines == old(lines) + [line] && current == |lines| - 1
      ensures Hist() == Record(old(Hist()), Snap())
    {
      highlighting, highlightPath := false, [];
      PushLine(line);
    }

    /** Appends a line, makes it current and records the state. */
    method PushLine(line: Line)
      requires Valid()
      modifies this`lines, this`current, this`history, this`historyIndex
      ensures Valid()
      ensures lines == old(lines) + [line] && current == |lines| - 1
      ensures Hist() == Record(old(Hist()), Snap())
    {
      lines := lines + [line];
      current := |lines| - 1;
      SaveState();
    }

    /** "Delete highlight": the path is emptied and recorded. */
    method DeleteHighlight()
      requires Valid()
      modifies this`highlightPath, this`history, this`historyIndex
      ensures Valid()
      ensures highlightPath == [] && Hist() == Record(old(Hist()), Snap())
    {
      highlightPath := [];
      SaveState();
    }

    // -------------------------------------------------------------------
    // Lines

    /** New line: an empty or already used name is refused; otherwise an empty line is appended and made current. */
    method NewLine(name: string)
      requires Valid()
      modifies this`lines, this`current, this`history, this`historyIndex
      ensures Valid()
      ensures name == [] || NameTaken(old(lines), name) ==>
        lines == old(lines) && current == old(current) && Hist() == old(Hist())
      ensures name != [] && !NameTaken(old(lines), name) ==>
        lines == old(lines) + [Line(name, [], false, 0)] && current == |lines| - 1 &&
        !NameTakenByOther(lines, name, current) && Hist() == Record(old(Hist()), Snap())
    {
      if name == [] || NameTaken(lines, name) {
        return;
      }
      PushLine(Line(name, [], false, 0));
    }

    /** Rename: an empty name or one another line has is refused; otherwise only the current line's name changes. */
    method RenameLine(name: string)
      requires Valid()
      modifies this`lines, this`history, this`historyIndex
      ensures Valid()
      ensures name == [] || NameTakenByOther(old(lines), name, current) ==>
        lines == old(lines) && Hist() == old(Hist())
      ensures name != [] && !NameTakenByOther(old(lines), name, current) ==>
        lines == old(lines)[current := old(lines)[current].(name := name)] &&
        !NameTakenByOther(lines, name, current) && Hist() == Record(old(Hist()), Snap())
    {
      if name == [] || NameTakenByOther(lines, name, current) {
        return;
      }
      ReplaceCurrent(lines[current].(name := name));
    }

    /** Choosing a line in the selector makes it current; nothing is recorded. */
    method SelectLine(i: int)
      requires Valid() && 0 <= i < |lines|
      modifies this`current
      ensures Valid() && current == i
    {
      current := i;
    }
  }
}
