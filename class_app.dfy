/**
 * digitizer.js: the single-file variant built from classes. `DigitizerState`
 * holds the document, the calibration, the view and a history capped at 50
 * snapshots. `UIController` and `InteractionHandler` update that state from
 * buttons and mouse events; here their handlers are methods of the state
 * they change, and the checkboxes and the calibrate button they read or
 * set are fields beside it.
 */
module ClassApp {
  import opened Wrappers
  import opened Geometry
  import opened Text
  import opened Coordinates
  import opened Document
  import opened History
  import opened Resample
  import opened Workspace

  /** `maxHistorySize`. */
  const MaxHistory: nat := 50

  /** The smallest pixel distance calibrate accepts between the two points of an axis. */
  const MinPixelGap: real := 1.0

  // ---------------------------------------------------------------------
  // Lines read back from local storage

  /**
   * A stored line as `JSON.parse` gives it back: an empty name stands for a
   * missing one, a missing point list is `None`, and an `orderCounter` that
   * is not a number is `None`.
   */
  datatype StoredLine = StoredLine(name: string, points: Option<seq<Point>>, sorted: bool, orderCounter: Option<int>)

  /** The first stored point carries no order, which is the only case `validateLines` back-fills. */
  predicate NeedsBackfill(points: seq<Point>)
  {
    points != [] && points[0].order.None?
  }

  /**
   * `l` is what `validateLines` makes of `s`. A missing name becomes
   * `Unnamed Line`. When the first point lacks an order, every missing order
   * is back-filled and the counter becomes one more than the largest order.
   * Otherwise the points are kept as stored and the counter is the stored
   * one, or 0.
   */
  predicate Validated(l: Line, s: StoredLine)
  {
    var ps := s.points.GetOr([]);
    && l.name == (if s.name == [] then "Unnamed Line" else s.name) && l.sorted == s.sorted
    && (!NeedsBackfill(ps) ==> l.points == ps && l.orderCounter == OrInt(s.orderCounter, 0))
    && (NeedsBackfill(ps) ==>
          |l.points| == |ps| && l.orderCounter == MaxOrder(l.points) + 1 &&
          forall k :: 0 <= k < |ps| ==> FilledAt(l.points, ps, k))
  }

  /** `validateLines`: no list, or an empty one, gives one empty `Line 1`; otherwise each line is validated. */
  method ValidateLines(stored: Option<seq<StoredLine>>) returns (lines: seq<Line>)
    ensures stored.None? || stored.value == [] ==> lines == [DefaultLine]
    ensures stored.Some? && stored.value != [] ==>
      |lines| == |stored.value| && forall i :: 0 <= i < |lines| ==> Validated(lines[i], stored.value[i])
  {
    if stored.None? || stored.value == [] {
      return [DefaultLine];
    }
    var saved := stored.value;
    lines := [];
    for i := 0 to |saved|
      invariant |lines| == i
      invariant forall j :: 0 <= j < i ==> Validated(lines[j], saved[j])
    {
      var s := saved[i];
      var ps := s.points.GetOr([]);
      var l := Line(if s.name == [] then "Unnamed Line" else s.name, ps, s.sorted, OrInt(s.orderCounter, 0));
      if NeedsBackfill(ps) {
        var filled, max := BackfillOrders(ps);
        l := l.(points := filled, orderCounter := max + 1);
      }
      lines := lines + [l];
    }
  }

  /** After a back-fill every point has an order, and the counter is above all of them. */
  lemma BackfilledBelowCounter(l: Line, s: StoredLine)
    requires Validated(l, s) && NeedsBackfill(s.points.GetOr([]))
    ensures forall k :: 0 <= k < |l.points| ==> l.points[k].order.Some? && l.points[k].order.value < l.orderCounter
  {
    var ps := s.points.GetOr([]);
    forall k | 0 <= k < |l.points|
      ensures l.points[k].order.Some? && l.points[k].order.value < l.orderCounter
    {
      assert FilledAt(l.points, ps, k);
    }
  }

  /**
   * A line stored before orders existed comes back numbered 1, 2, ... in
   * storage order, with the counter one past its count: well numbered.
   */
  lemma LegacyLineValidated(l: Line, s: StoredLine)
    requires Validated(l, s) && NeedsBackfill(s.points.GetOr([]))
    requires forall k :: 0 <= k < |s.points.GetOr([])| ==> s.points.GetOr([])[k].order.None?
    ensures forall k :: 0 <= k < |l.points| ==> l.points[k].order == Some(k + 1)
    ensures l.orderCounter == |l.points| + 1 && WellNumbered(l)
  {
    var ps := s.points.GetOr([]);
    BackfillLegacy(ps, l.(orderCounter := MaxOrder(l.points)));
  }

  // ---------------------------------------------------------------------
  // Calibration input

  /**
   * The checks of `calibrate` in the order it makes them: the values, the
   * log axes, the axis-point count, then the pixel separation of each axis.
   * The result is the first one that fails, or none.
   */
  function Check(ap: seq<Pt>, shared: bool, logX: bool, logY: bool, v: AxisValues): (r: Option<Refusal>)
    ensures r.None? <==> Acceptable(ap, shared, logX, logY, v, MinPixelGap)
    ensures r == Some(NotANumber) <==> !AllNumbers(v)
    ensures r == Some(LogXNotPositive) <==>
      AllNumbers(v) && v.x1.v != v.x2.v && v.y1.v != v.y2.v && logX && (v.x1.v <= 0.0 || v.x2.v <= 0.0)
    ensures r == Some(PointCount) ==> |ap| != Needed(shared)
  {
    if !AllNumbers(v) then Some(NotANumber)
    else if v.x1.v == v.x2.v || v.y1.v == v.y2.v then Some(SameValues)
    else if logX && (v.x1.v <= 0.0 || v.x2.v <= 0.0) then Some(LogXNotPositive)
    else if logY && (v.y1.v <= 0.0 || v.y2.v <= 0.0) then Some(LogYNotPositive)
    else if |ap| != Needed(shared) then Some(PointCount)
    else
      var px := PixelsOf(ap, shared);
      if !Separated(px.x1, px.x2, MinPixelGap) then Some(XPixelsTooClose)
      else if !Separated(px.yRef, px.y2, MinPixelGap) then Some(YPixelsTooClose)
      else None
  }

  // ---------------------------------------------------------------------
  // Axis clicks

  /**
   * The axis points lie square to each other as far as they go: X2 on X1's
   * row, the third point on X1's column, and without a shared origin Y2 on
   * Y1's column.
   */
  predicate Squared(ap: seq<Pt>, shared: bool)
  {
    && (|ap| >= 2 ==> ap[1].y == ap[0].y)
    && (|ap| >= 3 ==> ap[2].x == ap[0].x)
    && (!shared && |ap| >= 4 ==> ap[3].x == ap[2].x)
  }

  /**
   * The mouse position `handleMouseMove` shows in axes mode with
   * "orthogonal axes" ticked: the second point is held to the first one's
   * row, the third to its column and, without a shared origin, the fourth
   * to the third one's column.
   */
  function ConstrainMove(ap: seq<Pt>, shared: bool, p: Pt): (r: Pt)
    ensures r.x == p.x || r.y == p.y
    ensures Squared(ap, shared) && |ap| < Needed(shared) ==> Squared(ap + [r], shared)
  {
    if |ap| == 1 then Pt(p.x, ap[0].y)
    else if |ap| == 2 then Pt(ap[0].x, p.y)
    else if !shared && |ap| == 3 then Pt(ap[2].x, p.y)
    else p
  }

  /**
   * `handleAxisClick` as written: while there is room the raw click is
   * appended, whatever the orthogonal checkbox says.
   */
  function AxisClickAsWritten(ap: seq<Pt>, shared: bool, click: Pt): (r: seq<Pt>)
    ensures |ap| < Needed(shared) ==> r == ap + [click]
    ensures |ap| >= Needed(shared) ==> r == ap
  {
    if |ap| >= Needed(shared) then ap else ap + [click]
  }

  /**
   * With the orthogonal box ticked and X1 at the origin, moving to
   * (100, 7) shows X2 at (100, 0), but the click stores (100, 7), so the
   * axes are no longer square.
   */
  lemma OrthogonalClickIgnored()
    ensures var ap, click := [Pt(0.0, 0.0)], Pt(100.0, 7.0);
      Squared(ap, false) && ConstrainMove(ap, false, click) == Pt(100.0, 0.0) &&
      !Squared(AxisClickAsWritten(ap, false, click), false)
  {
    assert AxisClickAsWritten([Pt(0.0, 0.0)], false, Pt(100.0, 7.0))[1] == Pt(100.0, 7.0);
  }

  /**
   * The axis points after a click in axes mode, with the click stored where
   * the mouse position was shown: appended while fewer than `Needed` are set, and
   * held square in orthogonal mode.
   */
  function AxisClicked(ap: seq<Pt>, shared: bool, orthogonal: bool, click: Pt): (r: seq<Pt>)
    ensures |ap| <= Needed(shared) ==> |r| <= Needed(shared)
    ensures |ap| < Needed(shared) <==> |r| == |ap| + 1
    ensures |ap| >= Needed(shared) <==> r == ap
    ensures |r| >= |ap| && r[..|ap|] == ap
    ensures orthogonal && Squared(ap, shared) ==> Squared(r, shared)
    ensures !orthogonal ==> r == AxisClickAsWritten(ap, shared, click)
  {
    if |ap| >= Needed(shared) then ap
    else if orthogonal then ap + [ConstrainMove(ap, shared, click)]
    else ap + [click]
  }

  // ---------------------------------------------------------------------
  // Line names

  /**
   * `createNewLine` as written: a name that trims to nothing is refused and
   * the duplicate check compares the name as typed, but the new line gets
   * the trimmed name.
   */
  function CreateAsWritten(lines: seq<Line>, name: string): (r: Option<seq<Line>>)
    ensures r.Some? <==> Trim(name) != [] && !NameTaken(lines, name)
    ensures r.Some? ==> r.value == lines + [Line(Trim(name), [], false, 0)]
  {
    if Trim(name) == [] || NameTaken(lines, name) then None
    else Some(lines + [Line(Trim(name), [], false, 0)])
  }

  /** `renameLine` as written: the same mismatch, against the other lines. */
  function RenameAsWritten(lines: seq<Line>, current: int, name: string): (r: Option<seq<Line>>)
    requires 0 <= current < |lines|
    ensures r.Some? <==> Trim(name) != [] && !NameTakenByOther(lines, name, current)
    ensures r.Some? ==> r.value == lines[current := lines[current].(name := Trim(name))]
  {
    if Trim(name) == [] || NameTakenByOther(lines, name, current) then None
    else Some(lines[current := lines[current].(name := Trim(name))])
  }

  /** The two trimmed names the counterexamples use. */
  lemma TrimmedLineOne()
    ensures Trim(" Line 1") == "Line 1" && Trim("Line 1 ") == "Line 1"
  {
    assert " Line 1"[1..] == "Line 1";
    assert "Line 1 "[..6] == "Line 1";
  }

  /** A name with a stray space passes the check and then collides: " Line 1" creates a second `Line 1`. */
  lemma TrimmedDuplicateCreated()
    ensures var r := CreateAsWritten([DefaultLine], " Line 1");
      DistinctNames([DefaultLine]) && r.Some? && !DistinctNames(r.value)
  {
    TrimmedLineOne();
    var r := CreateAsWritten([DefaultLine], " Line 1");
    assert r.value[0].name == r.value[1].name;
  }

  /** Renaming `Line 2` to "Line 1 " passes the check and leaves two lines named `Line 1`. */
  lemma TrimmedDuplicateRenamed()
    ensures var two := [DefaultLine, Line("Line 2", [], false, 0)];
      var r := RenameAsWritten(two, 1, "Line 1 ");
      DistinctNames(two) && r.Some? && !DistinctNames(r.value)
  {
    TrimmedLineOne();
    var two := [DefaultLine, Line("Line 2", [], false, 0)];
    assert "Line 1"[5] != "Line 2"[5];
    assert |two[0].name| != |"Line 1 "|;
    assert !NameTakenByOther(two, "Line 1 ", 1);
    var r := RenameAsWritten(two, 1, "Line 1 ");
    assert r.value[0].name == r.value[1].name;
  }

  // ---------------------------------------------------------------------
  // Highlight strokes

  /** `canvasToData` as the function the highlight commit applies to each sample. */
  function Transformer(calibrated: bool, ax: Axis, ay: Axis, e: Exp10): Pt -> Option<Pt>
  {
    p => CanvasToData(calibrated, ax, ay, e, p)
  }

  /**
   * `interpolatePathPoints` on a path of at least two points and `n >= 1`:
   * a path of length zero, or `n == 1`, gives the first point; otherwise
   * `n` samples, the first point then one at each multiple of the step
   * `total / (n - 1)` along the path.
   */
  ghost predicate Sampled(path: seq<Pt>, n: int, dist: (Pt, Pt) -> real, r: seq<Pt>)
    requires |path| >= 2 && n >= 1
  {
    && (Total(path, dist) == 0.0 || n == 1 ==> r == [path[0]])
    && (Total(path, dist) != 0.0 && n >= 2 ==>
          |r| == n && r[0] == path[0] &&
          forall j :: 1 <= j < |r| ==> SampleAt(path, dist, Mark(Total(path, dist) / (n - 1) as real, j), r[j]))
  }

  /** The samples start at the path's first point and are never more than `n`. */
  lemma SampledBounds(path: seq<Pt>, n: int, dist: (Pt, Pt) -> real, r: seq<Pt>)
    requires |path| >= 2 && n >= 1 && Sampled(path, n, dist, r)
    ensures 1 <= |r| <= n && r[0] == path[0]
  {
  }

  /** The new line of a committed stroke. */
  function StrokeLine(name: string, pts: seq<Point>): Line
  {
    Line(name, pts, false, |pts|)
  }

  /** What a committed stroke did: the samples of the path, the converted ones numbered. */
  ghost predicate Committed(path: seq<Pt>, n: int, dist: (Pt, Pt) -> real, conv: Pt -> Option<Pt>,
                            cands: seq<Pt>, pts: seq<Point>)
    requires |path| >= 2 && n >= 1
  {
    Sampled(path, n, dist, cands) && NumberedFrom(pts, cands, conv)
  }

  /** A committed stroke's line holds at most `n` points, numbered 1, 2, ... and well numbered. */
  lemma CommittedLine(path: seq<Pt>, n: int, dist: (Pt, Pt) -> real, conv: Pt -> Option<Pt>,
                      cands: seq<Pt>, pts: seq<Point>, name: string)
    requires |path| >= 2 && n >= 1 && Committed(path, n, dist, conv, cands, pts)
    ensures |pts| <= n
    ensures forall k :: 0 <= k < |pts| ==> pts[k].order == Some(k + 1)
    ensures WellNumbered(StrokeLine(name, pts))
  {
    SampledBounds(path, n, dist, cands);
    NumberedConsecutive(pts, cands, conv);
  }

  /** The samples of a stroke and the numbered points of those that convert. */
  method TraceStroke(path: seq<Pt>, n: int, dist: (Pt, Pt) -> real, conv: Pt -> Option<Pt>)
    returns (cands: seq<Pt>, pts: seq<Point>)
    requires NonNegative(dist) && |path| >= 2 && n >= 1
    ensures Committed(path, n, dist, conv, cands, pts)
  {
    cands := ResampleGuarded(path, n, dist);
    pts := NumberPoints(cands, conv);
  }

  // ---------------------------------------------------------------------
  // The state

  class DigitizerState {
    /** `Math.pow(10, ·)` and `Math.log10`. */
    const e: Exp10

    var lines: seq<Line>
    var current: int
    var axisPoints: seq<Pt>
    var ax: Axis
    var ay: Axis
    var calibrated: bool
    var view: View
    var mode: Mode
    /** The point grabbed in adjust mode, -1 for none. */
    var selected: int
    var dragging: bool
    var highlightPath: seq<Pt>
    var highlighting: bool
    var history: seq<Snapshot>
    var historyIndex: int
    /** The shared-origin and orthogonal-axes checkboxes. */
    var shared: bool
    var orthogonal: bool
    /** Whether the calibrate button is enabled. */
    var calibrateEnabled: bool

    /** What `addToHistory` would record now. */
    function Snap(): Snapshot
      reads this`lines, this`axisPoints, this`ax, this`ay, this`calibrated, this`view, this`mode,
        this`current, this`highlightPath, this`highlighting
    {
      Snapshot(lines, axisPoints, ax, ay, calibrated, view, mode, current, highlightPath, highlighting)
    }

    function Hist(): Timeline<Snapshot>
      reads this`history, this`historyIndex
    {
      Timeline(history, historyIndex)
    }

    /**
     * The current line exists, the zoom is positive, no selection is below
     * -1, and the history is a timeline of at most 50 usable states.
     */
    ghost predicate Valid()
      reads this`lines, this`current, this`view, this`selected, this`history, this`historyIndex
    {
      && 0 <= current < |lines| && view.zoom > 0.0
      && -1 <= selected
      && History.Valid(Timeline(history, historyIndex)) && |history| <= MaxHistory
      && forall i :: 0 <= i < |history| ==> Usable(history[i])
    }

    /** The state at page load: one empty `Line 1`, nothing calibrated, nothing recorded. */
    constructor (e: Exp10, shared: bool, orthogonal: bool)
      ensures Valid() && this.e == e && this.shared == shared && this.orthogonal == orthogonal
      ensures Snap() == Snapshot([DefaultLine], [], Unset(false), Unset(false), false, DefaultView, NoMode, 0, [], false)
      ensures history == [] && selected == -1 && !dragging && !calibrateEnabled
    {
      this.e := e;
      this.shared := shared;
      this.orthogonal := orthogonal;
      lines := [DefaultLine];
      current := 0;
      axisPoints := [];
      ax := Unset(false);
      ay := Unset(false);
      calibrated := false;
      view := DefaultView;
      mode := NoMode;
      selected := -1;
      dragging := false;
      highlightPath := [];
      highlighting := false;
      history := [];
      historyIndex := -1;
      calibrateEnabled := false;
    }

    // -------------------------------------------------------------------
    // History

    /**
     * `addToHistory`: drop the entries after the cursor, drop the oldest
     * entry while 50 remain, append the current state and move the cursor
     * onto it.
     */
    method AddToHistory()
      requires Valid()
      modifies this`history, this`historyIndex
      ensures Valid()
      ensures Hist() == RecordCapped(old(Hist()), Snap(), MaxHistory)
      ensures historyIndex == |history| - 1 && history[historyIndex] == Snap()
    {
      var kept := history[..historyIndex + 1];
      if |kept| >= MaxHistory {
        kept := kept[1..];
      }
      history := kept + [Snap()];
      historyIndex := |history| - 1;
    }

    /** `restoreFromHistory`: every recorded field back from `s`. */
    method Restore(s: Snapshot)
      modifies this`lines, this`axisPoints, this`ax, this`ay, this`calibrated, this`view, this`mode,
        this`current, this`highlightPath, this`highlighting
      ensures Snap() == s
    {
      RestoreDocument(s);
      RestoreInteraction(s);
    }

    /** The document half of `restoreFromHistory`. */
    method RestoreDocument(s: Snapshot)
      modifies this`lines, this`axisPoints, this`ax, this`ay, this`calibrated
      ensures lines == s.lines && axisPoints == s.axisPoints && ax == s.ax && ay == s.ay
      ensures calibrated == s.calibrated
    {
      lines, axisPoints := s.lines, s.axisPoints;
      ax, ay, calibrated := s.ax, s.ay, s.calibrated;
    }

    /** The view and interaction half of `restoreFromHistory`. */
    method RestoreInteraction(s: Snapshot)
      modifies this`view, this`mode, this`current, this`highlightPath, this`highlighting
      ensures view == s.view && mode == s.mode && current == s.current
      ensures highlightPath == s.highlightPath && highlighting == s.highlighting
    {
      view, mode, current := s.view, s.mode, s.current;
      highlightPath, highlighting := s.highlightPath, s.highlighting;
    }

    /** `undo`: false and no change at the first entry; otherwise one step back, restored. */
    method Undo() returns (done: bool)
      requires Valid()
      modifies this`historyIndex, this`lines, this`axisPoints, this`ax, this`ay, this`calibrated,
        this`view, this`mode, this`current, this`highlightPath, this`highlighting
      ensures Valid()
      ensures done == CanUndo(old(Hist())) && Hist() == History.Undo(old(Hist()))
      ensures done ==> Snap() == history[historyIndex]
      ensures !done ==> Snap() == old(Snap())
    {
      if historyIndex <= 0 {
        return false;
      }
      historyIndex := historyIndex - 1;
      Restore(history[historyIndex]);
      done := true;
    }

    /** `redo`: false and no change at the last entry; otherwise one step forward, restored. */
    method Redo() returns (done: bool)
      requires Valid()
      modifies this`historyIndex, this`lines, this`axisPoints, this`ax, this`ay, this`calibrated,
        this`view, this`mode, this`current, this`highlightPath, this`highlighting
      ensures Valid()
      ensures done == CanRedo(old(Hist())) && Hist() == History.Redo(old(Hist()))
      ensures done ==> Snap() == history[historyIndex]
      ensures !done ==> Snap() == old(Snap())
    {
      if historyIndex >= |history| - 1 {
        return false;
      }
      historyIndex := historyIndex + 1;
      Restore(history[historyIndex]);
      done := true;
    }

    /**
     * `reset`, behind "clear session": the state of a fresh page, with an
     * empty history. The selection and the checkboxes are left as they are.
     */
    method Reset()
      requires Valid()
      modifies this`lines, this`current, this`axisPoints, this`ax, this`ay, this`calibrated,
        this`view, this`mode, this`highlightPath, this`highlighting, this`history, this`historyIndex
      ensures Valid()
      ensures Snap() == Snapshot([DefaultLine], [], Unset(false), Unset(false), false, DefaultView, NoMode, 0, [], false)
      ensures history == [] && historyIndex == -1
    {
      ResetDocument();
      ResetInteraction();
    }

    /** The document half of `reset`. */
    method ResetDocument()
      modifies this`lines, this`current, this`axisPoints, this`ax, this`ay, this`calibrated
      ensures lines == [DefaultLine] && current == 0 && axisPoints == []
      ensures ax == Unset(false) && ay == Unset(false) && !calibrated
    {
      lines, current, axisPoints := [DefaultLine], 0, [];
      ax, ay, calibrated := Unset(false), Unset(false), false;
    }

    /** The view, mode, stroke and history half of `reset`. */
    method ResetInteraction()
      requires 0 <= current < |lines| && -1 <= selected
      modifies this`view, this`mode, this`highlightPath, this`highlighting, this`history, this`historyIndex
      ensures Valid()
      ensures view == DefaultView && mode == NoMode && highlightPath == [] && !highlighting
      ensures history == [] && historyIndex == -1
    {
      view, mode := DefaultView, NoMode;
      highlightPath, highlighting := [], false;
      history, historyIndex := [], -1;
    }

    // -------------------------------------------------------------------
    // Axes and calibration

    /** "Set axes": start over in axes mode with the calibrate button off; nothing is recorded. */
    method StartAxisCalibration()
      requires Valid()
      modifies this`axisPoints, this`mode, this`calibrateEnabled
      ensures Valid()
      ensures axisPoints == [] && mode == Axes && !calibrateEnabled
    {
      axisPoints, mode, calibrateEnabled := [], Axes, false;
    }

    /** "Reset axis points": the same, recorded. */
    method ResetAxisPoints()
      requires Valid()
      modifies this`axisPoints, this`mode, this`calibrateEnabled, this`history, this`historyIndex
      ensures Valid()
      ensures axisPoints == [] && mode == Axes && !calibrateEnabled
      ensures Hist() == RecordCapped(old(Hist()), Snap(), MaxHistory)
    {
      StartAxisCalibration();
      AddToHistory();
    }

    /** Ticking or unticking "shared origin": in axes mode the points set so far are discarded and recorded. */
    method SharedOriginChange(checked: bool)
      requires Valid()
      modifies this`shared, this`axisPoints, this`calibrateEnabled, this`history, this`historyIndex
      ensures Valid() && shared == checked
      ensures mode == Axes ==>
        axisPoints == [] && !calibrateEnabled && Hist() == RecordCapped(old(Hist()), Snap(), MaxHistory)
      ensures mode != Axes ==>
        axisPoints == old(axisPoints) && calibrateEnabled == old(calibrateEnabled) && Hist() == old(Hist())
    {
      shared := checked;
      if mode == Axes {
        axisPoints, calibrateEnabled := [], false;
        AddToHistory();
      }
    }

    /**
     * `handleAxisClick`. With the needed points already set nothing
     * happens. Otherwise the click, held square in orthogonal mode, is
     * appended; the calibrate button is enabled exactly when the needed
     * points are set, and the state is recorded.
     */
    method AxisClick(click: Pt)
      requires Valid()
      modifies this`axisPoints, this`calibrateEnabled, this`history, this`historyIndex
      ensures Valid()
      ensures axisPoints == AxisClicked(old(axisPoints), shared, orthogonal, click)
      ensures |old(axisPoints)| >= Needed(shared) ==>
        calibrateEnabled == old(calibrateEnabled) && Hist() == old(Hist())
      ensures |old(axisPoints)| < Needed(shared) ==>
        (calibrateEnabled <==> |axisPoints| == Needed(shared)) &&
        Hist() == RecordCapped(old(Hist()), Snap(), MaxHistory)
    {
      if |axisPoints| >= Needed(shared) {
        return;
      }
      axisPoints := AxisClicked(axisPoints, shared, orthogonal, click);
      calibrateEnabled := |axisPoints| == Needed(shared);
      AddToHistory();
    }

    /**
     * `calibrate`. A refused input changes nothing. Otherwise both axes are
     * fitted, the state becomes calibrated in add mode, every stored point
     * is re-read and the result is recorded. That both fitted axes convert,
     * so the `isFinite` refusal is never reached, is `CalibrationEndpoints`.
     */
    method Calibrate(v: AxisValues) returns (refusal: Option<Refusal>)
      requires Valid()
      modifies this`ax, this`ay, this`calibrated, this`mode, this`lines, this`history, this`historyIndex
      ensures Valid()
      ensures refusal == Check(axisPoints, shared, old(ax).log, old(ay).log, v)
      ensures refusal.Some? ==>
        ax == old(ax) && ay == old(ay) && calibrated == old(calibrated) && mode == old(mode) &&
        lines == old(lines) && Hist() == old(Hist())
      ensures refusal.None? ==>
        ax == FitX(axisPoints, shared, old(ax).log, v, e) && ay == FitY(axisPoints, shared, old(ay).log, v, e) &&
        calibrated && mode == Add &&
        lines == RereadAll(old(lines), ax, ay, e) && Hist() == RecordCapped(old(Hist()), Snap(), MaxHistory)
    {
      refusal := Check(axisPoints, shared, ax.log, ay.log, v);
      if refusal.None? {
        ApplyCalibration(FitX(axisPoints, shared, ax.log, v, e), FitY(axisPoints, shared, ay.log, v, e));
      }
    }

    /** Stores the fitted axes, enters add mode, re-reads every stored point (`recalculateAllPoints`) and records. */
    method ApplyCalibration(fx: Axis, fy: Axis)
      requires Valid()
      modifies this`ax, this`ay, this`calibrated, this`mode, this`lines, this`history, this`historyIndex
      ensures Valid()
      ensures ax == fx && ay == fy && calibrated && mode == Add
      ensures lines == RereadAll(old(lines), fx, fy, e) && Hist() == RecordCapped(old(Hist()), Snap(), MaxHistory)
    {
      ax, ay := fx, fy;
      calibrated, mode := true, Add;
      lines := RereadEach(lines, fx, fy, e);
      AddToHistory();
    }

    /** `toggleGrid` flips the grid and records it. */
    method ToggleGrid()
      requires Valid()
      modifies this`view, this`history, this`historyIndex
      ensures Valid()
      ensures view == old(view).(showGrid := !old(view).showGrid)
      ensures Hist() == RecordCapped(old(Hist()), Snap(), MaxHistory)
    {
      view := view.(showGrid := !view.showGrid);
      AddToHistory();
    }

    // -------------------------------------------------------------------
    // Points of the current line

    /** Replaces the current line and records the state. */
    method ReplaceCurrent(l: Line)
      requires Valid()
      modifies this`lines, this`history, this`historyIndex
      ensures Valid()
      ensures lines == old(lines)[current := l] && Hist() == RecordCapped(old(Hist()), Snap(), MaxHistory)
    {
      lines := lines[current := l];
      AddToHistory();
    }

    /**
     * `handleAddPoint`: nothing before calibration or when the click does
     * not convert; otherwise the click is appended to the current line with
     * the next order and recorded.
     */
    method AddPoint(click: Pt)
      requires Valid()
      modifies this`lines, this`history, this`historyIndex
      ensures Valid()
      ensures var conv := CanvasToData(calibrated, ax, ay, e, click);
        if calibrated && conv.Some? then
          lines == old(lines)[current := Clicked(old(lines)[current], click, conv.value)] &&
          Hist() == RecordCapped(old(Hist()), Snap(), MaxHistory)
        else
          lines == old(lines) && Hist() == old(Hist())
    {
      if !calibrated {
        return;
      }
      var conv := CanvasToData(calibrated, ax, ay, e, click);
      if conv.Some? {
        ReplaceCurrent(Clicked(lines[current], click, conv.value));
      }
    }

    /** `handleDeletePoint`: once calibrated, removes exactly the nearest point within `10 / zoom`, if any. */
    method DeletePoint(click: Pt) returns (idx: int)
      requires Valid()
      modifies this`lines, this`history, this`historyIndex
      ensures Valid()
      ensures calibrated ==> IsNearest(old(lines)[current].points, click, 10.0 / view.zoom, idx)
      ensures calibrated && idx >= 0 ==>
        lines == old(lines)[current := Removed(old(lines)[current], idx)] &&
        Hist() == RecordCapped(old(Hist()), Snap(), MaxHistory)
      ensures !(calibrated && idx >= 0) ==> lines == old(lines) && Hist() == old(Hist())
    {
      idx := -1;
      if !calibrated {
        return;
      }
      idx := NearestIndex(lines[current].points, click, 10.0 / view.zoom);
      if idx != -1 {
        ReplaceCurrent(Removed(lines[current], idx));
      }
    }

    /**
     * `handleAdjustStart`: once calibrated, the nearest point within
     * `10 / zoom` is grabbed; when there is none the selection stays as it was.
     */
    method AdjustStart(click: Pt) returns (idx: int)
      requires Valid()
      modifies this`selected, this`dragging
      ensures Valid()
      ensures calibrated ==> IsNearest(lines[current].points, click, 10.0 / view.zoom, idx)
      ensures calibrated && idx >= 0 ==> selected == idx && dragging
      ensures !(calibrated && idx >= 0) ==> selected == old(selected) && dragging == old(dragging)
    {
      idx := -1;
      if !calibrated {
        return;
      }
      idx := NearestIndex(lines[current].points, click, 10.0 / view.zoom);
      if idx != -1 {
        selected, dragging := idx, true;
      }
    }

    /**
     * A mouse move while a point is dragged in adjust mode: the grabbed
     * point moves to the mouse position with fresh data and its old order, when the
     * position converts. Nothing is recorded until the release. A selection
     * outside the line makes the handler throw before it changes anything.
     */
    method AdjustDrag(p: Pt)
      requires Valid()
      modifies this`lines
      ensures Valid()
      ensures var conv := CanvasToData(calibrated, ax, ay, e, p);
        if dragging && mode == Adjust && conv.Some? && 0 <= selected < |old(lines)[current].points| then
          lines == old(lines)[current := Moved(old(lines)[current], selected, p, conv.value)]
        else
          lines == old(lines)
    {
      if !(dragging && mode == Adjust) {
        return;
      }
      var conv := CanvasToData(calibrated, ax, ay, e, p);
      if conv.Some? && 0 <= selected < |lines[current].points| {
        lines := lines[current := Moved(lines[current], selected, p, conv.value)];
      }
    }

    /** The release in adjust mode ends the drag, clears the selection and records the result. */
    method ReleasePoint()
      requires Valid()
      modifies this`selected, this`dragging, this`history, this`historyIndex
      ensures Valid()
      ensures old(dragging) && mode == Adjust ==>
        !dragging && selected == -1 && Hist() == RecordCapped(old(Hist()), Snap(), MaxHistory)
      ensures !(old(dragging) && mode == Adjust) ==>
        dragging == old(dragging) && selected == old(selected) && Hist() == old(Hist())
    {
      if dragging && mode == Adjust {
        dragging, selected := false, -1;
        AddToHistory();
      }
    }

    /** `clearCurrentLinePoints`: the current line loses its points, its counter and its sort flag. */
    method ClearCurrentLinePoints()
      requires Valid()
      modifies this`lines, this`history, this`historyIndex
      ensures Valid()
      ensures lines == old(lines)[current := old(lines)[current].(points := [], orderCounter := 0, sorted := false)]
      ensures WellNumbered(lines[current]) && Hist() == RecordCapped(old(Hist()), Snap(), MaxHistory)
    {
      ReplaceCurrent(lines[current].(points := [], orderCounter := 0, sorted := false));
    }

    /** `toggleSort` flips only the current line's flag; the points stay in storage order. */
    method ToggleSort()
      requires Valid()
      modifies this`lines, this`history, this`historyIndex
      ensures Valid()
      ensures lines == old(lines)[current := old(lines)[current].(sorted := !old(lines)[current].sorted)]
      ensures Hist() == RecordCapped(old(Hist()), Snap(), MaxHistory)
    {
      ReplaceCurrent(lines[current].(sorted := !lines[current].sorted));
    }

    // -------------------------------------------------------------------
    // Lines

    /** Appends a line, makes it current and records the state. */
    method PushLine(line: Line)
      requires Valid()
      modifies this`lines, this`current, this`history, this`historyIndex
      ensures Valid()
      ensures lines == old(lines) + [line] && current == |lines| - 1
      ensures Hist() == RecordCapped(old(Hist()), Snap(), MaxHistory)
    {
      lines := lines + [line];
      current := |lines| - 1;
      AddToHistory();
    }

    /**
     * `createNewLine`, checking the name it stores: a name that trims to
     * nothing or to a name in use is refused; otherwise an empty line under
     * the trimmed name is appended, made current and recorded. Distinct
     * names stay distinct.
     */
    method NewLine(name: string)
      requires Valid()
      modifies this`lines, this`current, this`history, this`historyIndex
      ensures Valid()
      ensures Trim(name) == [] || NameTaken(old(lines), Trim(name)) ==>
        lines == old(lines) && current == old(current) && Hist() == old(Hist())
      ensures Trim(name) != [] && !NameTaken(old(lines), Trim(name)) ==>
        lines == old(lines) + [Line(Trim(name), [], false, 0)] && current == |lines| - 1 &&
        Hist() == RecordCapped(old(Hist()), Snap(), MaxHistory)
      ensures DistinctNames(old(lines)) ==> DistinctNames(lines)
    {
      var t := Trim(name);
      if t == [] || NameTaken(lines, t) {
        return;
      }
      if DistinctNames(lines) {
        AppendFreshName(lines, Line(t, [], false, 0));
      }
      PushLine(Line(t, [], false, 0));
    }

    /**
     * `renameLine`, checking the name it stores: a name that trims to
     * nothing or to another line's name is refused; otherwise only the
     * current line's name changes, and distinct names stay distinct.
     */
    method RenameLine(name: string)
      requires Valid()
      modifies this`lines, this`history, this`historyIndex
      ensures Valid()
      ensures Trim(name) == [] || NameTakenByOther(old(lines), Trim(name), current) ==>
        lines == old(lines) && Hist() == old(Hist())
      ensures Trim(name) != [] && !NameTakenByOther(old(lines), Trim(name), current) ==>
        lines == old(lines)[current := old(lines)[current].(name := Trim(name))] &&
        Hist() == RecordCapped(old(Hist()), Snap(), MaxHistory)
      ensures DistinctNames(old(lines)) ==> DistinctNames(lines)
    {
      var t := Trim(name);
      if t == [] || NameTakenByOther(lines, t, current) {
        return;
      }
      if DistinctNames(lines) {
        RenameFreshName(lines, current, t);
      }
      ReplaceCurrent(lines[current].(name := t));
    }

    // -------------------------------------------------------------------
    // Highlight strokes

    /** `handleHighlightStart`: once calibrated, a press starts a path at the click. */
    method HighlightStart(click: Pt)
      requires Valid()
      modifies this`highlighting, this`highlightPath
      ensures Valid()
      ensures calibrated ==> highlighting && highlightPath == [click]
      ensures !calibrated ==> highlighting == old(highlighting) && highlightPath == old(highlightPath)
    {
      if calibrated {
        highlighting, highlightPath := true, [click];
      }
    }

    /**
     * A mouse move while stroking in highlight mode extends the path by a
     * point more than `3 / zoom` from its last one. On an empty path the
     * handler throws before it changes anything.
     */
    method HighlightDrag(p: Pt)
      requires Valid()
      modifies this`highlightPath
      ensures Valid()
      ensures var t := 3.0 / view.zoom;
        if highlighting && mode == Highlight && old(highlightPath) != [] &&
           SqDist(p, old(highlightPath)[|old(highlightPath)| - 1]) > t * t
        then highlightPath == old(highlightPath) + [p]
        else highlightPath == old(highlightPath)
    {
      if highlighting && mode == Highlight && highlightPath != [] {
        var t := 3.0 / view.zoom;
        if SqDist(p, highlightPath[|highlightPath| - 1]) > t * t {
          highlightPath := highlightPath + [p];
        }
      }
    }

    /** `clearHighlightPath`: the path is emptied and recorded. */
    method ClearHighlightPath()
      requires Valid()
      modifies this`highlightPath, this`history, this`historyIndex
      ensures Valid()
      ensures highlightPath == [] && Hist() == RecordCapped(old(Hist()), Snap(), MaxHistory)
    {
      highlightPath := [];
      AddToHistory();
    }

    /**
     * `handleHighlightEnd`, on the release while stroking in highlight mode.
     * The stroke ends and its path is emptied. A path of fewer than ten
     * points, or an `n` that is not a number from 1 to 1000, commits nothing.
     * Otherwise the new line takes the first free name for the typed or
     * default name. It holds the samples of the path that convert, numbered
     * from 1. It becomes current and the state is recorded.
     */
    method HighlightEnd(n: Option<int>, typed: string, dist: (Pt, Pt) -> real)
      returns (committed: bool, name: string, cands: seq<Pt>, pts: seq<Point>)
      requires Valid() && NonNegative(dist)
      modifies this`lines, this`current, this`highlighting, this`highlightPath, this`history, this`historyIndex
      ensures Valid()
      ensures !(old(highlighting) && mode == Highlight) ==>
        !committed && lines == old(lines) && current == old(current) &&
        highlighting == old(highlighting) && highlightPath == old(highlightPath) && Hist() == old(Hist())
      ensures old(highlighting) && mode == Highlight ==> !highlighting && highlightPath == []
      ensures committed <==> (old(highlighting) && mode == Highlight && |old(highlightPath)| >= 10 &&
        n.Some? && 1 <= n.value <= 1000)
      ensures committed ==>
        FirstFreeName(old(lines), ChosenName(typed, |old(lines)|), name) &&
        Committed(old(highlightPath), n.value, dist, Transformer(calibrated, ax, ay, e), cands, pts) &&
        lines == old(lines) + [StrokeLine(name, pts)] && current == |lines| - 1 &&
        Hist() == RecordCapped(old(Hist()), Snap(), MaxHistory)
      ensures !committed ==> lines == old(lines) && current == old(current) && Hist() == old(Hist())
    {
      committed, name, cands, pts := false, [], [], [];
      if !(highlighting && mode == Highlight) {
        return;
      }
      highlighting := false;
      if |highlightPath| < 10 || n.None? || n.value <= 0 || n.value > 1000 {
        highlightPath := [];
        return;
      }
      committed := true;
      name, cands, pts := CommitStroke(n.value, typed, dist);
    }

    /** The committing branch of `handleHighlightEnd`. */
    method CommitStroke(n: int, typed: string, dist: (Pt, Pt) -> real)
      returns (name: string, cands: seq<Pt>, pts: seq<Point>)
      requires Valid() && NonNegative(dist) && |highlightPath| >= 10 && 1 <= n <= 1000
      modifies this`lines, this`current, this`highlightPath, this`history, this`historyIndex
      ensures Valid() && highlightPath == []
      ensures FirstFreeName(old(lines), ChosenName(typed, |old(lines)|), name)
      ensures Committed(old(highlightPath), n, dist, Transformer(calibrated, ax, ay, e), cands, pts)
      ensures lines == old(lines) + [StrokeLine(name, pts)] && current == |lines| - 1
      ensures Hist() == RecordCapped(old(Hist()), Snap(), MaxHistory)
    {
      name := FreeNameByCounting(lines, ChosenName(typed, |lines|));
      cands, pts := TraceStroke(highlightPath, n, dist, Transformer(calibrated, ax, ay, e));
      FinishStroke(StrokeLine(name, pts));
    }

    /** Empties the path, then appends the traced line, makes it current and records. */
    method FinishStroke(line: Line)
      requires Valid()
      modifies this`lines, this`current, this`highlightPath, this`history, this`historyIndex
      ensures Valid() && highlightPath == []
      ensures lines == old(lines) + [line] && current == |lines| - 1
      ensures Hist() == RecordCapped(old(Hist()), Snap(), MaxHistory)
    {
      highlightPath := [];
      PushLine(line);
    }
  }
}
