/**
 * Axis calibration maps. The code base uses two conventions, kept apart here:
 *
 *  - convention A (digitizer.js, digitizer-core.js): a fitted axis stores
 *    `pixel = value * scale + offset`, where `value` is the data value on a
 *    linear axis and its base-10 logarithm on a log axis; converting a pixel
 *    back divides: `value = (pixel - offset) / scale`;
 *  - convention B (modules/calibration.js, modules/points.js, core.js): a
 *    fitted axis stores `data = scale * pixel + offset`.
 *
 * `Math.pow(10, v)` and `Math.log10` are not computed: they are an arbitrary
 * pair of maps `Exp10` obeying the inverse laws of `Lawful`.
 */
module Coordinates {
  import opened Wrappers
  import opened Geometry

  datatype Exp10 = Exp10(pow: real -> real, log: real -> real)

  /** `pow` is positive and `log` undoes it; `pow` undoes `log` on positive arguments. */
  ghost predicate Lawful(e: Exp10)
  {
    && (forall v :: e.pow(v) > 0.0 && e.log(e.pow(v)) == v)
    && (forall y :: y > 0.0 ==> e.pow(e.log(y)) == y)
  }

  /** The logarithm is injective on positive numbers. */
  lemma LogInjective(e: Exp10, a: real, b: real)
    requires Lawful(e) && a > 0.0 && b > 0.0 && a != b
    ensures e.log(a) != e.log(b)
  {
    assert e.pow(e.log(a)) == a && e.pow(e.log(b)) == b;
  }

  /** Division by a non-zero real undoes multiplication and is undone by it. */
  lemma DivCancel(a: real, s: real)
    requires s != 0.0
    ensures (a / s) * s == a
    ensures (a * s) / s == a
  {
  }

  // ---------------------------------------------------------------------
  // Convention A

  /** One axis as stored by the class and engine variants. */
  datatype Axis = Axis(scale: Num, offset: Num, log: bool)

  /** The calibration-space value of a data value: the value itself, or its logarithm on a log axis. */
  function AxisValue(log: bool, e: Exp10, d: real): real
  {
    if log then e.log(d) else d
  }

  /**
   * The data value under a pixel: `(px - offset) / scale`, raised to the
   * power of ten on a log axis. Missing when the scale is missing or zero,
   * or the offset is missing (the non-finite results the code rejects).
   */
  function PixelToData(a: Axis, e: Exp10, px: real): (d: Num)
    ensures d.Fin? <==> a.scale.Fin? && a.offset.Fin? && a.scale.v != 0.0
  {
    if a.scale.NaN? || a.offset.NaN? || a.scale.v == 0.0 then NaN
    else
      var v := (px - a.offset.v) / a.scale.v;
      Fin(if a.log then e.pow(v) else v)
  }

  /** The pixel of a data value: `value * scale + offset`; missing for a non-positive value on a log axis. */
  function DataToPixel(a: Axis, e: Exp10, d: real): (px: Num)
    ensures px.Fin? <==> a.scale.Fin? && a.offset.Fin? && (a.log ==> d > 0.0)
  {
    if a.scale.NaN? || a.offset.NaN? || (a.log && d <= 0.0) then NaN
    else Fin(AxisValue(a.log, e, d) * a.scale.v + a.offset.v)
  }

  /**
   * Fits one axis through `(pix1, v1)` and `(pix2, v2)`: `scale` is the pixel
   * difference over the value difference and `offset` puts `v1` at `pix1`.
   * A zero value difference divides by zero, leaving both fields non-finite.
   */
  function FitAxis(pix1: real, pix2: real, v1: real, v2: real, log: bool, e: Exp10): (a: Axis)
    ensures a.log == log
    ensures a.scale.Fin? <==> AxisValue(log, e, v2) != AxisValue(log, e, v1)
    ensures a.offset.Fin? <==> a.scale.Fin?
  {
    var dv := AxisValue(log, e, v2) - AxisValue(log, e, v1);
    if dv == 0.0 then Axis(NaN, NaN, log)
    else
      var scale := (pix2 - pix1) / dv;
      Axis(Fin(scale), Fin(pix1 - AxisValue(log, e, v1) * scale), log)
  }

  /** The guards every convention-A calibrate applies make the fit finite. */
  lemma FitAxisFinite(pix1: real, pix2: real, v1: real, v2: real, log: bool, e: Exp10)
    requires Lawful(e) && v1 != v2 && (log ==> v1 > 0.0 && v2 > 0.0)
    ensures FitAxis(pix1, pix2, v1, v2, log, e).scale.Fin?
  {
    if log { LogInjective(e, v1, v2); }
  }

  /**
   * Under the calibrate guards (distinct values, positive ones on a log
   * axis) and with distinct pixels, the fit maps the two calibration pixels
   * back to the two entered values.
   */
  lemma FitAxisEndpoints(pix1: real, pix2: real, v1: real, v2: real, log: bool, e: Exp10)
    requires Lawful(e) && pix1 != pix2 && v1 != v2 && (log ==> v1 > 0.0 && v2 > 0.0)
    ensures PixelToData(FitAxis(pix1, pix2, v1, v2, log, e), e, pix1) == Fin(v1)
    ensures PixelToData(FitAxis(pix1, pix2, v1, v2, log, e), e, pix2) == Fin(v2)
  {
    if log { LogInjective(e, v1, v2); }
    FitAxisUnscaled(pix1, pix2, v1, v2, log, e);
    var a := FitAxis(pix1, pix2, v1, v2, log, e);
    AxisRecovers(a, e, pix1, v1);
    AxisRecovers(a, e, pix2, v2);
  }

  /** The value under a pixel before any power of ten is taken. */
  function Unscaled(a: Axis, px: real): real
    requires a.scale.Fin? && a.offset.Fin? && a.scale.v != 0.0
  {
    (px - a.offset.v) / a.scale.v
  }

  /** With distinct axis values and pixels, the fit puts each axis value back under its pixel. */
  lemma FitAxisUnscaled(pix1: real, pix2: real, v1: real, v2: real, log: bool, e: Exp10)
    requires pix1 != pix2 && AxisValue(log, e, v2) != AxisValue(log, e, v1)
    ensures var a := FitAxis(pix1, pix2, v1, v2, log, e);
      a.scale.Fin? && a.offset.Fin? && a.scale.v != 0.0 &&
      Unscaled(a, pix1) == AxisValue(log, e, v1) && Unscaled(a, pix2) == AxisValue(log, e, v2)
  {
    var w1, w2 := AxisValue(log, e, v1), AxisValue(log, e, v2);
    LineThrough(pix1, pix2, w1, w2);
  }

  /** A pixel whose unscaled value is `v`'s axis value converts back to `v`. */
  lemma AxisRecovers(a: Axis, e: Exp10, px: real, v: real)
    requires Lawful(e) && a.scale.Fin? && a.offset.Fin? && a.scale.v != 0.0
    requires (a.log ==> v > 0.0) && Unscaled(a, px) == AxisValue(a.log, e, v)
    ensures PixelToData(a, e, px) == Fin(v)
  {
    if a.log {
      assert e.pow(e.log(v)) == v;
    }
  }

  /**
   * The arithmetic of a convention-A fit: with `scale` and `offset` fitted
   * through `(w1, pix1)` and `(w2, pix2)`, dividing back recovers `w1` and `w2`.
   */
  lemma LineThrough(pix1: real, pix2: real, w1: real, w2: real)
    requires pix1 != pix2 && w1 != w2
    ensures var s := (pix2 - pix1) / (w2 - w1);
      s != 0.0 && (pix1 - (pix1 - w1 * s)) / s == w1 && (pix2 - (pix1 - w1 * s)) / s == w2
  {
    var s := (pix2 - pix1) / (w2 - w1);
    DivCancel(pix2 - pix1, w2 - w1);
    var sw1, sw2 := w1 * s, w2 * s;
    assert s * (w2 - w1) == pix2 - pix1;
    assert s * (w2 - w1) == sw2 - sw1;
    assert s != 0.0;
    assert pix1 - (pix1 - sw1) == sw1;
    assert pix2 - (pix1 - sw1) == sw2;
    DivCancel(w1, s);
    DivCancel(w2, s);
  }

  /** On a calibrated axis, converting a data value to a pixel and back returns it. */
  lemma DataPixelData(a: Axis, e: Exp10, d: real)
    requires Lawful(e) && a.scale.Fin? && a.offset.Fin? && a.scale.v != 0.0
    requires a.log ==> d > 0.0
    ensures PixelToData(a, e, DataToPixel(a, e, d).v) == Fin(d)
  {
    var w := AxisValue(a.log, e, d);
    assert w == if a.log then e.log(d) else d;
    assert DataToPixel(a, e, d).v == w * a.scale.v + a.offset.v;
    DivCancel(w, a.scale.v);
    assert ((w * a.scale.v + a.offset.v) - a.offset.v) / a.scale.v == w;
    if a.log { assert e.pow(w) == d; }
  }

  /** On a calibrated axis, converting a pixel to data and back returns it. */
  lemma PixelDataPixel(a: Axis, e: Exp10, px: real)
    requires Lawful(e) && a.scale.Fin? && a.offset.Fin? && a.scale.v != 0.0
    ensures DataToPixel(a, e, PixelToData(a, e, px).v) == Fin(px)
  {
    var v := (px - a.offset.v) / a.scale.v;
    DivCancel(px - a.offset.v, a.scale.v);
    assert v * a.scale.v == px - a.offset.v;
    var d := PixelToData(a, e, px).v;
    assert d == if a.log then e.pow(v) else v;
    assert AxisValue(a.log, e, d) == v by {
      if a.log { assert e.log(e.pow(v)) == v; }
    }
    assert DataToPixel(a, e, d).v == v * a.scale.v + a.offset.v;
  }

  /**
   * digitizer.js `CoordinateTransformer.canvasToData`: the identity while
   * uncalibrated, otherwise both axes converted, or nothing when either fails.
   */
  function CanvasToData(calibrated: bool, ax: Axis, ay: Axis, e: Exp10, p: Pt): (r: Option<Pt>)
    ensures !calibrated ==> r == Some(p)
    ensures calibrated ==> r == BothAxes(ax, ay, e, p)
  {
    if !calibrated then Some(p) else BothAxes(ax, ay, e, p)
  }

  /** digitizer.js `dataToCanvas`: the identity while uncalibrated. */
  function DataToCanvas(calibrated: bool, ax: Axis, ay: Axis, e: Exp10, d: Pt): (r: Option<Pt>)
    ensures !calibrated ==> r == Some(d)
    ensures calibrated ==> (r.Some? <==> DataToPixel(ax, e, d.x).Fin? && DataToPixel(ay, e, d.y).Fin?)
  {
    if !calibrated then Some(d)
    else
      var x, y := DataToPixel(ax, e, d.x), DataToPixel(ay, e, d.y);
      if x.Fin? && y.Fin? then Some(Pt(x.v, y.v)) else None
  }

  /**
   * digitizer-core.js `canvasToDataCoords` (and the calibrated branch of
   * digitizer.js): the data point under a canvas point, as a `Pt` holding
   * data values, or nothing when either axis cannot convert.
   */
  function BothAxes(ax: Axis, ay: Axis, e: Exp10, p: Pt): (r: Option<Pt>)
    ensures r.Some? <==> PixelToData(ax, e, p.x).Fin? && PixelToData(ay, e, p.y).Fin?
    ensures r.Some? ==> r.value == Pt(PixelToData(ax, e, p.x).v, PixelToData(ay, e, p.y).v)
  {
    var dx, dy := PixelToData(ax, e, p.x), PixelToData(ay, e, p.y);
    if dx.Fin? && dy.Fin? then Some(Pt(dx.v, dy.v)) else None
  }

  /** The two transformer maps are mutually inverse on calibrated, non-degenerate axes. */
  lemma TransformerRoundTrip(ax: Axis, ay: Axis, e: Exp10, p: Pt)
    requires Lawful(e)
    requires ax.scale.Fin? && ax.offset.Fin? && ax.scale.v != 0.0
    requires ay.scale.Fin? && ay.offset.Fin? && ay.scale.v != 0.0
    ensures CanvasToData(true, ax, ay, e, p).Some?
    ensures DataToCanvas(true, ax, ay, e, CanvasToData(true, ax, ay, e, p).value) == Some(p)
  {
    PixelDataPixel(ax, e, p.x);
    PixelDataPixel(ay, e, p.y);
  }

  // ---------------------------------------------------------------------
  // Calibration input (digitizer.js and digitizer-core.js)

  /** The four axis inputs after `parseFloat`, `NaN` where it fails. */
  datatype AxisValues = AxisValues(x1: Num, x2: Num, y1: Num, y2: Num)

  predicate AllNumbers(v: AxisValues)
  {
    v.x1.Fin? && v.x2.Fin? && v.y1.Fin? && v.y2.Fin?
  }

  /** Why calibrate refuses: one reason per check. */
  datatype Refusal =
    | NotANumber | SameValues | PointCount
    | XPixelsTooClose | YPixelsTooClose | LogXNotPositive | LogYNotPositive

  /** `Math.abs(b - a) >= min`. */
  predicate Separated(a: real, b: real, min: real)
  {
    a - b >= min || b - a >= min
  }

  /**
   * Everything calibrate demands at once. Every value is a number. The two
   * values of each axis differ. Exactly the needed axis points are set. Each
   * axis' two pixels are at least `min` apart. A log axis has positive values.
   */
  predicate Acceptable(ap: seq<Pt>, shared: bool, logX: bool, logY: bool, v: AxisValues, min: real)
  {
    && AllNumbers(v) && v.x1.v != v.x2.v && v.y1.v != v.y2.v
    && |ap| == Needed(shared)
    && Separated(PixelsOf(ap, shared).x1, PixelsOf(ap, shared).x2, min)
    && Separated(PixelsOf(ap, shared).yRef, PixelsOf(ap, shared).y2, min)
    && (logX ==> v.x1.v > 0.0 && v.x2.v > 0.0)
    && (logY ==> v.y1.v > 0.0 && v.y2.v > 0.0)
  }

  /** The X axis calibrate fits: through X1 and X2. */
  function FitX(ap: seq<Pt>, shared: bool, logX: bool, v: AxisValues, e: Exp10): Axis
    requires |ap| >= Needed(shared) && v.x1.Fin? && v.x2.Fin?
  {
    FitAxis(PixelsOf(ap, shared).x1, PixelsOf(ap, shared).x2, v.x1.v, v.x2.v, logX, e)
  }

  /** The Y axis calibrate fits: through the Y reference pixel (origin or Y1) and Y2. */
  function FitY(ap: seq<Pt>, shared: bool, logY: bool, v: AxisValues, e: Exp10): Axis
    requires |ap| >= Needed(shared) && v.y1.Fin? && v.y2.Fin?
  {
    FitAxis(PixelsOf(ap, shared).yRef, PixelsOf(ap, shared).y2, v.y1.v, v.y2.v, logY, e)
  }

  /** Both numbers finite and a non-zero scale: points convert on this axis. */
  predicate Converts(a: Axis)
  {
    a.scale.Fin? && a.offset.Fin? && a.scale.v != 0.0
  }

  /**
   * An accepted calibration leaves both axes able to convert, so the
   * `isFinite` refusal after the fit is never taken. Each calibration pixel
   * converts back to the value entered for it.
   */
  lemma CalibrationEndpoints(ap: seq<Pt>, shared: bool, logX: bool, logY: bool, v: AxisValues, min: real, e: Exp10)
    requires Lawful(e) && min > 0.0 && Acceptable(ap, shared, logX, logY, v, min)
    ensures Converts(FitX(ap, shared, logX, v, e)) && Converts(FitY(ap, shared, logY, v, e))
    ensures var px, ax, ay := PixelsOf(ap, shared), FitX(ap, shared, logX, v, e), FitY(ap, shared, logY, v, e);
      PixelToData(ax, e, px.x1) == v.x1 && PixelToData(ax, e, px.x2) == v.x2 &&
      PixelToData(ay, e, px.yRef) == v.y1 && PixelToData(ay, e, px.y2) == v.y2
  {
    var px := PixelsOf(ap, shared);
    FitAxisEndpoints(px.x1, px.x2, v.x1.v, v.x2.v, logX, e);
    FitAxisEndpoints(px.yRef, px.y2, v.y1.v, v.y2.v, logY, e);
  }

  // ---------------------------------------------------------------------
  // Convention B

  /** `data = scale * pixel + offset`; non-finite when either factor is. */
  function Affine(scale: Num, offset: Num, px: real): (d: Num)
    ensures d.Fin? <==> scale.Fin? && offset.Fin?
  {
    if scale.Fin? && offset.Fin? then Fin(scale.v * px + offset.v) else NaN
  }

  /** A fitted convention-B axis: the stored scale and offset. */
  datatype Linear = Linear(scale: Num, offset: Num)

  /**
   * Fits `data = scale * pixel + offset` through `(pix1, v1)` and
   * `(pix2, v2)`. Equal pixels divide by zero: both fields become non-finite.
   */
  function FitAffine(pix1: real, pix2: real, v1: real, v2: real): (m: Linear)
    ensures m.scale.Fin? <==> pix1 != pix2
    ensures m.offset.Fin? <==> pix1 != pix2
  {
    if pix2 == pix1 then Linear(NaN, NaN)
    else
      var scale := (v2 - v1) / (pix2 - pix1);
      Linear(Fin(scale), Fin(v1 - scale * pix1))
  }

  /** A convention-B fit maps each calibration pixel to its entered value. */
  lemma FitAffineEndpoints(pix1: real, pix2: real, v1: real, v2: real)
    requires pix1 != pix2
    ensures Affine(FitAffine(pix1, pix2, v1, v2).scale, FitAffine(pix1, pix2, v1, v2).offset, pix1) == Fin(v1)
    ensures Affine(FitAffine(pix1, pix2, v1, v2).scale, FitAffine(pix1, pix2, v1, v2).offset, pix2) == Fin(v2)
  {
    var s := (v2 - v1) / (pix2 - pix1);
    DivCancel(v2 - v1, pix2 - pix1);
    assert s * (pix2 - pix1) == v2 - v1;
    assert s * (pix2 - pix1) == s * pix2 - s * pix1;
    assert FitAffine(pix1, pix2, v1, v2) == Linear(Fin(s), Fin(v1 - s * pix1));
  }

  /**
   * core.js `canvasToDataCoords` as written: it divides by the stored scale
   * (convention A) although core.js calibrates with convention B.
   */
  function CoreToDataAsWritten(m: Linear, log: bool, e: Exp10, px: real): (d: Num)
    ensures d.Fin? <==> m.scale.Fin? && m.offset.Fin? && m.scale.v != 0.0
  {
    if m.scale.NaN? || m.offset.NaN? || m.scale.v == 0.0 then NaN
    else
      var v := (px - m.offset.v) / m.scale.v;
      Fin(if log then e.pow(v) else v)
  }

  /** A concrete calibration whose second endpoint does not survive the as-written conversion. */
  lemma CoreConversionMissesEndpoint(e: Exp10)
    ensures FitAffine(0.0, 1.0, 0.0, 2.0) == Linear(Fin(2.0), Fin(0.0))
    ensures CoreToDataAsWritten(FitAffine(0.0, 1.0, 0.0, 2.0), false, e, 1.0) == Fin(0.5)
  {
  }

  /**
   * The corrected core.js conversion: a linear axis applies the fitted
   * convention-B map; the log branch is kept as written, since core.js never
   * fits a log axis.
   */
  function CoreToData(m: Linear, log: bool, e: Exp10, px: real): (d: Num)
    ensures !log ==> d == Affine(m.scale, m.offset, px)
  {
    if log then CoreToDataAsWritten(m, log, e, px) else Affine(m.scale, m.offset, px)
  }

  /** With the corrected conversion, a core.js linear calibration maps both calibration pixels to their values. */
  lemma CoreToDataEndpoints(pix1: real, pix2: real, v1: real, v2: real, e: Exp10)
    requires pix1 != pix2
    ensures CoreToData(FitAffine(pix1, pix2, v1, v2), false, e, pix1) == Fin(v1)
    ensures CoreToData(FitAffine(pix1, pix2, v1, v2), false, e, pix2) == Fin(v2)
  {
    FitAffineEndpoints(pix1, pix2, v1, v2);
  }
}
