/**
 * Auto-centring from modules/color-detect.js: `findLineCenter` moves a
 * click to the centroid of the nearby pixels that match the line colour,
 * using the Euclidean RGB distance `colorDistance`.
 */
module ColorDetect {
  import opened Wrappers
  import opened Geometry
  import opened Text
  import opened Pixels

  /** `colorDistance` squared; the square root is never needed to compare it against a limit. */
  function SqColorDistance(a: Rgb, b: Rgb): (d: int)
    ensures d >= 0
    ensures d == 0 <==> a == b
  {
    var dr, dg, db := a.r - b.r, a.g - b.g, a.b - b.b;
    SquareNat(dr);
    SquareNat(dg);
    SquareNat(db);
    dr * dr + dg * dg + db * db
  }

  lemma SquareNat(u: int)
    ensures u * u >= 0 && (u * u == 0 <==> u == 0)
  {
    if u < 0 {
      assert u * u == (-u) * (-u);
    }
  }

  /** The distance is symmetric. */
  lemma ColorDistanceSymmetric(a: Rgb, b: Rgb)
    ensures SqColorDistance(a, b) == SqColorDistance(b, a)
  {
    assert (a.r - b.r) * (a.r - b.r) == (b.r - a.r) * (b.r - a.r);
    assert (a.g - b.g) * (a.g - b.g) == (b.g - a.g) * (b.g - a.g);
    assert (a.b - b.b) * (a.b - b.b) == (b.b - a.b) * (b.b - a.b);
  }

  /** `colorDistance(c, target) <= limit`, stated on the squared distance. */
  predicate WithinDistance(c: Rgb, target: Rgb, limit: real)
  {
    limit >= 0.0 && SqColorDistance(c, target) as real <= limit * limit
  }

  /** `colorDistance(c, target) > limit`, stated on the squared distance. */
  predicate BeyondDistance(c: Rgb, target: Rgb, limit: real)
  {
    limit < 0.0 || SqColorDistance(c, target) as real > limit * limit
  }

  /** For the true distance `s` (non-negative, squaring to the squared distance) both predicates mean what they say. */
  lemma DistancePredicates(c: Rgb, target: Rgb, limit: real, s: real)
    requires s >= 0.0 && s * s == SqColorDistance(c, target) as real
    ensures WithinDistance(c, target, limit) <==> s <= limit
    ensures BeyondDistance(c, target, limit) <==> s > limit
  {
    if 0.0 <= limit {
      SquaresOrdered(s, limit);
    }
  }

  /** For non-negative reals, comparing squares is comparing the values. */
  lemma SquaresOrdered(a: real, b: real)
    requires a >= 0.0 && b >= 0.0
    ensures a <= b <==> a * a <= b * b
  {
    var aa, ab, bb := a * a, a * b, b * b;
    if a <= b {
      assert aa <= ab <= bb;
    } else {
      assert bb <= ab < aa;
    }
  }

  /** The test on each window pixel: close to the line colour and clearly away from the background. */
  predicate Qualifies(c: Rgb, lineColor: Rgb, bgColor: Rgb, tolerance: real)
  {
    WithinDistance(c, lineColor, tolerance) && BeyondDistance(c, bgColor, tolerance * 1.5)
  }

  /** The colour settings the search reads from the shared state. */
  datatype Settings = Settings(lineColor: Rgb, bgColor: Rgb, tolerance: real)

  /** The colour of window cell `k`, at buffer index `4k`. */
  function CellColor(win: seq<int>, k: nat): Rgb
    requires 4 * k + 4 <= |win|
  {
    Rgb(win[4 * k], win[4 * k + 1], win[4 * k + 2])
  }

  /** The sums after the first `k` cells of a window `sw` wide; cell `k` is at `(k % sw, k / sw)`. */
  function WindowTally(win: seq<int>, sw: int, st: Settings, k: nat): Sums
    requires 4 * k <= |win| && sw >= 1
  {
    if k == 0 then Sums(0, 0, 0)
    else
      var s := WindowTally(win, sw, st, k - 1);
      if Qualifies(CellColor(win, k - 1), st.lineColor, st.bgColor, st.tolerance)
      then Sums(s.x + (k - 1) % sw, s.y + (k - 1) / sw, s.count + 1)
      else s
  }

  /** Buffer index `i = 4k` of a square window `sw` wide names a cell inside `[0, sw) x [0, sw)`. */
  lemma CellInWindow(k: int, sw: int)
    requires sw >= 1 && 0 <= k < sw * sw
    ensures 0 <= k % sw < sw && 0 <= k / sw < sw
  {
  }

  lemma {:induction false} WindowTallyInBox(win: seq<int>, sw: int, st: Settings, k: nat)
    requires sw >= 1 && 4 * k <= |win| && k <= sw * sw
    ensures SumsInBox(WindowTally(win, sw, st, k), 0, sw - 1, 0, sw - 1)
  {
    if k > 0 {
      WindowTallyInBox(win, sw, st, k - 1);
      CellInWindow(k - 1, sw);
      var s := WindowTally(win, sw, st, k - 1);
      AddToBox(s, (k - 1) % sw, (k - 1) / sw, 0, sw - 1, 0, sw - 1);
    }
  }

  /**
   * What `findLineCenter` returns: the click when auto-centring is off, no
   * image is loaded or the image could not be copied (`window` is `None`);
   * otherwise, when more than 5 window pixels qualify, their centroid
   * offset by the window's corner `(x - r, y - r)`, and else the click.
   */
  function LineCenter(autoCenter: bool, hasImage: bool, r: int, st: Settings, window: Option<seq<int>>, click: Pt): Pt
    requires r >= 1 && (window.Some? ==> |window.value| == (2 * r) * (2 * r) * 4)
  {
    if !autoCenter || !hasImage || window.None? then click
    else
      var s := WindowTally(window.value, 2 * r, st, (2 * r) * (2 * r));
      if s.count > 5
      then Pt(click.x - r as real + s.x as real / s.count as real, click.y - r as real + s.y as real / s.count as real)
      else click
  }

  /** `findLineCenter`: one pass over the window's pixel buffer, four bytes at a time. */
  method FindLineCenter(autoCenter: bool, hasImage: bool, r: int, st: Settings, window: Option<seq<int>>, click: Pt)
    returns (p: Pt)
    requires r >= 1 && (window.Some? ==> |window.value| == (2 * r) * (2 * r) * 4)
    ensures p == LineCenter(autoCenter, hasImage, r, st, window, click)
  {
    if !autoCenter || !hasImage {
      return click;
    }
    var sx, sy := click.x - r as real, click.y - r as real;
    var sw := r * 2;
    if window.None? {
      return click;
    }
    var data := window.value;
    ghost var cells := sw * sw;
    assert |data| == 4 * cells by {
      assert sw == 2 * r;
    }
    var sumX, sumY, cnt := 0, 0, 0;
    var i := 0;
    ghost var k := 0;
    while i < |data|
      invariant 0 <= k <= cells && i == 4 * k
      invariant Sums(sumX, sumY, cnt) == WindowTally(data, sw, st, k)
      decreases |data| - i
    {
      var col := Rgb(data[i], data[i + 1], data[i + 2]);
      assert col == CellColor(data, k);
      if Qualifies(col, st.lineColor, st.bgColor, st.tolerance) {
        var cell := i / 4;
        assert cell == k;
        var px := cell % sw;
        var py := cell / sw;
        sumX, sumY, cnt := sumX + px, sumY + py, cnt + 1;
      }
      i, k := i + 4, k + 1;
    }
    assert k == cells;
    if cnt > 5 {
      var cx, cy := sumX as real / cnt as real, sumY as real / cnt as real;
      return Pt(sx + cx, sy + cy);
    }
    return click;
  }

  /** A moved click lands inside the search window `[x - r, x + r - 1] x [y - r, y + r - 1]`. */
  lemma CenterInWindow(autoCenter: bool, hasImage: bool, r: int, st: Settings, window: Option<seq<int>>, click: Pt)
    requires r >= 1 && (window.Some? ==> |window.value| == (2 * r) * (2 * r) * 4)
    ensures var p := LineCenter(autoCenter, hasImage, r, st, window, click);
      p == click || (click.x - r as real <= p.x <= click.x + r as real - 1.0 &&
                     click.y - r as real <= p.y <= click.y + r as real - 1.0)
  {
    if autoCenter && hasImage && window.Some? {
      var sw := 2 * r;
      WindowTallyInBox(window.value, sw, st, sw * sw);
      var s := WindowTally(window.value, sw, st, sw * sw);
      if s.count > 5 {
        ScaledMeanBetween(s.x, s.count, 0, sw - 1, 1.0);
        ScaledMeanBetween(s.y, s.count, 0, sw - 1, 1.0);
      }
    }
  }
}
