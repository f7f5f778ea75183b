/**
 * Pixel-window searches over an RGBA image buffer: the clamped pixel read
 * `getRawPixel` (digitizer-core.js), the dark-pixel magnet `snapToDark` and
 * the line-colour histogram `detectLineColor` (digitizer-tools.js), and the
 * colour-tolerance centroid `findLineCenter` (modules/color-detect.js).
 */
module Pixels {
  import opened Wrappers
  import opened Geometry
  import opened Text

  /** An `ImageData` buffer: `width * height` pixels row after row, four bytes (r, g, b, a) each. */
  datatype Image = Image(width: int, height: int, data: seq<int>)

  predicate WellFormed(img: Image)
  {
    img.width >= 1 && img.height >= 1 && |img.data| == img.width * img.height * 4 &&
    forall i :: 0 <= i < |img.data| ==> InByte(img.data[i])
  }

  predicate InImage(img: Image, px: int, py: int)
  {
    0 <= px < img.width && 0 <= py < img.height
  }

  /** The buffer offset `(py * iw + px) * 4` of pixel `(px, py)`. */
  function Offset(width: int, px: int, py: int): int
  {
    (py * width + px) * 4
  }

  /** Every pixel inside the image has its four bytes inside the buffer. */
  lemma OffsetInside(img: Image, px: int, py: int)
    requires WellFormed(img) && InImage(img, px, py)
    ensures 0 <= Offset(img.width, px, py) && Offset(img.width, px, py) + 4 <= |img.data|
  {
    var w := img.width;
    assert py * w + px < (py + 1) * w;
    assert (py + 1) * w <= img.height * w;
  }

  /** The colour of pixel `(px, py)`. */
  function ColorAt(img: Image, px: int, py: int): (c: Rgb)
    requires WellFormed(img) && InImage(img, px, py)
    ensures IsByteColor(c)
  {
    OffsetInside(img, px, py);
    var i := Offset(img.width, px, py);
    Rgb(img.data[i], img.data[i + 1], img.data[i + 2])
  }

  /** The luma `0.299 r + 0.587 g + 0.114 b` both searches threshold on. */
  function Luma(c: Rgb): (l: real)
    ensures IsByteColor(c) ==> 0.0 <= l <= 255.0
  {
    0.299 * c.r as real + 0.587 * c.g as real + 0.114 * c.b as real
  }

  // ---------------------------------------------------------------------
  // getRawPixel (digitizer-core.js)

  /** `Math.round(Math.max(0, Math.min(v, hi)))`: the nearest index in `0..hi`. */
  function ClampIndex(v: real, hi: int): (k: int)
    requires hi >= 0
    ensures 0 <= k <= hi
    ensures v <= 0.0 ==> k == 0
    ensures v >= hi as real ==> k == hi
    ensures 0.0 <= v <= hi as real ==> v - 0.5 < k as real <= v + 0.5
  {
    Round(if v > hi as real then hi as real else if v < 0.0 then 0.0 else v)
  }

  /**
   * `getRawPixel`: the four bytes of the pixel nearest `(ix, iy)` after
   * clamping into the image, so that the slice is always inside the buffer;
   * `None` when no image is loaded.
   */
  function RawPixel(img: Option<Image>, ix: real, iy: real): (r: Option<seq<int>>)
    requires img.Some? ==> WellFormed(img.value)
    ensures r.None? <==> img.None?
    ensures r.Some? ==> |r.value| == 4 && forall k :: 0 <= k < 4 ==> InByte(r.value[k])
    ensures r.Some? ==> (Rgb(r.value[0], r.value[1], r.value[2])
      == ColorAt(img.value, ClampIndex(ix, img.value.width - 1), ClampIndex(iy, img.value.height - 1)))
  {
    if img.None? then None
    else
      var im := img.value;
      var px := ClampIndex(ix, im.width - 1);
      var py := ClampIndex(iy, im.height - 1);
      OffsetInside(im, px, py);
      var i := Offset(im.width, px, py);
      Some(im.data[i..i + 4])
  }

  // ---------------------------------------------------------------------
  // snapToDark (digitizer-tools.js)

  /** The disc both passes of `snapToDark` scan: rounded centre `(cx, cy)` and radius `r`. */
  datatype Disc = Disc(cx: int, cy: int, r: int)

  /** Offset `(dx, dy)` lies in the disc and its pixel inside the image: the cells both passes look at. */
  predicate Visited(img: Image, d: Disc, dx: int, dy: int)
  {
    dx * dx + dy * dy <= d.r * d.r && InImage(img, d.cx + dx, d.cy + dy)
  }

  function CellLuma(img: Image, d: Disc, dx: int, dy: int): real
    requires WellFormed(img) && Visited(img, d, dx, dy)
  {
    Luma(ColorAt(img, d.cx + dx, d.cy + dy))
  }

  /** One step of the first pass: a visited cell darker than `m` lowers it. */
  function MinStep(img: Image, d: Disc, dx: int, dy: int, m: real): real
    requires WellFormed(img)
  {
    if Visited(img, d, dx, dy) && CellLuma(img, d, dx, dy) < m then CellLuma(img, d, dx, dy) else m
  }

  /** The running minimum after row `dy` has been scanned from `-r` up to, not including, `hi`, starting at `m`. */
  function RowMin(img: Image, d: Disc, dy: int, hi: int, m: real): real
    requires WellFormed(img)
    decreases hi + d.r
  {
    if hi <= -d.r then m else MinStep(img, d, hi - 1, dy, RowMin(img, d, dy, hi - 1, m))
  }

  /** The running minimum, from 255, after the rows from `-r` up to, not including, `hi`. */
  function AreaMin(img: Image, d: Disc, hi: int): real
    requires WellFormed(img)
    decreases hi + d.r
  {
    if hi <= -d.r then 255.0 else RowMin(img, d, hi - 1, d.r + 1, AreaMin(img, d, hi - 1))
  }

  /** The sums `darkX`, `darkY` and `darkCount` of the second pass. */
  datatype Sums = Sums(x: int, y: int, count: int)

  /** One step of the second pass: a visited cell no lighter than `threshold` is added. */
  function DarkStep(img: Image, d: Disc, threshold: real, dx: int, dy: int, s: Sums): Sums
    requires WellFormed(img)
  {
    if Visited(img, d, dx, dy) && CellLuma(img, d, dx, dy) <= threshold
    then Sums(s.x + d.cx + dx, s.y + d.cy + dy, s.count + 1)
    else s
  }

  function RowDark(img: Image, d: Disc, threshold: real, dy: int, hi: int, s: Sums): Sums
    requires WellFormed(img)
    decreases hi + d.r
  {
    if hi <= -d.r then s else DarkStep(img, d, threshold, hi - 1, dy, RowDark(img, d, threshold, dy, hi - 1, s))
  }

  function AreaDark(img: Image, d: Disc, threshold: real, hi: int): Sums
    requires WellFormed(img)
    decreases hi + d.r
  {
    if hi <= -d.r then Sums(0, 0, 0)
    else RowDark(img, d, threshold, hi - 1, d.r + 1, AreaDark(img, d, threshold, hi - 1))
  }

  /** The first pass: the lowest luma over the disc, 255 when it covers no pixel of the image. */
  method MinLumaInDisc(img: Image, d: Disc) returns (minLuma: real)
    requires WellFormed(img) && d.r >= 0
    ensures minLuma == AreaMin(img, d, d.r + 1)
  {
    minLuma := 255.0;
    var dy := -d.r;
    while dy <= d.r
      invariant -d.r <= dy <= d.r + 1
      invariant minLuma == AreaMin(img, d, dy)
    {
      ghost var before := minLuma;
      var dx := -d.r;
      while dx <= d.r
        invariant -d.r <= dx <= d.r + 1
        invariant minLuma == RowMin(img, d, dy, dx, before)
      {
        var px, py := d.cx + dx, d.cy + dy;
        if dx * dx + dy * dy <= d.r * d.r && !(px < 0 || py < 0 || px >= img.width || py >= img.height) {
          OffsetInside(img, px, py);
          var idx := (py * img.width + px) * 4;
          var luma := 0.299 * img.data[idx] as real + 0.587 * img.data[idx + 1] as real
            + 0.114 * img.data[idx + 2] as real;
          if luma < minLuma {
            minLuma := luma;
          }
        }
        dx := dx + 1;
      }
      dy := dy + 1;
    }
  }

  /** The second pass: the coordinate sums and the number of disc pixels with luma at most `threshold`. */
  method DarkSums(img: Image, d: Disc, threshold: real) returns (darkX: int, darkY: int, darkCount: int)
    requires WellFormed(img) && d.r >= 0
    ensures Sums(darkX, darkY, darkCount) == AreaDark(img, d, threshold, d.r + 1)
  {
    darkX, darkY, darkCount := 0, 0, 0;
    var dy := -d.r;
    while dy <= d.r
      invariant -d.r <= dy <= d.r + 1
      invariant Sums(darkX, darkY, darkCount) == AreaDark(img, d, threshold, dy)
    {
      ghost var before := Sums(darkX, darkY, darkCount);
      var dx := -d.r;
      while dx <= d.r
        invariant -d.r <= dx <= d.r + 1
        invariant Sums(darkX, darkY, darkCount) == RowDark(img, d, threshold, dy, dx, before)
      {
        var px, py := d.cx + dx, d.cy + dy;
        if dx * dx + dy * dy <= d.r * d.r && !(px < 0 || py < 0 || px >= img.width || py >= img.height) {
          OffsetInside(img, px, py);
          var idx := (py * img.width + px) * 4;
          var luma := 0.299 * img.data[idx] as real + 0.587 * img.data[idx + 1] as real
            + 0.114 * img.data[idx + 2] as real;
          if luma <= threshold {
            darkX, darkY, darkCount := darkX + px, darkY + py, darkCount + 1;
          }
        }
        dx := dx + 1;
      }
      dy := dy + 1;
    }
  }

  /** Row scan: the running minimum never rises and ends at or below every visited cell of the row. */
  lemma {:induction false} RowMinBelow(img: Image, d: Disc, dy: int, hi: int, m: real)
    requires WellFormed(img)
    ensures RowMin(img, d, dy, hi, m) <= m
    ensures forall dx :: -d.r <= dx < hi && Visited(img, d, dx, dy) ==>
      RowMin(img, d, dy, hi, m) <= CellLuma(img, d, dx, dy)
    decreases hi + d.r
  {
    if hi > -d.r {
      RowMinBelow(img, d, dy, hi - 1, m);
    }
  }

  /** The first pass ends at or below 255 and at or below the luma of every visited cell. */
  lemma {:induction false} AreaMinBelow(img: Image, d: Disc, hi: int)
    requires WellFormed(img)
    ensures AreaMin(img, d, hi) <= 255.0
    ensures forall dx, dy :: -d.r <= dy < hi && -d.r <= dx <= d.r && Visited(img, d, dx, dy) ==>
      AreaMin(img, d, hi) <= CellLuma(img, d, dx, dy)
    decreases hi + d.r
  {
    if hi > -d.r {
      AreaMinBelow(img, d, hi - 1);
      RowMinBelow(img, d, hi - 1, d.r + 1, AreaMin(img, d, hi - 1));
    }
  }

  /** Row scan: the running minimum is the starting value or the luma of a visited cell of the row. */
  lemma {:induction false} RowMinAttained(img: Image, d: Disc, dy: int, hi: int, m: real)
    requires WellFormed(img)
    ensures RowMin(img, d, dy, hi, m) == m || exists dx :: (-d.r <= dx < hi && Visited(img, d, dx, dy) &&
      RowMin(img, d, dy, hi, m) == CellLuma(img, d, dx, dy))
    decreases hi + d.r
  {
    if hi > -d.r {
      RowMinAttained(img, d, dy, hi - 1, m);
    }
  }

  /** The first pass ends at 255 or at the luma of some visited cell. */
  lemma {:induction false} AreaMinAttained(img: Image, d: Disc, hi: int)
    requires WellFormed(img)
    ensures AreaMin(img, d, hi) == 255.0 || exists dx, dy :: (-d.r <= dy < hi && -d.r <= dx <= d.r &&
      Visited(img, d, dx, dy) && AreaMin(img, d, hi) == CellLuma(img, d, dx, dy))
    decreases hi + d.r
  {
    if hi > -d.r {
      AreaMinAttained(img, d, hi - 1);
      RowMinAttained(img, d, hi - 1, d.r + 1, AreaMin(img, d, hi - 1));
    }
  }

  /** Row scan: the count never falls, and a dark visited cell of the row raises it. */
  lemma {:induction false} RowDarkCounts(img: Image, d: Disc, threshold: real, dy: int, hi: int, s: Sums, dx: int)
    requires WellFormed(img)
    ensures RowDark(img, d, threshold, dy, hi, s).count >= s.count
    ensures -d.r <= dx < hi && Visited(img, d, dx, dy) && CellLuma(img, d, dx, dy) <= threshold ==>
      RowDark(img, d, threshold, dy, hi, s).count > s.count
    decreases hi + d.r
  {
    if hi > -d.r {
      RowDarkCounts(img, d, threshold, dy, hi - 1, s, dx);
    }
  }

  /** A dark visited cell anywhere in the disc makes the second pass count at least one pixel. */
  lemma {:induction false} AreaDarkCounts(img: Image, d: Disc, threshold: real, hi: int, dx: int, dy: int)
    requires WellFormed(img)
    ensures AreaDark(img, d, threshold, hi).count >= 0
    ensures -d.r <= dy < hi && -d.r <= dx <= d.r && Visited(img, d, dx, dy) && CellLuma(img, d, dx, dy) <= threshold ==>
      AreaDark(img, d, threshold, hi).count >= 1
    decreases hi + d.r
  {
    if hi > -d.r {
      AreaDarkCounts(img, d, threshold, hi - 1, dx, dy);
      RowDarkCounts(img, d, threshold, hi - 1, d.r + 1, AreaDark(img, d, threshold, hi - 1), dx);
    }
  }

  /**
   * The sums of `count` pixel positions each inside the box
   * `[xlo, xhi] x [ylo, yhi]`.
   */
  predicate SumsInBox(s: Sums, xlo: int, xhi: int, ylo: int, yhi: int)
  {
    s.count >= 0 && s.count * xlo <= s.x <= s.count * xhi && s.count * ylo <= s.y <= s.count * yhi
  }

  /** Adding one position inside the box keeps the sums inside it. */
  lemma AddToBox(s: Sums, px: int, py: int, xlo: int, xhi: int, ylo: int, yhi: int)
    requires SumsInBox(s, xlo, xhi, ylo, yhi) && xlo <= px <= xhi && ylo <= py <= yhi
    ensures SumsInBox(Sums(s.x + px, s.y + py, s.count + 1), xlo, xhi, ylo, yhi)
  {
    assert (s.count + 1) * xlo == s.count * xlo + xlo && (s.count + 1) * xhi == s.count * xhi + xhi;
    assert (s.count + 1) * ylo == s.count * ylo + ylo && (s.count + 1) * yhi == s.count * yhi + yhi;
  }

  /** The pixels the disc can reach: the disc's bounding box cut to the image. */
  function BoxLo(centre: int, r: int): int { if centre - r < 0 then 0 else centre - r }
  function BoxHi(centre: int, r: int, size: int): int { if centre + r > size - 1 then size - 1 else centre + r }

  lemma {:induction false} RowDarkInBox(img: Image, d: Disc, threshold: real, dy: int, hi: int, s: Sums)
    requires WellFormed(img) && -d.r <= dy <= d.r && hi <= d.r + 1
    requires SumsInBox(s, BoxLo(d.cx, d.r), BoxHi(d.cx, d.r, img.width), BoxLo(d.cy, d.r), BoxHi(d.cy, d.r, img.height))
    ensures SumsInBox(RowDark(img, d, threshold, dy, hi, s),
      BoxLo(d.cx, d.r), BoxHi(d.cx, d.r, img.width), BoxLo(d.cy, d.r), BoxHi(d.cy, d.r, img.height))
    decreases hi + d.r
  {
    if hi > -d.r {
      RowDarkInBox(img, d, threshold, dy, hi - 1, s);
      var t := RowDark(img, d, threshold, dy, hi - 1, s);
      var dx := hi - 1;
      var xlo, xhi := BoxLo(d.cx, d.r), BoxHi(d.cx, d.r, img.width);
      var ylo, yhi := BoxLo(d.cy, d.r), BoxHi(d.cy, d.r, img.height);
      if Visited(img, d, dx, dy) && CellLuma(img, d, dx, dy) <= threshold {
        var u := Sums(t.x + d.cx + dx, t.y + d.cy + dy, t.count + 1);
        assert RowDark(img, d, threshold, dy, hi, s) == u;
        assert xlo <= d.cx + dx <= xhi && ylo <= d.cy + dy <= yhi;
        AddToBox(t, d.cx + dx, d.cy + dy, xlo, xhi, ylo, yhi);
      } else {
        assert RowDark(img, d, threshold, dy, hi, s) == t;
      }
    }
  }

  lemma {:induction false} AreaDarkInBox(img: Image, d: Disc, threshold: real, hi: int)
    requires WellFormed(img) && hi <= d.r + 1
    ensures SumsInBox(AreaDark(img, d, threshold, hi),
      BoxLo(d.cx, d.r), BoxHi(d.cx, d.r, img.width), BoxLo(d.cy, d.r), BoxHi(d.cy, d.r, img.height))
    decreases hi + d.r
  {
    if hi > -d.r {
      AreaDarkInBox(img, d, threshold, hi - 1);
      RowDarkInBox(img, d, threshold, hi - 1, d.r + 1, AreaDark(img, d, threshold, hi - 1));
    }
  }

  /** The canvas the image is drawn on; `canvasToImageCoords` scales by `iw / canvas.width`. */
  datatype Canvas = Canvas(width: real, height: real)

  predicate Positive(cv: Canvas)
  {
    cv.width > 0.0 && cv.height > 0.0
  }

  /** The click in image coordinates, rounded, and the radius `max(4, round(18 * iw / canvas.width))`. */
  function SnapDisc(img: Image, cv: Canvas, c: Pt): (d: Disc)
    requires Positive(cv)
    ensures d.r >= 4
  {
    var scaled := Round(18.0 * (img.width as real / cv.width));
    Disc(Round(c.x * (img.width as real / cv.width)), Round(c.y * (img.height as real / cv.height)),
      if scaled < 4 then 4 else scaled)
  }

  /**
   * What `snapToDark` returns: the click itself without an image, with
   * snapping off and not forced, when the darkest disc pixel is lighter
   * than 230, or when no pixel is within 30 of the darkest; otherwise the
   * centroid of those dark pixels, scaled back to canvas coordinates.
   */
  function Snapped(img: Option<Image>, cv: Canvas, snapOn: bool, force: bool, c: Pt): Pt
    requires img.Some? ==> WellFormed(img.value) && Positive(cv)
  {
    if img.None? || (!snapOn && !force) then c
    else
      var im := img.value;
      var d := SnapDisc(im, cv, c);
      var m := AreaMin(im, d, d.r + 1);
      if m > 230.0 then c
      else
        var s := AreaDark(im, d, m + 30.0, d.r + 1);
        if s.count == 0 then c
        else Centroid(im, cv, s)
  }

  /** The mean position of the counted pixels, scaled back to canvas coordinates. */
  function Centroid(img: Image, cv: Canvas, s: Sums): Pt
    requires s.count != 0 && img.width >= 1 && img.height >= 1
  {
    Pt(ScaledMean(s.x, s.count, cv.width / img.width as real),
       ScaledMean(s.y, s.count, cv.height / img.height as real))
  }

  /** The mean of `n` values summing to `sum`, scaled by `k`. */
  function ScaledMean(sum: int, n: int, k: real): real
    requires n != 0
  {
    sum as real / n as real * k
  }

  /** `snapToDark`: the two passes over the disc around the click. */
  method SnapToDark(img: Option<Image>, cv: Canvas, snapOn: bool, force: bool, c: Pt) returns (p: Pt)
    requires img.Some? ==> WellFormed(img.value) && Positive(cv)
    ensures p == Snapped(img, cv, snapOn, force, c)
  {
    if img.None? || (!snapOn && !force) {
      return c;
    }
    var im := img.value;
    var d := SnapDisc(im, cv, c);
    var minLuma := MinLumaInDisc(im, d);
    if minLuma > 230.0 {
      return c;
    }
    var threshold := minLuma + 30.0;
    var darkX, darkY, darkCount := DarkSums(im, d, threshold);
    if darkCount == 0 {
      return c;
    }
    p := Centroid(im, cv, Sums(darkX, darkY, darkCount));
  }

  /**
   * Once the darkest disc pixel is at most 230, the second pass always
   * finds a dark pixel (the darkest one), so the `darkCount === 0` exit is
   * never taken.
   */
  lemma SnapFindsDark(img: Image, d: Disc)
    requires WellFormed(img)
    ensures AreaMin(img, d, d.r + 1) <= 230.0 ==>
      AreaDark(img, d, AreaMin(img, d, d.r + 1) + 30.0, d.r + 1).count >= 1
  {
    var m := AreaMin(img, d, d.r + 1);
    AreaMinAttained(img, d, d.r + 1);
    if m <= 230.0 {
      var dx, dy :| -d.r <= dy < d.r + 1 && -d.r <= dx <= d.r && Visited(img, d, dx, dy) && m == CellLuma(img, d, dx, dy);
      AreaDarkCounts(img, d, m + 30.0, d.r + 1, dx, dy);
    }
  }

  /** The mean of `n` integers in `lo..hi`, scaled by `k > 0`, lies in `lo * k .. hi * k`. */
  lemma ScaledMeanBetween(sum: int, n: int, lo: int, hi: int, k: real)
    requires n > 0 && n * lo <= sum <= n * hi && k > 0.0
    ensures lo as real * k <= ScaledMean(sum, n, k) <= hi as real * k
  {
    assert (n * lo) as real == n as real * lo as real;
    assert (n * hi) as real == n as real * hi as real;
    var mean := sum as real / n as real;
    assert lo as real <= mean <= hi as real;
  }

  /** `p` lies over the disc's bounding box, cut to the image, scaled back to the canvas. */
  predicate OverDisc(p: Pt, img: Image, cv: Canvas, d: Disc)
    requires img.width >= 1 && img.height >= 1
  {
    OverBox(p, cv.width / img.width as real, cv.height / img.height as real,
      BoxLo(d.cx, d.r), BoxHi(d.cx, d.r, img.width), BoxLo(d.cy, d.r), BoxHi(d.cy, d.r, img.height))
  }

  /** `p` lies in the box `[xlo, xhi] x [ylo, yhi]` scaled by `kx` and `ky`. */
  predicate OverBox(p: Pt, kx: real, ky: real, xlo: int, xhi: int, ylo: int, yhi: int)
  {
    xlo as real * kx <= p.x <= xhi as real * kx && ylo as real * ky <= p.y <= yhi as real * ky
  }

  /** The mean of sums inside a box, scaled, lies over the scaled box. */
  lemma MeanOverBox(s: Sums, kx: real, ky: real, xlo: int, xhi: int, ylo: int, yhi: int)
    requires SumsInBox(s, xlo, xhi, ylo, yhi) && s.count != 0 && kx > 0.0 && ky > 0.0
    ensures OverBox(Pt(ScaledMean(s.x, s.count, kx), ScaledMean(s.y, s.count, ky)), kx, ky, xlo, xhi, ylo, yhi)
  {
    ScaledMeanBetween(s.x, s.count, xlo, xhi, kx);
    ScaledMeanBetween(s.y, s.count, ylo, yhi, ky);
  }

  /** A snapped point that moved lies over the part of the image the disc covers. */
  lemma SnappedInDisc(img: Image, cv: Canvas, force: bool, c: Pt)
    requires WellFormed(img) && Positive(cv)
    ensures Snapped(Some(img), cv, true, force, c) == c ||
      OverDisc(Snapped(Some(img), cv, true, force, c), img, cv, SnapDisc(img, cv, c))
  {
    var d := SnapDisc(img, cv, c);
    var m := AreaMin(img, d, d.r + 1);
    var s := AreaDark(img, d, m + 30.0, d.r + 1);
    AreaDarkInBox(img, d, m + 30.0, d.r + 1);
    if m <= 230.0 && s.count != 0 {
      CentroidOverDisc(img, cv, d, s);
      assert Snapped(Some(img), cv, true, force, c) == Centroid(img, cv, s);
    } else {
      assert Snapped(Some(img), cv, true, force, c) == c;
    }
  }

  /** The centroid of sums inside the disc's box lies over that box. */
  lemma CentroidOverDisc(img: Image, cv: Canvas, d: Disc, s: Sums)
    requires img.width >= 1 && img.height >= 1 && Positive(cv) && s.count != 0
    requires SumsInBox(s, BoxLo(d.cx, d.r), BoxHi(d.cx, d.r, img.width), BoxLo(d.cy, d.r), BoxHi(d.cy, d.r, img.height))
    ensures OverDisc(Centroid(img, cv, s), img, cv, d)
  {
    var kx, ky := cv.width / img.width as real, cv.height / img.height as real;
    RatioPositive(cv.width, img.width);
    RatioPositive(cv.height, img.height);
    MeanOverBox(s, kx, ky, BoxLo(d.cx, d.r), BoxHi(d.cx, d.r, img.width), BoxLo(d.cy, d.r), BoxHi(d.cy, d.r, img.height));
  }

  lemma RatioPositive(a: real, n: int)
    requires a > 0.0 && n >= 1
    ensures a / n as real > 0.0
  {
  }
}
