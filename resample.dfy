/**
 * Resampling a hand-drawn path by arc length (`interpolatePoints` in
 * digitizer-tools.js and point-line.js, `interpolatePathPoints` in
 * digitizer.js) and subdividing it segment by segment (`interpolateHighlight`
 * in modules/points.js).
 *
 * The segment length `Math.hypot` / `Math.sqrt` is an abstract
 * non-negative distance `dist`; everything below holds for any such
 * distance.
 */
module Resample {
  import opened Wrappers
  import opened Geometry

  /** The length of the path up to and including point `i`, summed segment by segment. */
  function Prefix(path: seq<Pt>, dist: (Pt, Pt) -> real, i: nat): real
    requires i < |path|
  {
    if i == 0 then 0.0 else Prefix(path, dist, i - 1) + dist(path[i - 1], path[i])
  }

  /** The total length the `reduce` computes. */
  function Total(path: seq<Pt>, dist: (Pt, Pt) -> real): real
    requires |path| >= 1
  {
    Prefix(path, dist, |path| - 1)
  }

  ghost predicate NonNegative(dist: (Pt, Pt) -> real)
  {
    forall a, b :: dist(a, b) >= 0.0
  }

  lemma {:induction false} PrefixNonNegative(path: seq<Pt>, dist: (Pt, Pt) -> real, i: nat)
    requires NonNegative(dist) && i < |path|
    ensures Prefix(path, dist, i) >= 0.0
  {
    if i > 0 {
      PrefixNonNegative(path, dist, i - 1);
    }
  }

  /** The arc length `j * step` at which the `j`-th sample sits, built up one step at a time. */
  function Mark(step: real, j: nat): real
  {
    if j == 0 then 0.0 else Mark(step, j - 1) + step
  }

  lemma {:induction false} MarkProduct(step: real, j: nat)
    ensures Mark(step, j) == step * j as real
  {
    if j > 0 {
      MarkProduct(step, j - 1);
      assert step * j as real == step * (j - 1) as real + step;
    }
  }

  lemma {:induction false} MarkMono(step: real, j: nat, k: nat)
    ensures step > 0.0 && j < k ==> Mark(step, j) < Mark(step, k)
  {
    if j + 1 < k {
      MarkMono(step, j, k - 1);
    }
  }

  /**
   * `p` is the point at arc length `mark` along the path, found on segment
   * `i` (from `path[i - 1]` to `path[i]`): the segment reaches that length,
   * and `p` sits at the matching fraction of it.
   */
  ghost predicate SampleOn(path: seq<Pt>, dist: (Pt, Pt) -> real, mark: real, i: nat, p: Pt)
  {
    1 <= i < |path| && Prefix(path, dist, i - 1) < mark <= Prefix(path, dist, i)
    && p == Lerp(path[i - 1], path[i], (mark - Prefix(path, dist, i - 1)) / dist(path[i - 1], path[i]))
  }

  /** `p` is the point at arc length `mark` along the path. */
  ghost predicate SampleAt(path: seq<Pt>, dist: (Pt, Pt) -> real, mark: real, p: Pt)
  {
    exists i: nat :: SampleOn(path, dist, mark, i, p)
  }

  /**
   * The points collected so far start at the path's first point and the
   * `j`-th is the sample at `Mark(step, j)`, found on segment `segs[j]`.
   */
  ghost predicate Collected(path: seq<Pt>, dist: (Pt, Pt) -> real, step: real, result: seq<Pt>, segs: seq<nat>)
    requires |path| >= 1
  {
    |result| >= 1 && |segs| == |result| && result[0] == path[0] &&
    forall j :: 1 <= j < |result| ==> SampleOn(path, dist, Mark(step, j), segs[j], result[j])
  }

  /** With `step = total / (n - 1)`, the last of the `n` marks is the whole length. */
  lemma LastMark(total: real, n: int)
    requires n >= 2 && total > 0.0
    ensures total / (n - 1) as real > 0.0
    ensures Mark(total / (n - 1) as real, n - 1) == total
  {
    var step := total / (n - 1) as real;
    assert step * (n - 1) as real == total;
    MarkProduct(step, n - 1);
  }

  /** Emitting the sample for the next mark keeps the collection well formed. */
  lemma EmitStep(path: seq<Pt>, dist: (Pt, Pt) -> real, step: real, i: nat, before: real, acc: real,
                 result: seq<Pt>, segs: seq<nat>)
    requires 1 <= i < |path| && Collected(path, dist, step, result, segs)
    requires before == Prefix(path, dist, i - 1) && acc == before + dist(path[i - 1], path[i])
    requires before < Mark(step, |result|) <= acc
    ensures dist(path[i - 1], path[i]) > 0.0
    ensures Collected(path, dist, step, result + [Lerp(path[i - 1], path[i],
      (Mark(step, |result|) - before) / dist(path[i - 1], path[i]))], segs + [i])
  {
    var p := Lerp(path[i - 1], path[i], (Mark(step, |result|) - before) / dist(path[i - 1], path[i]));
    assert SampleOn(path, dist, Mark(step, |result|), i, p);
    var r, s := result + [p], segs + [i];
    forall j | 1 <= j < |r| ensures SampleOn(path, dist, Mark(step, j), s[j], r[j]) {
      if j < |result| {
        assert r[j] == result[j] && s[j] == segs[j];
      } else {
        assert j == |result| && r[j] == p && s[j] == i;
      }
    }
  }

  /**
   * The inner `while` of the resampling loop, on segment `i`: emit a point
   * for every multiple of `step` the accumulated length `acc` has reached,
   * up to `n` points in all.
   */
  method EmitOnSegment(path: seq<Pt>, dist: (Pt, Pt) -> real, step: real, n: int, i: nat,
                       before: real, acc: real, result0: seq<Pt>, ghost segs0: seq<nat>)
    returns (result: seq<Pt>, ghost segs: seq<nat>)
    requires 1 <= i < |path| && step > 0.0
    requires before == Prefix(path, dist, i - 1) && acc == before + dist(path[i - 1], path[i])
    requires Collected(path, dist, step, result0, segs0) && |result0| <= n
    requires |result0| < n ==> before < Mark(step, |result0|)
    ensures Collected(path, dist, step, result, segs) && |result0| <= |result| <= n
    ensures |result| >= n || acc < Mark(step, |result|)
  {
    result, segs := result0, segs0;
    while |result| < n && acc >= Mark(step, |result|)
      invariant Collected(path, dist, step, result, segs) && |result0| <= |result| <= n
      invariant |result| < n ==> before < Mark(step, |result|)
      decreases n - |result|
    {
      var seg := dist(path[i - 1], path[i]);
      EmitStep(path, dist, step, i, before, acc, result, segs);
      var t := (Mark(step, |result|) - before) / seg;
      result, segs := result + [Lerp(path[i - 1], path[i], t)], segs + [i];
      MarkMono(step, |result| - 1, |result|);
    }
  }

  /**
   * The shared resampling loop: walk the segments accumulating their length
   * and emit a point each time the accumulated length passes the next
   * multiple of `step = total / (n - 1)`. Over the reals it collects
   * exactly `n` points, the `j`-th at arc length `j * step`.
   */
  method SampleAlong(path: seq<Pt>, n: int, dist: (Pt, Pt) -> real) returns (result: seq<Pt>)
    requires NonNegative(dist) && |path| >= 2 && n >= 2 && Total(path, dist) > 0.0
    ensures |result| == n && result[0] == path[0]
    ensures forall j :: 1 <= j < |result| ==>
      SampleAt(path, dist, Mark(Total(path, dist) / (n - 1) as real, j), result[j])
  {
    var total := Total(path, dist);
    var step := total / (n - 1) as real;
    LastMark(total, n);
    result := [path[0]];
    ghost var segs: seq<nat> := [0];
    var acc := 0.0;
    var i := 1;
    while i < |path| && |result| < n
      invariant 1 <= i <= |path|
      invariant Collected(path, dist, step, result, segs) && |result| <= n
      invariant acc == Prefix(path, dist, i - 1)
      invariant |result| < n ==> acc < Mark(step, |result|)
      decreases |path| - i
    {
      var seg := dist(path[i - 1], path[i]);
      var before := acc;
      acc := acc + seg;
      result, segs := EmitOnSegment(path, dist, step, n, i, before, acc, result, segs);
      i := i + 1;
    }
    MarkMono(step, |result|, n - 1);
    forall j | 1 <= j < |result| ensures SampleAt(path, dist, Mark(step, j), result[j]) {
      assert SampleOn(path, dist, Mark(step, j), segs[j], result[j]);
    }
  }

  /**
   * digitizer-tools.js `interpolatePoints`: `n` is raised to at least 2; a
   * path of fewer than two points comes back cut to `n`, a path of length
   * zero gives its first point, and otherwise the samples are those of the
   * shared loop (the closing `slice(0, n)` keeps them all).
   */
  method ResampleClamped(points: seq<Pt>, n0: int, dist: (Pt, Pt) -> real) returns (r: seq<Pt>)
    requires NonNegative(dist)
    ensures var n := if n0 < 2 then 2 else n0;
      (|points| < 2 ==> r == points) &&
      (|points| >= 2 && Total(points, dist) == 0.0 ==> r == [points[0]]) &&
      (|points| >= 2 && Total(points, dist) != 0.0 ==>
        |r| == n && r[0] == points[0] &&
        forall j :: 1 <= j < |r| ==> SampleAt(points, dist, Mark(Total(points, dist) / (n - 1) as real, j), r[j]))
  {
    var n := n0;
    if n < 2 {
      n := 2;
    }
    if |points| < 2 {
      return points;
    }
    var total := Total(points, dist);
    if total == 0.0 {
      return [points[0]];
    }
    PrefixNonNegative(points, dist, |points| - 1);
    r := SampleAlong(points, n, dist);
  }

  /**
   * digitizer.js `interpolatePathPoints`: no clamp on `n`. For `n == 1` the
   * step `total / 0` is infinite and the loop emits nothing, and for
   * `n <= 0` the closing `slice(0, n)` empties the result.
   */
  method ResampleGuarded(path: seq<Pt>, n: int, dist: (Pt, Pt) -> real) returns (r: seq<Pt>)
    requires NonNegative(dist)
    ensures |path| < 2 ==> r == path
    ensures |path| >= 2 && Total(path, dist) == 0.0 ==> r == [path[0]]
    ensures |path| >= 2 && Total(path, dist) != 0.0 ==>
      (n <= 0 ==> r == []) && (n == 1 ==> r == [path[0]]) &&
      (n >= 2 ==> (|r| == n && r[0] == path[0] &&
        forall j :: 1 <= j < |r| ==> SampleAt(path, dist, Mark(Total(path, dist) / (n - 1) as real, j), r[j])))
  {
    if |path| < 2 {
      return path;
    }
    var total := Total(path, dist);
    if total == 0.0 {
      return [path[0]];
    }
    if n <= 0 {
      return [];
    } else if n == 1 {
      return [path[0]];
    }
    PrefixNonNegative(path, dist, |path| - 1);
    r := SampleAlong(path, n, dist);
  }

  /**
   * point-line.js `interpolatePoints`, with neither the clamp nor the
   * zero-length guard; `None` is a point whose coordinates are not finite.
   * With total length 0 and `n >= 2` the step is 0, every accumulated length
   * reaches it, and each of the `n - 1` samples gets `t = 0 / 0`.
   */
  method ResampleUnguarded(path: seq<Pt>, n: int, dist: (Pt, Pt) -> real) returns (r: seq<Option<Pt>>)
    requires NonNegative(dist)
    ensures |path| < 2 ==> r == seq(|path|, i requires 0 <= i < |path| => Some(path[i]))
    ensures |path| >= 2 ==> (n <= 0 ==> r == []) && (n == 1 ==> r == [Some(path[0])])
    ensures |path| >= 2 && n >= 2 && Total(path, dist) == 0.0 ==>
      |r| == n && r[0] == Some(path[0]) && forall j :: 1 <= j < n ==> r[j] == None
    ensures |path| >= 2 && n >= 2 && Total(path, dist) != 0.0 ==>
      |r| == n && r[0] == Some(path[0]) &&
      forall j :: 1 <= j < |r| ==> (r[j].Some? &&
        SampleAt(path, dist, Mark(Total(path, dist) / (n - 1) as real, j), r[j].value))
  {
    if |path| < 2 {
      return seq(|path|, i requires 0 <= i < |path| => Some(path[i]));
    }
    if n <= 0 {
      return [];
    } else if n == 1 {
      return [Some(path[0])];
    }
    var total := Total(path, dist);
    if total == 0.0 {
      return [Some(path[0])] + seq(n - 1, _ => None);
    }
    PrefixNonNegative(path, dist, |path| - 1);
    var samples := SampleAlong(path, n, dist);
    r := seq(|samples|, i requires 0 <= i < |samples| => Some(samples[i]));
  }

  /** The `n + 1` division points of the segment from `a` to `b`, at `t = j / n`. */
  function SegmentPoints(a: Pt, b: Pt, n: int): (r: seq<Pt>)
    requires n != 0
    ensures |r| == if n >= 0 then n + 1 else 0
  {
    if n < 0 then [] else seq(n + 1, j requires 0 <= j <= n => Lerp(a, b, j as real / n as real))
  }

  /** The division points of every segment of the path, segment after segment. */
  function Subdivision(path: seq<Pt>, n: int): seq<Pt>
    requires n != 0
  {
    if |path| < 2 then []
    else Subdivision(path[..|path| - 1], n) + SegmentPoints(path[|path| - 2], path[|path| - 1], n)
  }

  /** Each segment contributes `n + 1` points. */
  lemma {:induction false} SubdivisionLength(path: seq<Pt>, n: int)
    requires n != 0
    ensures |path| >= 1 ==> |Subdivision(path, n)| == (|path| - 1) * (if n >= 0 then n + 1 else 0)
  {
    if |path| >= 2 {
      var k := if n >= 0 then n + 1 else 0;
      var init := path[..|path| - 1];
      var seg := SegmentPoints(path[|path| - 2], path[|path| - 1], n);
      assert Subdivision(path, n) == Subdivision(init, n) + seg;
      SubdivisionLength(init, n);
      MulStep(|path| - 2, k);
    }
  }

  lemma MulStep(m: int, k: int)
    ensures (m + 1) * k == m * k + k
  {
  }

  /** Point `j` of segment `i` sits at position `i * (n + 1) + j`, a fraction `j / n` along the segment. */
  lemma {:induction false} SubdivisionAt(path: seq<Pt>, n: int, i: nat, j: nat)
    requires n > 0 && i + 1 < |path| && j <= n
    ensures i * (n + 1) + j < |Subdivision(path, n)|
    ensures Subdivision(path, n)[i * (n + 1) + j] == Lerp(path[i], path[i + 1], j as real / n as real)
  {
    var init := path[..|path| - 1];
    SubdivisionLength(init, n);
    if i + 2 < |path| {
      SubdivisionAt(init, n, i, j);
    } else {
      assert |Subdivision(init, n)| == i * (n + 1);
    }
  }

  /**
   * modules/points.js `interpolateHighlight`: every segment of the path is
   * cut into `n` equal parts and all `n + 1` division points of each segment
   * are emitted, segment after segment (shared corners twice).
   */
  method Subdivide(path: seq<Pt>, n: int) returns (pts: seq<Pt>)
    requires n != 0
    ensures pts == Subdivision(path, n)
  {
    pts := [];
    if |path| < 2 {
      return;
    }
    for i := 0 to |path| - 1
      invariant pts == Subdivision(path[..i + 1], n)
    {
      ghost var done := pts;
      var a, b := path[i], path[i + 1];
      var j := 0;
      while j <= n
        invariant 0 <= j && (n >= 0 ==> j <= n + 1) && (n < 0 ==> j == 0)
        invariant pts == done + SegmentPoints(a, b, n)[..j]
        decreases n + 1 - j
      {
        var t := j as real / n as real;
        pts := pts + [Lerp(a, b, t)];
        j := j + 1;
      }
      assert SegmentPoints(a, b, n)[..j] == SegmentPoints(a, b, n);
      assert path[..i + 2][..i + 1] == path[..i + 1];
    }
    assert path[..|path|] == path;
  }
}
