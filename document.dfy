/**
 * The graph document shared by every variant: lines of digitised points,
 * the sort orders used by the sort button and by the exports, the
 * nearest-point lookup of the adjust and delete tools, the back-filling of
 * missing point orders on load, and the unique names given to highlighted
 * lines.
 */
module Document {
  import opened Wrappers
  import opened Geometry
  import opened Text

  /** A digitised point: canvas position, data value per axis and its click order. */
  datatype Point = Point(x: real, y: real, dataX: Num, dataY: Num, order: Option<int>)

  /** A named series of points with its sort flag and the last order handed out. */
  datatype Line = Line(name: string, points: seq<Point>, sorted: bool, orderCounter: int)

  function At(p: Point): Pt { Pt(p.x, p.y) }

  /** The interaction mode: `'none'`, `'axes'`, `'add'`, `'adjust'`, `'delete'` or `'highlight'`. */
  datatype Mode = NoMode | Axes | Add | Adjust | Delete | Highlight

  /** Zoom, pan, grid and magnifier settings: recorded and restored by the variants that keep them, otherwise only drawn. */
  datatype View = View(zoom: real, panX: real, panY: real, showGrid: bool, magnifierZoom: real)

  const DefaultView: View := View(1.0, 0.0, 0.0, false, 2.0)

  /** A CSV row: the quoted line name, the `X,Y` header, one point's data, or the blank separator. */
  datatype Row = Title(name: string) | Header | Values(x: Num, y: Num) | Blank

  /** The line every variant starts from and resets to. */
  const DefaultLine: Line := Line("Line 1", [], false, 0)

  predicate NameTaken(lines: seq<Line>, name: string)
  {
    exists i :: 0 <= i < |lines| && lines[i].name == name
  }

  /** Whether a line other than the one at `except` already has `name`. */
  predicate NameTakenByOther(lines: seq<Line>, name: string, except: int)
  {
    exists i :: 0 <= i < |lines| && i != except && lines[i].name == name
  }

  /** No two lines share a name. */
  predicate DistinctNames(lines: seq<Line>)
  {
    forall i, j :: 0 <= i < j < |lines| ==> lines[i].name != lines[j].name
  }

  /** Appending a line under a name no line has keeps the names distinct. */
  lemma AppendFreshName(lines: seq<Line>, l: Line)
    requires DistinctNames(lines) && !NameTaken(lines, l.name)
    ensures DistinctNames(lines + [l])
  {
    var r := lines + [l];
    forall i, j | 0 <= i < j < |r| ensures r[i].name != r[j].name {
      if j == |lines| {
        assert r[i] == lines[i];
      }
    }
  }

  /** Renaming one line to a name no other line has keeps the names distinct. */
  lemma RenameFreshName(lines: seq<Line>, k: int, name: string)
    requires DistinctNames(lines) && 0 <= k < |lines| && !NameTakenByOther(lines, name, k)
    ensures DistinctNames(lines[k := lines[k].(name := name)])
  {
    var r := lines[k := lines[k].(name := name)];
    forall i, j | 0 <= i < j < |r| ensures r[i].name != r[j].name {
      if i == k {
        assert lines[j].name == r[j].name;
      } else if j == k {
        assert lines[i].name == r[i].name;
      }
    }
  }

  /** The positions and data values of two points agree; only the order may differ. */
  predicate SameReading(p: Point, q: Point)
  {
    p.x == q.x && p.y == q.y && p.dataX == q.dataX && p.dataY == q.dataY
  }

  // ---------------------------------------------------------------------
  // Sorting with a JavaScript comparator `(a, b) => key(a) - key(b)`

  datatype SortKey = ByDataX | ByOrder

  /** The key the comparator subtracts; a missing order is `undefined`, which subtracts to NaN. */
  function Key(p: Point, k: SortKey): Num
  {
    match k
    case ByDataX => p.dataX
    case ByOrder => if p.order.Some? then Fin(p.order.value as real) else NaN
  }

  /** The comparator returns a positive number: both keys are numbers and the first is larger. */
  predicate After(a: Num, b: Num)
  {
    a.Fin? && b.Fin? && a.v > b.v
  }

  /** Inserts `p` in front of the first element that sorts after it. */
  function Insert(p: Point, s: seq<Point>, k: SortKey): seq<Point>
  {
    if s == [] then [p]
    else if After(Key(s[0], k), Key(p, k)) then [p] + s
    else [s[0]] + Insert(p, s[1..], k)
  }

  /** A stable sort by the comparator: the order `Array.prototype.sort` gives for consistent keys. */
  function SortBy(s: seq<Point>, k: SortKey): seq<Point>
  {
    if s == [] then []
    else Insert(s[|s| - 1], SortBy(s[..|s| - 1], k), k)
  }

  /** Inserting adds exactly the one point. */
  lemma {:induction false} InsertPermutes(p: Point, s: seq<Point>, k: SortKey)
    ensures multiset(Insert(p, s, k)) == multiset(s) + multiset{p}
  {
    if s == [] {
      assert Insert(p, s, k) == [p];
    } else if After(Key(s[0], k), Key(p, k)) {
      assert Insert(p, s, k) == [p] + s;
    } else {
      var rest := Insert(p, s[1..], k);
      assert Insert(p, s, k) == [s[0]] + rest;
      InsertPermutes(p, s[1..], k);
      assert s == [s[0]] + s[1..];
      assert multiset(s) == multiset{s[0]} + multiset(s[1..]);
      assert multiset([s[0]] + rest) == multiset{s[0]} + multiset(rest);
    }
  }

  /** The sort is a permutation: nothing is lost, duplicated or invented. */
  lemma {:induction false} SortByPermutes(s: seq<Point>, k: SortKey)
    ensures multiset(SortBy(s, k)) == multiset(s)
  {
    if s != [] {
      var init, last := s[..|s| - 1], s[|s| - 1];
      assert SortBy(s, k) == Insert(last, SortBy(init, k), k);
      SortByPermutes(init, k);
      InsertPermutes(last, SortBy(init, k), k);
      assert s == init + [last];
      assert multiset(s) == multiset(init) + multiset{last};
    }
  }

  predicate AllKeysFinite(s: seq<Point>, k: SortKey)
  {
    forall i :: 0 <= i < |s| ==> Key(s[i], k).Fin?
  }

  /** Every key is a number and the keys never decrease. */
  predicate SortedBy(s: seq<Point>, k: SortKey)
  {
    AllKeysFinite(s, k) && forall i, j :: 0 <= i < j < |s| ==> Key(s[i], k).v <= Key(s[j], k).v
  }

  /** Every key is a number no smaller than `v`. */
  predicate AllAtLeast(s: seq<Point>, k: SortKey, v: real)
  {
    forall i :: 0 <= i < |s| ==> Key(s[i], k).Fin? && v <= Key(s[i], k).v
  }

  lemma {:induction false} InsertAtLeast(p: Point, s: seq<Point>, k: SortKey, v: real)
    requires AllAtLeast(s, k, v) && Key(p, k).Fin? && v <= Key(p, k).v
    ensures AllAtLeast(Insert(p, s, k), k, v)
  {
    if s != [] && !After(Key(s[0], k), Key(p, k)) {
      InsertAtLeast(p, s[1..], k, v);
    }
  }

  lemma {:induction false} InsertSorted(p: Point, s: seq<Point>, k: SortKey)
    requires SortedBy(s, k) && Key(p, k).Fin?
    ensures SortedBy(Insert(p, s, k), k)
  {
    if s == [] {
    } else if After(Key(s[0], k), Key(p, k)) {
      var r := [p] + s;
      forall i, j | 0 <= i < j < |r| ensures Key(r[i], k).v <= Key(r[j], k).v {
        if i == 0 {
          assert Key(s[0], k).v <= Key(s[j - 1], k).v;
        } else {
          assert r[i] == s[i - 1] && r[j] == s[j - 1];
        }
      }
    } else {
      var rest := Insert(p, s[1..], k);
      assert SortedBy(s[1..], k);
      InsertSorted(p, s[1..], k);
      assert AllAtLeast(s[1..], k, Key(s[0], k).v);
      InsertAtLeast(p, s[1..], k, Key(s[0], k).v);
      var r := [s[0]] + rest;
      forall i, j | 0 <= i < j < |r| ensures Key(r[i], k).v <= Key(r[j], k).v {
        if i == 0 {
          assert r[j] == rest[j - 1];
        } else {
          assert r[i] == rest[i - 1] && r[j] == rest[j - 1];
        }
      }
      assert AllKeysFinite(r, k);
    }
  }

  /** With numeric keys the sort orders the points by key. */
  lemma {:induction false} SortBySorted(s: seq<Point>, k: SortKey)
    requires AllKeysFinite(s, k)
    ensures SortedBy(SortBy(s, k), k)
  {
    if s != [] {
      SortBySorted(s[..|s| - 1], k);
      InsertSorted(s[|s| - 1], SortBy(s[..|s| - 1], k), k);
    }
  }

  /** Sorting a sequence already in key order leaves it as it is. */
  lemma {:induction false} SortByKeepsSorted(s: seq<Point>, k: SortKey)
    requires SortedBy(s, k)
    ensures SortBy(s, k) == s
  {
    if s != [] {
      var init, last := s[..|s| - 1], s[|s| - 1];
      assert SortBy(s, k) == Insert(last, SortBy(init, k), k);
      assert SortedBy(init, k) by {
        forall i | 0 <= i < |init| ensures Key(init[i], k).Fin? {
          assert init[i] == s[i];
        }
        forall i, j | 0 <= i < j < |init| ensures Key(init[i], k).v <= Key(init[j], k).v {
          assert init[i] == s[i] && init[j] == s[j];
        }
      }
      SortByKeepsSorted(init, k);
      forall i | 0 <= i < |init| ensures Key(init[i], k).v <= Key(last, k).v {
        assert init[i] == s[i];
      }
      InsertAtEnd(last, init, k);
      assert init + [last] == s;
    }
  }

  lemma {:induction false} InsertAtEnd(p: Point, s: seq<Point>, k: SortKey)
    requires Key(p, k).Fin? && AllKeysFinite(s, k)
    requires forall i :: 0 <= i < |s| ==> Key(s[i], k).v <= Key(p, k).v
    ensures Insert(p, s, k) == s + [p]
  {
    if s != [] {
      InsertAtEnd(p, s[1..], k);
      assert [s[0]] + (s[1..] + [p]) == s + [p];
    }
  }

  /**
   * The order in which the exports list a line's points: by data X when the
   * line is marked sorted, by click order otherwise; the stored order is
   * left alone.
   */
  function ExportOrder(l: Line): seq<Point>
  {
    SortBy(l.points, if l.sorted then ByDataX else ByOrder)
  }

  /** The exports list every stored point exactly once. */
  lemma ExportOrderPermutes(l: Line)
    ensures multiset(ExportOrder(l)) == multiset(l.points)
  {
    SortByPermutes(l.points, if l.sorted then ByDataX else ByOrder);
  }

  // ---------------------------------------------------------------------
  // Nearest point

  /**
   * What `findNearestPointIndex` / `nearestPointIndex` return: the first index
   * of minimal distance among the points strictly within `limit`, or -1 when
   * there is none. Distances are compared squared.
   */
  predicate IsNearest(points: seq<Point>, at: Pt, limit: real, idx: int)
  {
    && -1 <= idx < |points|
    && (idx == -1 <==> forall i :: 0 <= i < |points| ==> !Closer(At(points[i]), at, limit))
    && (idx >= 0 ==> Closer(At(points[idx]), at, limit))
    && (idx >= 0 ==> forall i :: 0 <= i < |points| && Closer(At(points[i]), at, limit) ==>
         SqDist(At(points[idx]), at) <= SqDist(At(points[i]), at))
    && (idx >= 0 ==> forall i :: 0 <= i < idx && Closer(At(points[i]), at, limit) ==>
         SqDist(At(points[idx]), at) < SqDist(At(points[i]), at))
  }

  /** At most one index is the nearest, so every lookup that meets `IsNearest` agrees. */
  lemma NearestUnique(points: seq<Point>, at: Pt, limit: real, a: int, b: int)
    requires IsNearest(points, at, limit, a) && IsNearest(points, at, limit, b)
    ensures a == b
  {
  }

  /** The scan of the lookups: keep the first point that is strictly closer than the best so far. */
  method NearestIndex(points: seq<Point>, at: Pt, limit: real) returns (idx: int)
    ensures IsNearest(points, at, limit, idx)
  {
    idx := -1;
    var best := 0.0;
    for i := 0 to |points|
      invariant -1 <= idx < i || (idx == -1 && i == 0)
      invariant idx == -1 <==> forall j :: 0 <= j < i ==> !Closer(At(points[j]), at, limit)
      invariant idx >= 0 ==> Closer(At(points[idx]), at, limit) && best == SqDist(At(points[idx]), at)
      invariant idx >= 0 ==> forall j :: 0 <= j < i && Closer(At(points[j]), at, limit) ==> best <= SqDist(At(points[j]), at)
      invariant idx >= 0 ==> forall j :: 0 <= j < idx && Closer(At(points[j]), at, limit) ==> best < SqDist(At(points[j]), at)
    {
      var d := SqDist(At(points[i]), at);
      if Closer(At(points[i]), at, limit) && (idx == -1 || d < best) {
        idx := i;
        best := d;
      }
    }
  }

  // ---------------------------------------------------------------------
  // Back-filling click orders

  function Max(a: int, b: int): int { if a < b then b else a }

  /** `Math.max(0, ...orders)` over the points that have an order. */
  function MaxOrder(ps: seq<Point>): (m: int)
    ensures m >= 0
    ensures forall i :: 0 <= i < |ps| && ps[i].order.Some? ==> ps[i].order.value <= m
  {
    if ps == [] then 0
    else
      var last := ps[|ps| - 1];
      Max(MaxOrder(ps[..|ps| - 1]), if last.order.Some? then last.order.value else 0)
  }

  /**
   * Point `j` of `filled` is point `j` of `points` with an order: its own,
   * or, when it had none, one more than the largest order before it.
   */
  predicate FilledAt(filled: seq<Point>, points: seq<Point>, j: nat)
    requires j < |filled| && j < |points|
  {
    && SameReading(filled[j], points[j]) && filled[j].order.Some?
    && (points[j].order.Some? ==> filled[j].order == points[j].order)
    && (points[j].order.None? ==> filled[j].order == Some(MaxOrder(filled[..j]) + 1))
  }

  /**
   * The loop of `loadSession` and `validateLines`: a point without an order
   * gets one more than the largest order before it, a point with one keeps
   * it; `max` ends as the largest order of all.
   */
  method BackfillOrders(points: seq<Point>) returns (filled: seq<Point>, max: int)
    ensures |filled| == |points|
    ensures forall i :: 0 <= i < |points| ==> FilledAt(filled, points, i)
    ensures max == MaxOrder(filled)
  {
    filled := [];
    max := 0;
    for i := 0 to |points|
      invariant |filled| == i
      invariant forall j :: 0 <= j < i ==> FilledAt(filled, points, j)
      invariant max == MaxOrder(filled)
    {
      var p := points[i];
      var q;
      if p.order.None? {
        max := max + 1;
        q := p.(order := Some(max));
      } else {
        q := p;
        max := Max(max, p.order.value);
      }
      var next := filled + [q];
      forall j | 0 <= j < i ensures FilledAt(next, points, j) {
        assert FilledAt(filled, points, j);
        assert next[j] == filled[j] && next[..j] == filled[..j];
      }
      assert next[..i] == filled;
      assert MaxOrder(next) == Max(MaxOrder(filled), q.order.value);
      filled := next;
    }
  }

  /**
   * Every point carries an order no larger than the line's counter, and no
   * two points share one, so sorting by order is a strict click order.
   */
  predicate WellNumbered(l: Line)
  {
    && (forall i :: 0 <= i < |l.points| ==> l.points[i].order.Some? && l.points[i].order.value <= l.orderCounter)
    && (forall i, j :: 0 <= i < j < |l.points| ==> l.points[i].order != l.points[j].order)
  }

  /** Handing out the next order never breaks the numbering. */
  lemma BumpKeepsNumbered(l: Line)
    requires WellNumbered(l)
    ensures WellNumbered(l.(orderCounter := l.orderCounter + 1))
  {
  }

  /** Appending a point that carries the freshly handed-out order keeps the numbering. */
  lemma AppendKeepsNumbered(l: Line, p: Point)
    requires WellNumbered(l) && l.orderCounter < p.order.GetOr(l.orderCounter)
    ensures WellNumbered(l.(points := l.points + [p], orderCounter := p.order.value))
  {
    var ps := l.points + [p];
    forall i, j | 0 <= i < j < |ps| ensures ps[i].order != ps[j].order {
      if j == |l.points| {
        assert ps[i].order.value <= l.orderCounter;
      } else {
        assert ps[i] == l.points[i] && ps[j] == l.points[j];
      }
    }
  }

  /** Moving a point without touching its order keeps the numbering. */
  lemma ReplaceKeepsNumbered(l: Line, idx: int, p: Point)
    requires WellNumbered(l) && 0 <= idx < |l.points| && p.order == l.points[idx].order
    ensures WellNumbered(l.(points := l.points[idx := p]))
  {
  }

  /** Removing a point keeps the numbering. */
  lemma RemoveKeepsNumbered(l: Line, idx: int)
    requires WellNumbered(l) && 0 <= idx < |l.points|
    ensures WellNumbered(l.(points := l.points[..idx] + l.points[idx + 1..]))
  {
    var ps := l.points[..idx] + l.points[idx + 1..];
    assert forall i :: 0 <= i < |ps| ==> ps[i] == l.points[if i < idx then i else i + 1];
  }

  /**
   * Points saved before orders existed carry none: back-filling numbers them
   * 1, 2, ... in storage order, so a line holding them with the counter at
   * their count is well numbered.
   */
  lemma BackfillLegacy(points: seq<Point>, l: Line)
    requires |l.points| == |points| && l.orderCounter == MaxOrder(l.points)
    requires forall i :: 0 <= i < |points| ==> FilledAt(l.points, points, i)
    requires forall i :: 0 <= i < |points| ==> points[i].order.None?
    ensures forall i :: 0 <= i < |l.points| ==> l.points[i].order == Some(i + 1)
    ensures l.orderCounter == |l.points| && WellNumbered(l)
  {
    var filled := l.points;
    var k := 0;
    while k < |filled|
      invariant 0 <= k <= |filled|
      invariant forall i :: 0 <= i < k ==> filled[i].order == Some(i + 1)
    {
      assert FilledAt(filled, points, k);
      OrdersUpTo(filled[..k]);
      k := k + 1;
    }
    OrdersUpTo(filled);
  }

  // ---------------------------------------------------------------------
  // Names of highlighted lines

  /** The default name `Highlighted Line ${count + 1}`. */
  function HighlightedLineName(count: nat): string
  {
    "Highlighted Line " + NatToString(count + 1)
  }

  /** The name typed by the user, trimmed, or the default when that is empty. */
  function ChosenName(typed: string, count: nat): (r: string)
    ensures Trim(typed) != [] ==> r == Trim(typed)
    ensures r != []
  {
    if Trim(typed) != [] then Trim(typed) else HighlightedLineName(count)
  }

  /** `${base} (${k})`. */
  function Suffixed(base: string, k: nat): (r: string)
    ensures |r| == |base| + 3 + |NatToString(k)|
  {
    base + " (" + NatToString(k) + ")"
  }

  /**
   * `name` is `base` when that is free, and otherwise `base (k)` for the
   * smallest `k >= 1` that is free.
   */
  ghost predicate FirstFreeName(lines: seq<Line>, base: string, name: string)
  {
    !NameTaken(lines, name) &&
    (!NameTaken(lines, base) ==> name == base) &&
    (NameTaken(lines, base) ==>
      exists k :: (k >= 1 && name == Suffixed(base, k) &&
        forall j :: 1 <= j < k ==> NameTaken(lines, Suffixed(base, j))))
  }

  /** There is only one first free name, so every way of searching for it agrees. */
  lemma FirstFreeNameUnique(lines: seq<Line>, base: string, n1: string, n2: string)
    requires FirstFreeName(lines, base, n1) && FirstFreeName(lines, base, n2)
    ensures n1 == n2
  {
    if NameTaken(lines, base) {
      var k1 :| k1 >= 1 && n1 == Suffixed(base, k1) && forall j :: 1 <= j < k1 ==> NameTaken(lines, Suffixed(base, j));
      var k2 :| k2 >= 1 && n2 == Suffixed(base, k2) && forall j :: 1 <= j < k2 ==> NameTaken(lines, Suffixed(base, j));
      assert !(1 <= k1 < k2) && !(1 <= k2 < k1);
    }
  }

  /** The length of the longest line name. */
  function LongestName(lines: seq<Line>): (m: nat)
    ensures forall i :: 0 <= i < |lines| ==> |lines[i].name| <= m
  {
    if lines == [] then 0
    else
      var rest := LongestName(lines[..|lines| - 1]);
      var last := |lines[|lines| - 1].name|;
      if rest < last then last else rest
  }

  /** A taken suffixed name has a suffix below `10^m`, `m` the longest name's length. */
  lemma TakenSuffixBound(lines: seq<Line>, base: string, k: nat)
    requires NameTaken(lines, Suffixed(base, k))
    ensures k < Pow10(LongestName(lines))
  {
    var m := LongestName(lines);
    var i :| 0 <= i < |lines| && lines[i].name == Suffixed(base, k);
    assert |NatToString(k)| <= m;
    NatToStringShort(k, m);
  }

  /**
   * The search of the highlight commit in digitizer-tools.js: start with the
   * base name and, while the current candidate is taken, try the next suffix.
   */
  method FreeNameByRenaming(lines: seq<Line>, base: string) returns (name: string)
    ensures FirstFreeName(lines, base, name)
  {
    var bound := Pow10(LongestName(lines));
    name := base;
    var suffix: nat := 1;
    while NameTaken(lines, name)
      invariant 1 <= suffix <= bound + 1
      invariant name == if suffix == 1 then base else Suffixed(base, suffix - 1)
      invariant suffix > 1 ==> NameTaken(lines, base)
      invariant forall j :: 1 <= j < suffix - 1 ==> NameTaken(lines, Suffixed(base, j))
      decreases bound + 1 - suffix
    {
      if suffix > 1 {
        TakenSuffixBound(lines, base, suffix - 1);
      }
      name := Suffixed(base, suffix);
      suffix := suffix + 1;
    }
    if suffix > 1 {
      assert name == Suffixed(base, suffix - 1);
    }
  }

  /**
   * The search of `handleHighlightEnd` in digitizer.js: keep the base name
   * when it is free, else count the suffix up until `base (suffix)` is free.
   */
  method FreeNameByCounting(lines: seq<Line>, base: string) returns (name: string)
    ensures FirstFreeName(lines, base, name)
  {
    name := base;
    if NameTaken(lines, base) {
      var bound := Pow10(LongestName(lines));
      var suffix: nat := 1;
      while NameTaken(lines, Suffixed(base, suffix))
        invariant 1 <= suffix <= bound
        invariant forall j :: 1 <= j < suffix ==> NameTaken(lines, Suffixed(base, j))
        decreases bound - suffix
      {
        TakenSuffixBound(lines, base, suffix);
        suffix := suffix + 1;
      }
      name := Suffixed(base, suffix);
    }
  }

  // ---------------------------------------------------------------------
  // Numbering converted candidates

  /** The positions of the candidates whose conversion succeeds, in increasing order. */
  function KeptIndices(cands: seq<Pt>, conv: Pt -> Option<Pt>): (idx: seq<nat>)
    ensures forall i :: 0 <= i < |idx| ==> idx[i] < |cands| && conv(cands[idx[i]]).Some?
    ensures forall i, j :: 0 <= i < j < |idx| ==> idx[i] < idx[j]
  {
    if cands == [] then []
    else
      var rest := KeptIndices(cands[..|cands| - 1], conv);
      if conv(cands[|cands| - 1]).Some? then rest + [|cands| - 1] else rest
  }

  /** Every converting candidate's position is listed. */
  lemma {:induction false} KeptIndicesComplete(cands: seq<Pt>, conv: Pt -> Option<Pt>, k: nat)
    requires k < |cands| && conv(cands[k]).Some?
    ensures k in KeptIndices(cands, conv)
  {
    var init := cands[..|cands| - 1];
    if k < |init| {
      assert init[k] == cands[k];
      KeptIndicesComplete(init, conv, k);
    }
  }

  /** The candidates whose conversion succeeds, each with its data position. */
  function Kept(cands: seq<Pt>, conv: Pt -> Option<Pt>): (r: seq<(Pt, Pt)>)
    ensures |r| <= |cands|
    ensures forall i :: 0 <= i < |r| ==> r[i].0 in cands && conv(r[i].0) == Some(r[i].1)
    ensures (forall i :: 0 <= i < |cands| ==> conv(cands[i]).Some?) ==> |r| == |cands|
  {
    if cands == [] then []
    else
      var rest := Kept(cands[..|cands| - 1], conv);
      var c := cands[|cands| - 1];
      assert forall i :: 0 <= i < |rest| ==> rest[i].0 in cands;
      match conv(c)
      case Some(d) => rest + [(c, d)]
      case None => rest
  }

  /**
   * The kept candidates are exactly the converting ones, in candidate order:
   * entry `i` is the candidate at the `i`-th converting position, with its
   * converted data.
   */
  lemma {:induction false} KeptInOrder(cands: seq<Pt>, conv: Pt -> Option<Pt>)
    ensures var r, idx := Kept(cands, conv), KeptIndices(cands, conv);
      |r| == |idx| &&
      forall i :: 0 <= i < |r| ==> r[i] == (cands[idx[i]], conv(cands[idx[i]]).value)
  {
    if cands != [] {
      var init, c := cands[..|cands| - 1], cands[|cands| - 1];
      KeptInOrder(init, conv);
      var rest, ri := Kept(init, conv), KeptIndices(init, conv);
      var r, idx := Kept(cands, conv), KeptIndices(cands, conv);
      KeptStep(cands, conv);
      assert |r| == |idx|;
      forall i | 0 <= i < |r|
        ensures r[i] == (cands[idx[i]], conv(cands[idx[i]]).value)
      {
        if i < |ri| {
          assert r[i] == rest[i] && idx[i] == ri[i];
          assert cands[ri[i]] == init[ri[i]];
        } else {
          assert r[i] == (c, conv(c).value) && idx[i] == |cands| - 1;
        }
      }
    }
  }

  /** One candidate more: `Kept` and `KeptIndices` both grow by it exactly when it converts. */
  lemma KeptStep(cands: seq<Pt>, conv: Pt -> Option<Pt>)
    requires cands != []
    ensures var init, c := cands[..|cands| - 1], cands[|cands| - 1];
      if conv(c).Some? then
        Kept(cands, conv) == Kept(init, conv) + [(c, conv(c).value)] &&
        KeptIndices(cands, conv) == KeptIndices(init, conv) + [|cands| - 1]
      else
        Kept(cands, conv) == Kept(init, conv) && KeptIndices(cands, conv) == KeptIndices(init, conv)
  {
  }

  /**
   * `pts` holds one point per kept candidate, in order: at the candidate,
   * with its converted data and the order `i + 1`.
   */
  predicate NumberedFrom(pts: seq<Point>, cands: seq<Pt>, conv: Pt -> Option<Pt>)
  {
    var kept := Kept(cands, conv);
    |pts| == |kept| &&
    forall i :: 0 <= i < |pts| ==>
      pts[i] == Point(kept[i].0.x, kept[i].0.y, Fin(kept[i].1.x), Fin(kept[i].1.y), Some(i + 1))
  }

  /**
   * The `forEach` of the highlight commits: each candidate whose conversion
   * succeeds becomes a point with order `++orderCounter`, starting from 0.
   */
  method NumberPoints(cands: seq<Pt>, conv: Pt -> Option<Pt>) returns (pts: seq<Point>)
    ensures NumberedFrom(pts, cands, conv)
  {
    pts := [];
    for i := 0 to |cands|
      invariant var kept := Kept(cands[..i], conv);
        |pts| == |kept| &&
        forall j :: 0 <= j < |pts| ==>
          pts[j] == Point(kept[j].0.x, kept[j].0.y, Fin(kept[j].1.x), Fin(kept[j].1.y), Some(j + 1))
    {
      assert cands[..i + 1][..i] == cands[..i];
      var c := cands[i];
      match conv(c) {
        case Some(d) =>
          pts := pts + [Point(c.x, c.y, Fin(d.x), Fin(d.y), Some(|pts| + 1))];
        case None =>
      }
    }
    assert cands[..|cands|] == cands;
  }

  /** Numbered points carry the orders 1, 2, ... in sequence, all data finite. */
  lemma NumberedConsecutive(pts: seq<Point>, cands: seq<Pt>, conv: Pt -> Option<Pt>)
    requires NumberedFrom(pts, cands, conv)
    ensures MaxOrder(pts) == |pts|
    ensures SortedBy(pts, ByOrder)
    ensures WellNumbered(Line("", pts, false, |pts|))
  {
    OrdersUpTo(pts);
  }

  lemma {:induction false} OrdersUpTo(pts: seq<Point>)
    requires forall i :: 0 <= i < |pts| ==> pts[i].order == Some(i + 1)
    ensures MaxOrder(pts) == |pts|
  {
    if pts != [] {
      OrdersUpTo(pts[..|pts| - 1]);
    }
  }

  // ---------------------------------------------------------------------
  // Exports

  /** The rows of one line: its points in the order it holds them, non-finite values as `NaN`. */
  function LineRows(l: Line): (r: seq<Row>)
  {
    [Title(l.name), Header] +
    seq(|l.points|, k requires 0 <= k < |l.points| => Values(l.points[k].dataX, l.points[k].dataY)) +
    [Blank]
  }

  function CsvRows(lines: seq<Line>): seq<Row>
  {
    if lines == [] then [] else CsvRows(lines[..|lines| - 1]) + LineRows(lines[|lines| - 1])
  }

  /** Where the block of line `i` starts: three rows per line before it, plus its points. */
  function BlockStart(lines: seq<Line>, i: nat): nat
    requires i <= |lines|
  {
    if i == 0 then 0 else BlockStart(lines, i - 1) + |lines[i - 1].points| + 3
  }

  /**
   * The CSV lists every line, empty ones included, in document order: line
   * `i` fills the rows from `BlockStart(lines, i)`, with its points in storage order.
   */
  lemma {:induction false} CsvBlocks(lines: seq<Line>, i: nat)
    requires i < |lines|
    ensures |CsvRows(lines)| == BlockStart(lines, |lines|)
    ensures BlockStart(lines, i + 1) <= |CsvRows(lines)| &&
      CsvRows(lines)[BlockStart(lines, i)..BlockStart(lines, i + 1)] == LineRows(lines[i])
  {
    var init, last := lines[..|lines| - 1], lines[|lines| - 1];
    CsvLength(lines);
    CsvLength(init);
    var rows := CsvRows(init);
    assert CsvRows(lines) == rows + LineRows(last);
    if i == |lines| - 1 {
      BlockStartPrefix(lines, init, i);
      assert BlockStart(lines, i) == |rows|;
      assert BlockStart(lines, i + 1) == |rows| + |LineRows(last)|;
      SliceOfSuffix(rows, LineRows(last));
    } else {
      CsvBlocks(init, i);
      BlockStartPrefix(lines, init, i);
      BlockStartPrefix(lines, init, i + 1);
      BlockStartPrefix(lines, init, |init|);
      BlockStartMono(init, i + 1, |init|);
      var a, b := BlockStart(lines, i), BlockStart(lines, i + 1);
      assert b <= |rows|;
      SliceOfPrefix(rows, LineRows(last), a, b);
      assert init[i] == lines[i];
    }
  }

  lemma SliceOfPrefix<T>(u: seq<T>, v: seq<T>, a: nat, b: nat)
    requires a <= b <= |u|
    ensures (u + v)[a..b] == u[a..b]
  {
  }

  lemma SliceOfSuffix<T>(u: seq<T>, v: seq<T>)
    ensures (u + v)[|u|..|u| + |v|] == v
  {
  }

  lemma {:induction false} CsvLength(lines: seq<Line>)
    ensures |CsvRows(lines)| == BlockStart(lines, |lines|)
  {
    if lines != [] {
      var init := lines[..|lines| - 1];
      CsvLength(init);
      BlockStartPrefix(lines, init, |init|);
    }
  }

  lemma {:induction false} BlockStartPrefix(lines: seq<Line>, init: seq<Line>, i: nat)
    requires |init| <= |lines| && init == lines[..|init|] && i <= |init|
    ensures BlockStart(init, i) == BlockStart(lines, i)
  {
    if i > 0 {
      BlockStartPrefix(lines, init, i - 1);
    }
  }

  lemma {:induction false} BlockStartMono(lines: seq<Line>, i: nat, j: nat)
    requires i <= j <= |lines|
    ensures BlockStart(lines, i) <= BlockStart(lines, j)
  {
    if i < j {
      BlockStartMono(lines, i, j - 1);
    }
  }

}
