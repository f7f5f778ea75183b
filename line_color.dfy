/**
 * `detectLineColor` (digitizer-tools.js): sample the image under a drawn
 * path, bucket the samples that are not near-white by `(r >> 5, g >> 5,
 * b >> 5)`, and report the channel means of the most populated bucket.
 */
module LineColor {
  import opened Wrappers
  import opened Geometry
  import opened Text
  import opened Pixels

  /** A histogram bucket: the running sums of the samples whose channels agree after `>> 5`. */
  datatype Bucket = Bucket(key: Rgb, rSum: int, gSum: int, bSum: int, lumaSum: real, count: int)

  /** The detected colour: rounded channel means and the mean luma. */
  datatype Detected = Detected(color: Rgb, luma: real)

  /** `(r >> 5, g >> 5, b >> 5)`: an arithmetic shift by 5 is floor division by 32. */
  function Quantize(c: Rgb): Rgb
  {
    Rgb(c.r / 32, c.g / 32, c.b / 32)
  }

  function Keys(bs: seq<Bucket>): (ks: seq<Rgb>)
    ensures |ks| == |bs| && forall i :: 0 <= i < |bs| ==> ks[i] == bs[i].key
  {
    seq(|bs|, i requires 0 <= i < |bs| => bs[i].key)
  }

  /** The bucket stored under `key` (the object-property lookup `buckets[key]`), or -1. */
  function FindKey(bs: seq<Bucket>, key: Rgb): (i: int)
    ensures -1 <= i < |bs|
    ensures i >= 0 ==> bs[i].key == key
    ensures i < 0 <==> key !in Keys(bs)
  {
    if |bs| == 0 then -1
    else if bs[|bs| - 1].key == key then |bs| - 1
    else (assert Keys(bs) == Keys(bs[..|bs| - 1]) + [bs[|bs| - 1].key];
          FindKey(bs[..|bs| - 1], key))
  }

  /** One loop step: add the sample to its bucket, opening the bucket on first use. */
  function AddSample(bs: seq<Bucket>, c: Rgb): seq<Bucket>
  {
    var i := FindKey(bs, Quantize(c));
    if i < 0 then bs + [Bucket(Quantize(c), c.r, c.g, c.b, Luma(c), 1)]
    else bs[i := Bucket(bs[i].key, bs[i].rSum + c.r, bs[i].gSum + c.g, bs[i].bSum + c.b,
                        bs[i].lumaSum + Luma(c), bs[i].count + 1)]
  }

  /** The buckets after the samples `cs` have been added in order (insertion order is kept). */
  function Histogram(cs: seq<Rgb>): seq<Bucket>
  {
    if |cs| == 0 then [] else AddSample(Histogram(cs[..|cs| - 1]), cs[|cs| - 1])
  }

  /** How many of the samples fall under `key`. */
  function Occurrences(cs: seq<Rgb>, key: Rgb): nat
  {
    if |cs| == 0 then 0
    else Occurrences(cs[..|cs| - 1], key) + (if Quantize(cs[|cs| - 1]) == key then 1 else 0)
  }

  /** `count` values `v` with `v / 32 == k` sum to `sum`, so `sum` lies between `count * 32k` and `count * (32k + 31)`. */
  predicate InBucket(sum: int, count: int, k: int)
  {
    count * (32 * k) <= sum <= count * (32 * k + 31)
  }

  /**
   * The buckets tally the samples: keys are distinct, each bucket counts
   * exactly the samples under its key and its channel sums stay in the
   * key's range, and every key that occurs has a bucket.
   */
  ghost predicate Tallies(bs: seq<Bucket>, cs: seq<Rgb>)
  {
    (forall i, j :: 0 <= i < j < |bs| ==> bs[i].key != bs[j].key) &&
    (forall i :: 0 <= i < |bs| ==> BucketTally(bs[i], cs)) &&
    (forall key :: Occurrences(cs, key) > 0 ==> key in Keys(bs))
  }

  /** One bucket counts exactly the samples under its key, and its sums lie in the key's range. */
  ghost predicate BucketTally(b: Bucket, cs: seq<Rgb>)
  {
    b.count == Occurrences(cs, b.key) && b.count >= 1 &&
    InBucket(b.rSum, b.count, b.key.r) && InBucket(b.gSum, b.count, b.key.g) &&
    InBucket(b.bSum, b.count, b.key.b)
  }

  lemma InBucketAdd(sum: int, count: int, k: int, v: int)
    requires InBucket(sum, count, k) && v / 32 == k
    ensures InBucket(sum + v, count + 1, k)
  {
    assert (count + 1) * (32 * k) == count * (32 * k) + 32 * k;
    assert (count + 1) * (32 * k + 31) == count * (32 * k + 31) + 32 * k + 31;
  }

  lemma InBucketOne(v: int)
    ensures InBucket(v, 1, v / 32)
  {
  }

  lemma OccurrencesAppend(cs: seq<Rgb>, c: Rgb, key: Rgb)
    ensures Occurrences(cs + [c], key) == Occurrences(cs, key) + (if Quantize(c) == key then 1 else 0)
  {
    assert (cs + [c])[..|cs|] == cs;
  }

  /** Adding one sample keeps the buckets a tally of the samples seen. */
  lemma AddSampleTallies(bs: seq<Bucket>, cs: seq<Rgb>, c: Rgb)
    requires Tallies(bs, cs)
    ensures Tallies(AddSample(bs, c), cs + [c])
  {
    var q := Quantize(c);
    var i := FindKey(bs, q);
    var next := AddSample(bs, c);
    AddSampleCovers(bs, cs, c);
    if i < 0 {
      assert Keys(next) == Keys(bs) + [q];
      forall j | 0 <= j < |next| ensures BucketTally(next[j], cs + [c]) {
        if j < |bs| {
          assert next[j] == bs[j] && bs[j].key in Keys(bs);
          OtherBucketTally(bs[j], cs, c);
        } else {
          assert Occurrences(cs, q) == 0;
          NewBucketTally(cs, c);
        }
      }
    } else {
      assert Keys(next) == Keys(bs);
      forall j | 0 <= j < |next| ensures BucketTally(next[j], cs + [c]) {
        if j != i {
          assert next[j] == bs[j] && bs[j].key != q;
          OtherBucketTally(bs[j], cs, c);
        } else {
          OwnBucketTally(bs[i], cs, c);
        }
      }
    }
  }

  /** Every key that occurs among the samples, the new one included, keeps or gets a bucket. */
  lemma AddSampleCovers(bs: seq<Bucket>, cs: seq<Rgb>, c: Rgb)
    requires forall key :: Occurrences(cs, key) > 0 ==> key in Keys(bs)
    ensures forall key :: Occurrences(cs + [c], key) > 0 ==> key in Keys(AddSample(bs, c))
  {
    var q := Quantize(c);
    var next := AddSample(bs, c);
    if FindKey(bs, q) < 0 {
      assert Keys(next) == Keys(bs) + [q];
    } else {
      assert Keys(next) == Keys(bs);
    }
    forall key | Occurrences(cs + [c], key) > 0 ensures key in Keys(next) {
      OccurrencesAppend(cs, c, key);
      if key != q {
        assert key in Keys(bs);
      }
    }
  }

  /** A bucket under another key is unaffected by the new sample. */
  lemma OtherBucketTally(b: Bucket, cs: seq<Rgb>, c: Rgb)
    requires BucketTally(b, cs) && b.key != Quantize(c)
    ensures BucketTally(b, cs + [c])
  {
    OccurrencesAppend(cs, c, b.key);
  }

  /** The bucket a first sample opens tallies it. */
  lemma NewBucketTally(cs: seq<Rgb>, c: Rgb)
    requires Occurrences(cs, Quantize(c)) == 0
    ensures BucketTally(Bucket(Quantize(c), c.r, c.g, c.b, Luma(c), 1), cs + [c])
  {
    OccurrencesAppend(cs, c, Quantize(c));
    InBucketOne(c.r);
    InBucketOne(c.g);
    InBucketOne(c.b);
  }

  /** The sample's own bucket, with the sample added, still tallies. */
  lemma OwnBucketTally(b: Bucket, cs: seq<Rgb>, c: Rgb)
    requires BucketTally(b, cs) && b.key == Quantize(c)
    ensures BucketTally(Bucket(b.key, b.rSum + c.r, b.gSum + c.g, b.bSum + c.b, b.lumaSum + Luma(c), b.count + 1), cs + [c])
  {
    OccurrencesAppend(cs, c, b.key);
    InBucketAdd(b.rSum, b.count, b.key.r, c.r);
    InBucketAdd(b.gSum, b.count, b.key.g, c.g);
    InBucketAdd(b.bSum, b.count, b.key.b, c.b);
  }

  /** The histogram of any samples tallies them. */
  lemma {:induction false} HistogramTallies(cs: seq<Rgb>)
    ensures Tallies(Histogram(cs), cs)
  {
    if |cs| > 0 {
      var init, last := cs[..|cs| - 1], cs[|cs| - 1];
      assert init + [last] == cs;
      assert Histogram(cs) == AddSample(Histogram(init), last);
      HistogramTallies(init);
      AddSampleTallies(Histogram(init), init, last);
    }
  }

  /**
   * The bucket a stable sort by descending count puts first: one of the
   * largest counts, and the earliest inserted of those.
   */
  function Best(bs: seq<Bucket>): (i: nat)
    requires |bs| > 0
    ensures i < |bs|
    ensures forall j :: 0 <= j < |bs| ==> bs[j].count <= bs[i].count
    ensures forall j :: 0 <= j < i ==> bs[j].count < bs[i].count
  {
    if |bs| == 1 then 0
    else
      var k := Best(bs[..|bs| - 1]);
      if bs[|bs| - 1].count > bs[k].count then |bs| - 1 else k
  }

  /** The rounded channel means and the mean luma of a bucket. */
  function Summary(b: Bucket): Detected
    requires b.count >= 1
  {
    Detected(Rgb(Round(b.rSum as real / b.count as real), Round(b.gSum as real / b.count as real),
                 Round(b.bSum as real / b.count as real)), b.lumaSum / b.count as real)
  }

  /** What the closing sort-and-pick returns: nothing without buckets, else the summary of the best one. */
  function Winner(bs: seq<Bucket>): Option<Detected>
    requires forall i :: 0 <= i < |bs| ==> bs[i].count >= 1
  {
    if |bs| == 0 then None else Some(Summary(bs[Best(bs)]))
  }

  /** The rounded mean of values that all lie under key `k` lies under `k` too. */
  lemma MeanInBucket(sum: int, count: int, k: int)
    requires InBucket(sum, count, k) && count >= 1
    ensures Round(sum as real / count as real) / 32 == k
  {
    assert (count * (32 * k)) as real == count as real * (32 * k) as real;
    assert (count * (32 * k + 31)) as real == count as real * (32 * k + 31) as real;
    var mean := sum as real / count as real;
    assert (32 * k) as real <= mean <= (32 * k + 31) as real;
  }

  /**
   * The detected colour is the mode of the samples: nothing exactly when
   * there are no samples; otherwise its key is shared by at least as many
   * samples as any other sample's key, and the rounded means quantise back
   * to that key.
   */
  lemma WinnerIsMode(cs: seq<Rgb>)
    ensures forall i :: 0 <= i < |Histogram(cs)| ==> Histogram(cs)[i].count >= 1
    ensures Winner(Histogram(cs)).None? <==> |cs| == 0
    ensures Winner(Histogram(cs)).Some? ==>
      var key := Quantize(Winner(Histogram(cs)).value.color);
      forall k :: 0 <= k < |cs| ==> Occurrences(cs, Quantize(cs[k])) <= Occurrences(cs, key)
  {
    var bs := Histogram(cs);
    HistogramTallies(cs);
    if |cs| > 0 {
      OccurrencesPositive(cs, |cs| - 1);
      assert Quantize(cs[|cs| - 1]) in Keys(bs);
      var b := bs[Best(bs)];
      MeanInBucket(b.rSum, b.count, b.key.r);
      MeanInBucket(b.gSum, b.count, b.key.g);
      MeanInBucket(b.bSum, b.count, b.key.b);
      assert Quantize(Summary(b).color) == b.key;
      forall k | 0 <= k < |cs| ensures Occurrences(cs, Quantize(cs[k])) <= Occurrences(cs, b.key) {
        OccurrencesPositive(cs, k);
        var j :| 0 <= j < |bs| && Keys(bs)[j] == Quantize(cs[k]);
      }
    }
  }

  /** Every sample's own key occurs. */
  lemma {:induction false} OccurrencesPositive(cs: seq<Rgb>, k: int)
    requires 0 <= k < |cs|
    ensures Occurrences(cs, Quantize(cs[k])) > 0
  {
    if k < |cs| - 1 {
      OccurrencesPositive(cs[..|cs| - 1], k);
    }
  }

  /** The sampling stride `max(1, floor(length / 300))`. */
  function SampleStep(length: nat): (step: int)
    ensures step >= 1
  {
    if length / 300 < 1 then 1 else length / 300
  }

  /** The colour under a canvas point, its image coordinates clamped and rounded into the image. */
  function SampleColor(img: Image, cv: Canvas, p: Pt): Rgb
    requires WellFormed(img) && Positive(cv)
  {
    ColorAt(img, ClampIndex(p.x * (img.width as real / cv.width), img.width - 1),
                 ClampIndex(p.y * (img.height as real / cv.height), img.height - 1))
  }

  /** The colours the loop keeps from path index `from` on, every `step`-th point: those with luma at most 220. */
  function Samples(img: Image, cv: Canvas, path: seq<Pt>, step: int, from: nat): seq<Rgb>
    requires WellFormed(img) && Positive(cv) && step >= 1
    decreases |path| - from
  {
    if from >= |path| then []
    else
      var c := SampleColor(img, cv, path[from]);
      (if Luma(c) > 220.0 then [] else [c]) + Samples(img, cv, path, step, from + step)
  }

  /**
   * `detectLineColor`: `None` without an image or with fewer than two path
   * points; otherwise the winner of the histogram of the kept samples.
   */
  method DetectLineColor(img: Option<Image>, cv: Canvas, path: seq<Pt>) returns (r: Option<Detected>)
    requires img.Some? ==> WellFormed(img.value)
    requires Positive(cv)
    ensures img.None? || |path| < 2 ==> r.None?
    ensures img.Some? && |path| >= 2 ==>
      var cs := Samples(img.value, cv, path, SampleStep(|path|), 0);
      (forall i :: 0 <= i < |Histogram(cs)| ==> Histogram(cs)[i].count >= 1) && r == Winner(Histogram(cs))
  {
    if img.None? || |path| < 2 {
      return None;
    }
    var im := img.value;
    var step := if |path| / 300 < 1 then 1 else |path| / 300;
    var buckets := BucketSamples(im, cv, path, step);
    WinnerIsMode(Samples(im, cv, path, step, 0));
    if |buckets| == 0 {
      return None;
    }
    r := Some(Summary(buckets[Best(buckets)]));
  }

  /** The sampling loop: every `step`-th path point, the near-white ones skipped, added to its bucket. */
  method BucketSamples(img: Image, cv: Canvas, path: seq<Pt>, step: int) returns (buckets: seq<Bucket>)
    requires WellFormed(img) && Positive(cv) && step >= 1
    ensures buckets == Histogram(Samples(img, cv, path, step, 0))
  {
    buckets := [];
    ghost var seen: seq<Rgb> := [];
    ghost var all := Samples(img, cv, path, step, 0);
    var i := 0;
    while i < |path|
      invariant 0 <= i
      invariant seen + Samples(img, cv, path, step, i) == all
      invariant buckets == Histogram(seen)
      decreases |path| - i
    {
      var c := SampleColor(img, cv, path[i]);
      ghost var next := SamplesUnfold(img, cv, path, step, i, seen);
      if Luma(c) <= 220.0 {
        buckets := AddSample(buckets, c);
      }
      seen := next;
      i := i + step;
    }
    assert Samples(img, cv, path, step, i) == [];
    assert seen + [] == seen;
  }

  /**
   * One loop step: `next`, the samples kept once point `i` is looked at,
   * followed by the samples from `i + step` on, are the samples seen so far
   * followed by those from `i` on; and its histogram has the colour at `i`
   * added exactly when that colour is kept.
   */
  lemma SamplesUnfold(img: Image, cv: Canvas, path: seq<Pt>, step: int, i: nat, seen: seq<Rgb>)
    returns (next: seq<Rgb>)
    requires WellFormed(img) && Positive(cv) && step >= 1 && i < |path|
    ensures next + Samples(img, cv, path, step, i + step) == seen + Samples(img, cv, path, step, i)
    ensures var c := SampleColor(img, cv, path[i]);
      Histogram(next) == if Luma(c) <= 220.0 then AddSample(Histogram(seen), c) else Histogram(seen)
  {
    var c := SampleColor(img, cv, path[i]);
    var rest := Samples(img, cv, path, step, i + step);
    assert Samples(img, cv, path, step, i) == (if Luma(c) > 220.0 then [] else [c]) + rest;
    if Luma(c) <= 220.0 {
      next := seen + [c];
      assert next[..|seen|] == seen;
      assert seen + ([c] + rest) == next + rest;
    } else {
      next := seen;
      assert [] + rest == rest;
    }
  }
}
