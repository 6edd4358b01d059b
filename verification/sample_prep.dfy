/** The load-time stages that rewrite the loaded samples: the synthetic
    low-passed layer (`sstore_fake_rc_layer`), cropping of the leading
    silence (`sstore_crop`) and the loudness estimate (`sstore_compute_rms`).

    The low-pass filter and the square root are not modelled: the filter is
    a function parameter and the square root comes from the `Math` record. */
module SamplePrep {
  import opened Global
  import opened SampleStore

  /** `st'` has the same keys, layers, variation counts and cursors as `st`. */
  ghost predicate SameShape(st: Store, st': Store) {
    && |st'.keys| == |st.keys|
    && forall k :: 0 <= k < |st.keys| ==>
         && |st'.keys[k]| == |st.keys[k]|
         && forall l :: 0 <= l < |st.keys[k]| ==>
              && |st'.keys[k][l].vars| == |st.keys[k][l].vars|
              && st'.keys[k][l].rr == st.keys[k][l].rr
  }

  /** A store is determined by its shape and the contents of its slots. */
  lemma StoreExt(a: Store, b: Store)
    requires SameShape(a, b)
    requires forall x :: HasSlot(a, x) ==> Lookup(b, x) == Lookup(a, x)
    ensures a == b
  {
    forall k | 0 <= k < |a.keys|
      ensures a.keys[k] == b.keys[k]
    {
      forall l | 0 <= l < |a.keys[k]|
        ensures a.keys[k][l] == b.keys[k][l]
      {
        forall v | 0 <= v < |a.keys[k][l].vars|
          ensures a.keys[k][l].vars[v] == b.keys[k][l].vars[v]
        {
          assert HasSlot(a, SampleRef(k, l, v));
        }
      }
    }
  }

  /** Applies `f` to every slot inside the extents, as the per-slot loops of
      `sstore_crop` and `sstore_compute_rms` do. */
  function MapSlots(st: Store, f: Sample --> Sample): (r: Store)
    requires Valid(st)
    requires forall s :: SampleOk(s) ==> f.requires(s) && SampleOk(f(s))
    ensures Valid(r) && SameShape(st, r)
    ensures forall x :: HasSlot(st, x) ==> HasSlot(r, x) && Lookup(r, x) == f(Lookup(st, x))
  {
    Store(seq(|st.keys|, k requires 0 <= k < |st.keys| =>
      seq(|st.keys[k]|, l requires 0 <= l < |st.keys[k]| =>
        var ly := st.keys[k][l];
        ly.(vars := seq(|ly.vars|, v requires 0 <= v < |ly.vars| => f(ly.vars[v]))))))
  }

  // ---------------------------------------------------------------------
  // sstore_fake_rc_layer
  // ---------------------------------------------------------------------

  /** rcLowPass, whose arithmetic is not modelled: the filtered value at
      index i of the interleaved data, for a given filter order. */
  type LowPass = (seq<int>, int, int) -> int

  /** _filter_sample: the slot gets a fresh buffer of the same length, now
      owned. rcLowPass runs `order` filter passes over the first len frames
      only, so the zero guard frame at 2 len and 2 len + 1 is copied as it
      is, and with no passes the whole buffer is. */
  function Filtered(s: Sample, order: int, lp: LowPass): (r: Sample)
    ensures r.owner && |r.data| == |s.data|
    ensures r.(owner := s.owner, data := s.data) == s
    ensures SampleOk(s) ==> SampleOk(r)
    ensures forall i :: 0 <= i < |s.data| && i < 2 * s.len && order >= 1 ==> r.data[i] == lp(s.data, order, i)
    ensures forall i :: 0 <= i < |s.data| && (2 * s.len <= i || order < 1) ==> r.data[i] == s.data[i]
  {
    s.(owner := true, data := seq(|s.data|, i requires 0 <= i < |s.data| =>
      if i < 2 * s.len && order >= 1 then lp(s.data, order, i) else s.data[i]))
  }

  /** The keys the synthetic layer is made for: exactly one layer, holding at
      least one variation. */
  predicate Eligible(st: Store, key: int)
    requires 0 <= key < |st.keys|
  {
    NumLayers(st, key) == 1 && NumSamples(st, key, 0) != 0
  }

  /** What the source needs: every variation of an eligible key's layer is
      loaded, since the filter copies 2 len + 2 values out of its buffer. */
  predicate FakeLayerDefined(st: Store)
    requires Valid(st)
  {
    forall k, v :: 0 <= k < Keys && Eligible(st, k) && 0 <= v < NumSamples(st, k, 0) ==>
      IsLoaded(st.keys[k][0].vars[v])
  }

  /** The layers an eligible key ends up with: the original variations move
      up to layer 1 unchanged, and layer 0 gets filtered copies of them. The
      cursor of layer 1 is 0, as every cursor past the extents is. */
  function FakeKey(ly: Layer, order: int, lp: LowPass): (r: seq<Layer>)
    requires LayerOk(ly)
    ensures |r| == 2 && LayerOk(r[0]) && LayerOk(r[1])
  {
    var low := seq(|ly.vars|, v requires 0 <= v < |ly.vars| => Filtered(ly.vars[v], order, lp));
    [ly.(vars := low), Layer(ly.vars, 0)]
  }

  /** sstore_fake_rc_layer: every key with one non-empty layer gets a second
      one. Only the table's structure and the owner flags are modelled; the
      filtered values come from `lp`. */
  function FakeRcLayer(st: Store, order: int, lp: LowPass): (r: Store)
    requires Valid(st) && FakeLayerDefined(st)
    ensures Valid(r)
    ensures forall k :: 0 <= k < Keys && !Eligible(st, k) ==> r.keys[k] == st.keys[k]
    ensures forall k :: 0 <= k < Keys && Eligible(st, k) ==>
      && NumLayers(r, k) == 2
      && r.keys[k][1] == Layer(st.keys[k][0].vars, 0)
      && NumSamples(r, k, 0) == NumSamples(st, k, 0)
      && r.keys[k][0].rr == st.keys[k][0].rr
      && forall v :: 0 <= v < NumSamples(st, k, 0) ==>
           && r.keys[k][0].vars[v].owner && IsLoaded(r.keys[k][0].vars[v])
           && r.keys[k][0].vars[v] == Filtered(st.keys[k][0].vars[v], order, lp)
  {
    Store(seq(Keys, k requires 0 <= k < Keys =>
      if Eligible(st, k) then FakeKey(st.keys[k][0], order, lp) else st.keys[k]))
  }

  /** After the synthetic layer no key is eligible any more, so running the
      stage a second time changes nothing. */
  lemma FakeRcLayerOnce(st: Store, order: int, lp: LowPass)
    requires Valid(st) && FakeLayerDefined(st)
    ensures var r := FakeRcLayer(st, order, lp);
      && (forall k :: 0 <= k < Keys ==> !Eligible(r, k))
      && FakeRcLayer(r, order, lp) == r
  {
    var r := FakeRcLayer(st, order, lp);
    forall k | 0 <= k < Keys
      ensures !Eligible(r, k)
    {
      if Eligible(st, k) {
        assert NumLayers(r, k) == 2;
      } else {
        assert r.keys[k] == st.keys[k];
      }
    }
    assert FakeLayerDefined(r);
    var r2 := FakeRcLayer(r, order, lp);
    assert r2.keys == r.keys;
  }

  /** The two layers of an eligible key have equal variation counts, so with
      layer mixing on every note on the lower layer also plays the upper one. */
  lemma FakeLayersMix(st: Store, order: int, lp: LowPass, k: int)
    requires Valid(st) && FakeLayerDefined(st) && 0 <= k < Keys && Eligible(st, k)
    ensures var r := FakeRcLayer(st, order, lp);
      NumLayers(r, k) == 2 && NumSamples(r, k, 0) == NumSamples(r, k, 1) == NumSamples(st, k, 0)
  {
  }

  // ---------------------------------------------------------------------
  // sstore_crop
  // ---------------------------------------------------------------------

  /** Frame i is loud at threshold th when either channel is at least th or
      at most -th. Frames past the buffer are never loud. */
  predicate Loud(s: Sample, th: int, i: int) {
    && 0 <= i && 2 * i + 1 < |s.data|
    && var left := s.data[2 * i];
       var right := s.data[2 * i + 1];
       left >= th || left <= -th || right >= th || right <= -th
  }

  /** The first loud frame at or after `from`, or len when there is none. */
  function FirstLoud(s: Sample, th: int, from: nat): (i: int)
    requires from <= s.len
    ensures from <= i <= s.len
    ensures forall j :: from <= j < i ==> !Loud(s, th, j)
    ensures i < s.len ==> Loud(s, th, i)
    decreases s.len - from
  {
    if from == s.len || Loud(s, th, from) then from
    else FirstLoud(s, th, from + 1)
  }

  /** sstore_crop's threshold: the double threshold as an int16 level,
      truncated. */
  function CropThreshold(thF: real): (th: int)
    ensures thF >= 0.0 ==> 0 <= th && th as real <= thF / Int16Scale < th as real + 1.0
  {
    Trunc(thF / Int16Scale)
  }

  /** _crop_sample: playback starts at the first loud frame, or at len for
      a sample that is quiet throughout; nothing but idx0 changes. */
  function CropSample(s: Sample, th: int): (r: Sample)
    requires SampleOk(s)
    ensures SampleOk(r) && r.(idx0 := s.idx0) == s
    ensures forall j :: 0 <= j < r.idx0 ==> !Loud(s, th, j)
    ensures r.idx0 < s.len ==> Loud(s, th, r.idx0)
  {
    s.(idx0 := FirstLoud(s, th, 0))
  }

  /** sstore_crop: every slot inside the extents is cropped at the same
      threshold. */
  function Crop(st: Store, thF: real): (r: Store)
    requires Valid(st)
    ensures Valid(r) && SameShape(st, r)
    ensures forall x :: HasSlot(st, x) ==>
      HasSlot(r, x) && Lookup(r, x) == CropSample(Lookup(st, x), CropThreshold(thF))
  {
    MapSlots(st, s requires SampleOk(s) => CropSample(s, CropThreshold(thF)))
  }

  /** The first loud frame depends only on the buffer and the length. */
  lemma {:induction false} FirstLoudOfData(s: Sample, s': Sample, th: int, from: nat)
    requires s'.data == s.data && s'.len == s.len && from <= s.len
    ensures FirstLoud(s', th, from) == FirstLoud(s, th, from)
    decreases s.len - from
  {
    if from < s.len && !Loud(s, th, from) {
      FirstLoudOfData(s, s', th, from + 1);
    }
  }

  /** Cropping twice at the same threshold is cropping once. */
  lemma CropIdempotent(st: Store, thF: real)
    requires Valid(st)
    ensures Crop(Crop(st, thF), thF) == Crop(st, thF)
  {
    var th := CropThreshold(thF);
    var c1 := Crop(st, thF);
    var c2 := Crop(c1, thF);
    forall x | HasSlot(c1, x)
      ensures Lookup(c2, x) == Lookup(c1, x)
    {
      assert HasSlot(st, x);
      FirstLoudOfData(Lookup(st, x), Lookup(c1, x), th, 0);
    }
    StoreExt(c1, c2);
  }

  /** A threshold of zero or less makes every frame loud, so a non-empty
      sample keeps all of its frames. */
  lemma NonPositiveThresholdKeepsAll(s: Sample, th: int)
    requires SampleOk(s) && th <= 0 && s.len > 0
    ensures CropSample(s, th).idx0 == 0
  {
    assert Loud(s, th, 0);
  }

  // ---------------------------------------------------------------------
  // sstore_compute_rms
  // ---------------------------------------------------------------------

  /** The window length in frames, di = (int)(dt * SAMPLE_RATE). */
  function RmsFrames(dt: real): (di: int)
    ensures dt >= 0.0 ==> di >= 0
  {
    Trunc(dt * SampleRate as real)
  }

  /** Sum of the squares of the scaled values d[lo..hi). */
  function SumSquares(d: seq<int>, lo: int, hi: int): (r: real)
    requires 0 <= lo && hi <= |d|
    ensures r >= 0.0
    decreases hi - lo
  {
    if hi <= lo then 0.0
    else
      var x := d[lo] as real * Int16Scale;
      x * x + SumSquares(d, lo + 1, hi)
  }

  /** Root of the mean square over d[lo..hi). The source divides by a count
      of zero for an empty window (giving NaN); the model gives 0 there. */
  function RootMeanSquare(m: Math, d: seq<int>, lo: int, hi: int): real
    requires 0 <= lo && hi <= |d|
  {
    if hi <= lo then 0.0 else m.sqrt(SumSquares(d, lo, hi) / (hi - lo) as real)
  }

  /** The end of the window, as an interleaved index: twice the frame
      min(idx0 + di, len). */
  function WindowEnd(s: Sample, di: int): (e: int)
    requires SampleOk(s)
    ensures e <= 2 * s.len <= |s.data|
  {
    2 * Min(s.idx0 + di, s.len)
  }

  /** _compute_sample_rms as written: the loop starts at the interleaved
      index idx0, i.e. at frame idx0 / 2, although it ends at an interleaved
      index. */
  function RmsAsWritten(m: Math, s: Sample, di: int): real
    requires SampleOk(s)
  {
    RootMeanSquare(m, s.data, s.idx0, WindowEnd(s, di))
  }

  /** The evidently intended window: both channels of the frames
      idx0 .. min(idx0 + di, len) - 1. */
  function RmsWindow(s: Sample, di: int): (w: (int, int))
    requires SampleOk(s)
    ensures 0 <= w.0 && w.1 <= |s.data|
    ensures w.1 > w.0 ==> w.1 - w.0 == 2 * (Min(s.idx0 + di, s.len) - s.idx0)
    ensures w.1 > w.0 <==> di > 0 && s.idx0 < s.len
  {
    (2 * s.idx0, WindowEnd(s, di))
  }

  /** _compute_sample_rms with the intended window. */
  function SampleRms(m: Math, s: Sample, di: int): real
    requires SampleOk(s)
  {
    var w := RmsWindow(s, di);
    RootMeanSquare(m, s.data, w.0, w.1)
  }

  /** The loudness of a sample depends only on the values inside its window:
      changing anything before frame idx0 or after the window leaves it alone. */
  lemma {:induction false} SumSquaresOfWindow(d: seq<int>, d': seq<int>, lo: int, hi: int)
    requires 0 <= lo && hi <= |d| && hi <= |d'|
    requires forall i :: lo <= i < hi ==> d'[i] == d[i]
    ensures SumSquares(d', lo, hi) == SumSquares(d, lo, hi)
    decreases hi - lo
  {
    if lo < hi {
      SumSquaresOfWindow(d, d', lo + 1, hi);
    }
  }

  lemma RmsSeesOnlyWindow(m: Math, s: Sample, s': Sample, di: int)
    requires SampleOk(s) && SampleOk(s') && s'.len == s.len && s'.idx0 == s.idx0
    requires forall i :: 2 * s.idx0 <= i < WindowEnd(s, di) ==> s'.data[i] == s.data[i]
    ensures SampleRms(m, s', di) == SampleRms(m, s, di)
  {
    SumSquaresOfWindow(s.data, s'.data, 2 * s.idx0, WindowEnd(s, di));
  }

  /** As written, the window of a sample cropped to frame 2 with a one-frame
      window covers frames 1 and 2: two samples that differ only in frame 1,
      before playback starts, get different sums, while the intended window
      sees only frame 2 and gives both the same. */
  lemma RmsAsWrittenCountsLeadIn(m: Math)
    ensures var quiet := Sample(true, 4, 2, 1.0, 1.0, [0, 0, 0, 0, 0, 0, 0, 0, 0, 0]);
      var click := quiet.(data := [0, 0, 1, 1, 0, 0, 0, 0, 0, 0]);
      && SampleOk(quiet) && SampleOk(click)
      && click.data[..2] + click.data[4..] == quiet.data[..2] + quiet.data[4..]
      && SumSquares(click.data, click.idx0, WindowEnd(click, 1)) > 0.0
      && SumSquares(quiet.data, quiet.idx0, WindowEnd(quiet, 1)) == 0.0
      && RmsWindow(click, 1) == (4, 6)
      && SampleRms(m, click, 1) == SampleRms(m, quiet, 1)
  {
    var quiet := Sample(true, 4, 2, 1.0, 1.0, [0, 0, 0, 0, 0, 0, 0, 0, 0, 0]);
    var click := quiet.(data := [0, 0, 1, 1, 0, 0, 0, 0, 0, 0]);
    assert SumSquares(click.data, 3, 6) >= 0.0;
    assert SumSquares(quiet.data, 2, 6) == 0.0;
    RmsSeesOnlyWindow(m, quiet, click, 1);
  }

  /** A sample with its RMS computed over the intended window. */
  function WithRms(m: Math, s: Sample, di: int): (r: Sample)
    requires SampleOk(s)
    ensures SampleOk(r) && r.(rms := s.rms) == s
  {
    s.(rms := SampleRms(m, s, di))
  }

  /** sstore_compute_rms with the intended window: every slot inside the
      extents gets the RMS of its first dt seconds after idx0. */
  function ComputeRms(st: Store, m: Math, dt: real): (r: Store)
    requires Valid(st)
    ensures Valid(r) && SameShape(st, r)
    ensures forall x :: HasSlot(st, x) ==>
      HasSlot(r, x) && Lookup(r, x) == WithRms(m, Lookup(st, x), RmsFrames(dt))
  {
    MapSlots(st, s requires SampleOk(s) => WithRms(m, s, RmsFrames(dt)))
  }
}
