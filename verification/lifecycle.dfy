/** sampler_load and sampler_unload: the state machine around the sample
    store. A load runs the preparation stages of the store in a fixed order
    and starts the engine; an unload frees the sample memory and returns
    every scheduled voice to psRecycle.

    The mutex, chdir, printf, sleep and jack_activate/jack_deactivate are
    not modelled: whether the two chdir calls succeed and what the samples
    directory lists are parameters (`Disk`), and the settings the config
    files give are a parameter (`Config`). */
module Lifecycle {
  import opened Global
  import opened SampleStore
  import Controls
  import RingBuffer
  import SampleLoad
  import SampleCopy
  import SamplePrep
  import opened Sampler
  import Block

  /** The confconfig settings a load reads: the fake round-robin layer's
      filter order (0 for none), the borrowing distance, the crop threshold
      and the RMS window in seconds. */
  datatype Config = Config(fakeRcOrder: int, rrBorrow: int, cropThresh: real, rmsTime: real)

  /** What the file system answers during a load: whether changing into the
      directory and into its `samples` subdirectory succeeds, and what the
      samples directory lists. */
  datatype Disk = Disk(dirOk: bool, samplesOk: bool, entries: seq<SampleLoad.Entry>)

  /** The store after each stage of a load: sstore_load,
      sstore_fake_rc_layer, sstore_borrow_samples and sstore_fill_samples. */
  datatype Stages = Stages(loaded: Store, faked: Store, borrowed: Store, filled: Store)

  // ---------------------------------------------------------------------
  // _sampler_load
  // ---------------------------------------------------------------------

  /** The store a successful load ends with, stage by stage: the samples
      directory loaded over the old store, the fake layer (when configured),
      borrowing (every layer gains exactly what its neighbours lend),
      filling (every key filled is a pitched copy of an adjacent key, and
      every key is filled once a middle key has layers), then cropping and
      RMS on every slot. */
  ghost predicate Prepared(st0: Store, m: Math, disk: Disk, cfg: Config, lp: SamplePrep.LowPass,
                           s: Stages, st: Store)
    requires Valid(st0)
  {
    && SampleLoad.LoadDirectory(st0, m, disk.entries) == Some(s.loaded)
    && Valid(s.loaded) && Valid(s.faked) && Valid(s.borrowed) && Valid(s.filled)
    && (cfg.fakeRcOrder == 0 ==> s.faked == s.loaded)
    && (cfg.fakeRcOrder != 0 ==>
          SamplePrep.FakeLayerDefined(s.loaded) && s.faked == SamplePrep.FakeRcLayer(s.loaded, cfg.fakeRcOrder, lp))
    && SampleCopy.BorrowFits(s.faked, cfg.rrBorrow)
    && SampleCopy.Extends(s.faked, s.borrowed)
    && (cfg.rrBorrow < 1 ==> s.borrowed == s.faked)
    && (forall k, l {:trigger s.borrowed.keys[k][l]} :: 0 <= k < Keys && 0 <= l < NumLayers(s.faked, k) ==>
          s.borrowed.keys[k][l] == s.faked.keys[k][l].(vars := s.faked.keys[k][l].vars
                                                       + SampleCopy.Gathered(s.faked, k, l, cfg.rrBorrow, m)))
    && SampleCopy.KeepsPopulated(s.borrowed, s.filled)
    && SampleCopy.FilledFrom(s.borrowed, s.filled, m)
    && ((exists k :: 1 <= k <= Keys - 2 && NumLayers(s.borrowed, k) != 0) ==>
          forall j :: 0 <= j < Keys ==> NumLayers(s.filled, j) != 0)
    && (SampleCopy.EdgesOnly(s.borrowed) ==> s.filled == s.borrowed)
    && st == SamplePrep.ComputeRms(SamplePrep.Crop(s.filled, cfg.cropThresh), m, cfg.rmsTime)
  }

  /** The demands the later stages make of the loaded store do not hold:
      the fake layer would filter a variation with no data, or borrowing
      could overflow a layer. */
  ghost predicate Unsafe(loaded: Store, cfg: Config, lp: SamplePrep.LowPass)
    requires Valid(loaded)
  {
    || (cfg.fakeRcOrder != 0 && !SamplePrep.FakeLayerDefined(loaded))
    || var faked := if cfg.fakeRcOrder != 0 then SamplePrep.FakeRcLayer(loaded, cfg.fakeRcOrder, lp) else loaded;
       !SampleCopy.BorrowFits(faked, cfg.rrBorrow)
  }

  /** sampler_load. */
  method Load(e: Engine, m: Math, disk: Disk, cfg: Config, lp: SamplePrep.LowPass) returns (r: Engine, s: Status, st: Stages)
    requires Inv(e)
    ensures s == BadState <==> e.state != Stopped
    ensures s == BadState ==> r == e
    ensures s == BadDir <==> e.state == Stopped && !(disk.dirOk && disk.samplesOk)
    ensures s == BadDir && !disk.dirOk ==> r == e
    ensures s == BadDir && disk.dirOk ==> r == e.(ctrls := Controls.LoadDefaults(e.ctrls, m))
    ensures s == Exited <==> e.state == Stopped && disk.dirOk && disk.samplesOk
                             && SampleLoad.LoadDirectory(e.store, m, disk.entries).None?
    ensures s == Undefined <==> e.state == Stopped && disk.dirOk && disk.samplesOk
                                && SampleLoad.LoadDirectory(e.store, m, disk.entries).Some?
                                && Unsafe(SampleLoad.LoadDirectory(e.store, m, disk.entries).value, cfg, lp)
    ensures s == Exited || s == Undefined ==> r.state == Loading
    ensures s == Ok ==> Inv(r) && r.state == Running
    ensures s == Ok ==> r == e.(state := Running, ctrls := Controls.LoadDefaults(e.ctrls, m), store := r.store)
    ensures s == Ok ==> Prepared(e.store, m, disk, cfg, lp, st, r.store)
  {
    st := Stages(e.store, e.store, e.store, e.store);
    if e.state != Stopped {
      return e, BadState, st;
    }
    if !disk.dirOk {
      return e, BadDir, st;
    }
    var c := Controls.LoadDefaults(e.ctrls, m);
    if !disk.samplesOk {
      return e.(ctrls := c), BadDir, st;
    }
    var loading := e.(state := Loading, ctrls := c);
    var loaded := SampleLoad.LoadDirectory(e.store, m, disk.entries);
    if loaded.None? {
      return loading, Exited, st;
    }
    var st1 := loaded.value;
    if cfg.fakeRcOrder != 0 && !SamplePrep.FakeLayerDefined(st1) {
      return loading, Undefined, st;
    }
    var st2 := if cfg.fakeRcOrder != 0 then SamplePrep.FakeRcLayer(st1, cfg.fakeRcOrder, lp) else st1;
    if !SampleCopy.BorrowFits(st2, cfg.rrBorrow) {
      return loading, Undefined, st;
    }
    var st3 := SampleCopy.Borrow(st2, cfg.rrBorrow, m);
    var st4 := SampleCopy.Fill(st3, m);
    var st5 := SamplePrep.ComputeRms(SamplePrep.Crop(st4, cfg.cropThresh), m, cfg.rmsTime);
    st := Stages(st1, st2, st3, st4);
    r := e.(state := Running, ctrls := c, store := st5);
    StartKeepsInv(e, r);
    s := Ok;
  }

  /** Starting a stopped engine with a new store and control bank keeps
      the invariant: no voice is scheduled. */
  lemma StartKeepsInv(e: Engine, r: Engine)
    requires Inv(e) && e.state == Stopped
    requires r == e.(state := Running, ctrls := r.ctrls, store := r.store)
    requires Valid(r.store) && Controls.Valid(r.ctrls)
    ensures Inv(r) && Pool(r) == Pool(e)
  {
    assert Pool(r) == Pool(e);
    assert Bag(r.playing.items) + Bag(r.incoming.items) == multiset{};
  }

  // ---------------------------------------------------------------------
  // _sampler_unload
  // ---------------------------------------------------------------------

  /** _unload_buffer's loop over the first `k` items of `q`: each voice is
      put on psRecycle, each NULL placeholder dropped. */
  function Unqueue(q: Queue, rec: Queue, k: nat): (r: (Queue, Queue))
    requires RingBuffer.Valid(q) && RingBuffer.Valid(rec) && k <= |q.items|
    requires |rec.items| + |Handles(q.items[..k])| <= rec.limit
    ensures RingBuffer.Valid(r.0) && RingBuffer.Valid(r.1)
    ensures r.0 == q.(items := q.items[k..])
    ensures r.1 == rec.(items := rec.items + Wrap(Handles(q.items[..k])))
    decreases k
  {
    if k == 0 then
      assert q.items[..0] == [];
      (q, rec)
    else
      Block.FrontWrap(q.items);
      UnqueueRoom(q.items, k);
      var g := RingBuffer.Get(q);
      var rec1 := if g.1.Some? then RingBuffer.Put(rec, g.1).0 else rec;
      var r := Unqueue(g.0, rec1, k - 1);
      Block.DrainSplit(rec.items, q.items, k);
      r
  }

  /** The handles of the first `k` items are the front item's and those of
      the `k - 1` after it. */
  lemma UnqueueRoom(xs: seq<Option<Handle>>, k: nat)
    requires 1 <= k <= |xs|
    ensures |Handles(xs[..k])| == |Handles(xs[..1])| + |Handles(xs[1..][..k - 1])|
    ensures |Handles(xs[..1])| == if xs[0].Some? then 1 else 0
  {
    assert xs[..k] == xs[..1] + xs[1..][..k - 1];
    HandlesAppend(xs[..1], xs[1..][..k - 1]);
    Block.HandlesOne(xs);
  }

  /** _unload_buffer on psPlaying, then on psNew, at once. */
  function UnloadQueues(e: Engine): (r: Engine)
    requires Inv(e)
    ensures r == e.(playing := r.playing, incoming := r.incoming, recycle := r.recycle)
    ensures r.playing.items == [] && r.incoming.items == []
    ensures r.playing.limit == e.playing.limit && r.incoming.limit == e.incoming.limit
    ensures r.recycle == e.recycle.(items := e.recycle.items + e.playing.items + Wrap(Handles(e.incoming.items)))
    ensures QueuesOk(r) && Pool(r) == Pool(e)
  {
    UnloadFits(e.playing.items, e.incoming.items, e.recycle.items, e.recycle.limit);
    var a := Unqueue(e.playing, e.recycle, |e.playing.items|);
    var b := Unqueue(e.incoming, a.1, |e.incoming.items|);
    var r := e.(playing := a.0, incoming := b.0, recycle := b.1);
    UnloadBag(e, r);
    r
  }

  /** psRecycle (items `c`) has room for every voice of psPlaying (`p`)
      and psNew (`n`). */
  lemma UnloadFits(p: seq<Option<Handle>>, n: seq<Option<Handle>>, c: seq<Option<Handle>>, limit: int)
    requires NoNull(p) && NoNull(c) && |Bag(p) + Bag(n) + Bag(c)| <= limit
    ensures p[..|p|] == p == Wrap(Handles(p)) && n[..|n|] == n
    ensures |c| + |Handles(p[..|p|])| <= limit
    ensures |c + Wrap(Handles(p[..|p|]))| + |Handles(n[..|n|])| <= limit
  {
    assert p[..|p|] == p;
    assert n[..|n|] == n;
    var hp, hn, hc := Handles(p), Handles(n), Handles(c);
    NoNullIsWrapped(p);
    NoNullIsWrapped(c);
    assert |c| == |hc|;
    assert |Bag(p) + Bag(n) + Bag(c)| == |hp| + |hn| + |hc|;
  }

  /** Every handle moved to psRecycle was in psPlaying or psNew. */
  lemma UnloadBag(e: Engine, r: Engine)
    requires Inv(e)
    requires r.playing.items == [] && r.incoming.items == []
    requires r.playing.limit == e.playing.limit && r.incoming.limit == e.incoming.limit
    requires r.recycle == e.recycle.(items := e.recycle.items + e.playing.items + Wrap(Handles(e.incoming.items)))
    ensures QueuesOk(r) && Pool(r) == Pool(e)
  {
    NoNullIsWrapped(e.playing.items);
    NoNullIsWrapped(e.recycle.items);
    assert |Pool(e)| == |e.recycle.items| + |e.playing.items| + |Handles(e.incoming.items)|;
    Gathered(e.recycle.items, e.playing.items, e.incoming.items);
    assert Handles([]) == [];
  }

  /** Appending psPlaying and the voices of psNew to psRecycle gathers
      their handles. */
  lemma Gathered(c: seq<Option<Handle>>, p: seq<Option<Handle>>, n: seq<Option<Handle>>)
    requires NoNull(c) && NoNull(p)
    ensures Bag(c + p + Wrap(Handles(n))) == Bag(p) + Bag(n) + Bag(c)
    ensures NoNull(c + p + Wrap(Handles(n)))
  {
    var hc, hp, hn := Handles(c), Handles(p), Handles(n);
    NoNullIsWrapped(c);
    NoNullIsWrapped(p);
    WrapAppend3(hc, hp, hn);
    var all := c + p + Wrap(hn);
    assert all == Wrap(hc + hp + hn);
    HandlesWrap(hc + hp + hn);
    assert multiset(hc + hp + hn) == multiset(hp) + multiset(hn) + multiset(hc);
  }

  lemma WrapAppend3(a: seq<Handle>, b: seq<Handle>, c: seq<Handle>)
    ensures Wrap(a + b + c) == Wrap(a) + Wrap(b) + Wrap(c)
  {
    Block.WrapAppend(a + b, c);
    Block.WrapAppend(a, b);
  }

  /** sampler_unload: the status, the engine after, and the slots whose
      sample memory was freed. */
  function Unload(e: Engine): (r: (Engine, Status, set<SampleRef>))
    requires Inv(e)
    ensures r.1 == Ok <==> e.state == Running
    ensures r.1 != Ok ==> r.1 == BadState && r.0 == e && r.2 == {}
    ensures r.1 == Ok ==> Inv(r.0) && Pool(r.0) == Pool(e) && r.0.state == Stopped
    ensures r.1 == Ok ==> r.0 == e.(state := Stopped, store := r.0.store, playing := r.0.playing,
                                    incoming := r.0.incoming, recycle := r.0.recycle)
    ensures r.1 == Ok ==> r.0.playing.items == [] && r.0.incoming.items == []
    ensures r.1 == Ok ==> r.0.recycle.items == e.recycle.items + e.playing.items + Wrap(Handles(e.incoming.items))
    ensures r.1 == Ok ==> forall k :: 0 <= k < Keys ==> NumLayers(r.0.store, k) == 0
    ensures r.1 == Ok ==> forall x :: x in r.2 <==> HasSlot(e.store, x) && IsLoaded(Lookup(e.store, x)) && Lookup(e.store, x).owner
  {
    if e.state != Running then (e, BadState, {})
    else
      var freed := FreeData(e.store);
      var q := UnloadQueues(e);
      var r := q.(state := Stopped, store := freed.0);
      StopKeepsInv(e, r);
      (r, Ok, freed.1)
  }

  /** Stopping with empty psPlaying and psNew keeps the invariant. */
  lemma StopKeepsInv(e: Engine, r: Engine)
    requires Inv(e) && QueuesOk(r) && Pool(r) == Pool(e) && Valid(r.store)
    requires r == e.(state := Stopped, store := r.store, playing := r.playing, incoming := r.incoming, recycle := r.recycle)
    requires r.playing.items == [] && r.incoming.items == []
    requires r.playing.limit == e.playing.limit && r.incoming.limit == e.incoming.limit
    requires r.recycle.limit == e.recycle.limit
    ensures Inv(r)
  {
    assert Bag(r.playing.items) + Bag(r.incoming.items) == multiset{};
  }

  // ---------------------------------------------------------------------
  // What the state machine promises
  // ---------------------------------------------------------------------

  /** After an unload every voice is on psRecycle, ready for the next
      load's notes. */
  lemma UnloadRecyclesAll(e: Engine)
    requires Inv(e) && e.state == Running
    ensures var r := Unload(e).0;
      && Bag(r.recycle.items) == Pool(e) && |r.recycle.items| == |Pool(e)|
  {
    var r := Unload(e).0;
    NoNullIsWrapped(r.recycle.items);
    assert Bag(r.playing.items) + Bag(r.incoming.items) == multiset{};
  }

  /** A second unload is refused and changes nothing. */
  lemma UnloadTwice(e: Engine)
    requires Inv(e)
    ensures var u := Unload(e);
      u.1 == Ok ==> Unload(u.0) == (u.0, BadState, {})
  {
  }
}
