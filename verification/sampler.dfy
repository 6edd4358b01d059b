/** The engine (sampler.c, sampler.h): its life cycle, the three queues that
    hand voices from the MIDI thread to the audio callback and back, note-on
    dispatch, the audio block and the peak meter.

    The voices (PlayingSample structs) are allocated once and live in a
    fixed pool; the queues carry handles, which are indices into the pool.
    The MIDI thread, the audio callback and the management calls are
    modelled one call at a time; the mutex and the lock-free hand-over are
    not modelled. */
module Sampler {
  import opened Global
  import opened SampleStore
  import Controls
  import RingBuffer
  import Voice
  import SampleLoad
  import SampleCopy
  import SamplePrep

  /** SAMPLER_STATE_*. Loading and Unloading only last while a load or an
      unload runs. */
  datatype State = Stopped | Loading | Running | Unloading

  /** What sampler_load and sampler_unload report: NULL, errBadState,
      errBadDir, or (for a broken sample directory) the process exits.
      Undefined marks a load whose samples break a demand of a later
      preparation stage, where the C code reads or writes out of bounds. */
  datatype Status = Ok | BadState | BadDir | Exited | Undefined

  type Handle = nat
  type Queue = RingBuffer.Ring<Handle>

  /** The global `_sampler` together with the sample store and the control
      bank it drives. */
  datatype Engine = Engine(
    state: State,
    store: Store,
    ctrls: Controls.Bank,
    pool: seq<Voice.Voice>,  // the PlayingSample structs, by handle
    playing: Queue,          // psPlaying
    incoming: Queue,         // psNew
    recycle: Queue,          // psRecycle
    peak: Voice.Frame)

  // ---------------------------------------------------------------------
  // Handles in queues
  // ---------------------------------------------------------------------

  /** The handles in a queue, oldest first, NULL placeholders dropped. */
  function Handles(xs: seq<Option<Handle>>): (hs: seq<Handle>)
    ensures |hs| <= |xs|
  {
    if xs == [] then []
    else (if xs[0].Some? then [xs[0].value] else []) + Handles(xs[1..])
  }

  /** The queue items that carry the given handles. */
  function Wrap(hs: seq<Handle>): (xs: seq<Option<Handle>>)
    ensures |xs| == |hs|
  {
    seq(|hs|, i requires 0 <= i < |hs| => Some(hs[i]))
  }

  function Bag(xs: seq<Option<Handle>>): multiset<Handle> {
    multiset(Handles(xs))
  }

  predicate NoNull(xs: seq<Option<Handle>>) {
    forall i :: 0 <= i < |xs| ==> xs[i].Some?
  }

  /** The shape note-on leaves in psNew: a NULL placeholder always follows a
      voice, except possibly at the front once a misaligned pair has been
      split by the block's drain. */
  predicate Paired(xs: seq<Option<Handle>>) {
    forall i :: 1 <= i < |xs| && xs[i].None? ==> xs[i - 1].Some?
  }

  lemma {:induction false} HandlesAppend(a: seq<Option<Handle>>, b: seq<Option<Handle>>)
    ensures Handles(a + b) == Handles(a) + Handles(b)
    decreases |a|
  {
    if a == [] {
      assert a + b == b;
    } else {
      assert (a + b)[0] == a[0] && (a + b)[1..] == a[1..] + b;
      HandlesAppend(a[1..], b);
    }
  }

  /** Wrapping and unwrapping are inverse: wrapped handles come back out. */
  lemma {:induction false} HandlesWrap(hs: seq<Handle>)
    ensures Handles(Wrap(hs)) == hs
    decreases |hs|
  {
    if hs != [] {
      assert Wrap(hs)[1..] == Wrap(hs[1..]);
      HandlesWrap(hs[1..]);
    }
  }

  /** A queue without NULLs is exactly its handles, wrapped. */
  lemma {:induction false} NoNullIsWrapped(xs: seq<Option<Handle>>)
    requires NoNull(xs)
    ensures xs == Wrap(Handles(xs))
    decreases |xs|
  {
    if xs != [] {
      NoNullIsWrapped(xs[1..]);
      assert Handles(xs) == [xs[0].value] + Handles(xs[1..]);
    }
  }

  /** psNew never holds more than two items per voice, plus one stray
      placeholder at the front. */
  lemma PairedBound(xs: seq<Option<Handle>>)
    requires Paired(xs)
    ensures |xs| <= 2 * |Handles(xs)| + 1
  {
    if xs != [] && xs[0].None? {
      assert Paired(xs[1..]);
      PairedFromVoice(xs[1..]);
    } else {
      PairedFromVoice(xs);
    }
  }

  lemma {:induction false} PairedFromVoice(xs: seq<Option<Handle>>)
    requires Paired(xs) && (xs == [] || xs[0].Some?)
    ensures |xs| <= 2 * |Handles(xs)|
    decreases |xs|
  {
    if xs != [] {
      var rest := xs[1..];
      assert Handles(xs) == [xs[0].value] + Handles(rest);
      if rest != [] && rest[0].None? {
        var rest2 := rest[1..];
        assert Paired(rest2);
        assert rest2 != [] ==> rest2[0] == xs[2] && xs[2].Some?;
        PairedFromVoice(rest2);
        assert Handles(rest) == Handles(rest2);
      } else {
        assert Paired(rest);
        PairedFromVoice(rest);
      }
    }
  }

  // ---------------------------------------------------------------------
  // The engine invariant
  // ---------------------------------------------------------------------

  /** Every handle in circulation, whichever queue it is in. */
  function Pool(e: Engine): multiset<Handle> {
    Bag(e.playing.items) + Bag(e.incoming.items) + Bag(e.recycle.items)
  }

  /** No voice is in two places at once. */
  ghost predicate Distinct(b: multiset<Handle>) {
    forall h :: b[h] <= 1
  }

  ghost predicate QueuesOk(e: Engine) {
    && RingBuffer.Valid(e.playing) && RingBuffer.Valid(e.incoming) && RingBuffer.Valid(e.recycle)
    && NoNull(e.playing.items) && NoNull(e.recycle.items) && Paired(e.incoming.items)
  }

  /** The queue capacities leave room for every voice in circulation: all
      of them can be playing, all of them recycled, and psNew can hold all
      of them in pairs with one stray placeholder. */
  ghost predicate Fits(e: Engine) {
    var n := |Pool(e)|;
    n <= e.playing.limit && n <= e.recycle.limit && 2 * n + 1 <= e.incoming.limit
  }

  /** The voice behind a handle can be played: its key is a key and its
      sample reference names a slot of the store. */
  ghost predicate Playable(e: Engine, h: Handle) {
    h < |e.pool| && 0 <= e.pool[h].key < Keys && HoldsData(e.store, e.pool[h].sample)
  }

  ghost predicate Inv(e: Engine) {
    && Valid(e.store) && Controls.Valid(e.ctrls)
    && QueuesOk(e) && Distinct(Pool(e)) && Fits(e)
    && (forall h :: h in Pool(e) ==> h < |e.pool|)
    && (forall h :: h in Bag(e.playing.items) + Bag(e.incoming.items) ==> Playable(e, h))
    && (e.state == Stopped || e.state == Running)
    && (e.state == Stopped ==> e.playing.items == [] && e.incoming.items == [])
  }

  // ---------------------------------------------------------------------
  // sampler_init
  // ---------------------------------------------------------------------

  /** The zero-initialised global control bank before the first defaults. */
  const ZeroBank: Controls.Bank := Controls.Bank(
    seq(Controls.CtrlCount, _ => 0), seq(Controls.CtrlCount, _ => 0.0), seq(Controls.CtrlCount, _ => 0.0),
    seq(Controls.CtrlCount, _ => 0.0), seq(Controls.CtrlCount, _ => 0.0),
    seq(Keys, _ => 0.0), seq(Keys, _ => 0.0), 0.0)

  /** A freshly allocated PlayingSample: its contents are not used before
      _load_ps sets them. */
  const Blank: Voice.Voice := Voice.Voice(0, SampleRef(0, 0, 0), 0.0, 0.0, 0.0, 0.0)

  /** Handles 0 .. n - 1, in order. */
  function Numbered(n: nat): (hs: seq<Handle>)
    ensures |hs| == n && forall i :: 0 <= i < n ==> hs[i] == i
  {
    seq(n, i requires 0 <= i < n => i)
  }

  lemma {:induction false} NumberedDistinct(n: nat)
    ensures Distinct(multiset(Numbered(n)))
    ensures forall h :: h in multiset(Numbered(n)) ==> h < n
    decreases n
  {
    if n > 0 {
      NumberedDistinct(n - 1);
      assert Numbered(n) == Numbered(n - 1) + [n - 1];
      assert n - 1 !in multiset(Numbered(n - 1));
    }
  }

  /** sampler_init, without the threads, JACK and the configuration files:
      stopped, defaults loaded, an empty store, empty queues, and the recycle
      queue filled with RING_BUF_SIZE fresh voices, as many of them as it
      takes (puts that fail are ignored). The queue capacities are those the
      underlying buffers really have (`limP`, `limI`, `limR` handles);
      they must leave room for every voice that makes it into circulation. */
  method Init(m: Math, limP: nat, limI: nat, limR: nat) returns (e: Engine)
    requires Min(RingBufSize, limR) <= limP && 2 * Min(RingBufSize, limR) + 1 <= limI
    ensures Inv(e) && e.state == Stopped
    ensures e.store == Empty() && e.ctrls == Controls.LoadDefaults(ZeroBank, m)
    ensures e.peak == Voice.Silence && |e.pool| == RingBufSize
    ensures e.playing == RingBuffer.New(RingBufSize, limP)
    ensures e.incoming == RingBuffer.New(2 * RingBufSize, limI)
    ensures e.recycle.items == Wrap(Numbered(Min(RingBufSize, limR)))
    ensures RingBuffer.Size(e.recycle) == RingBufSize && e.recycle.limit == limR
  {
    var rec := RingBuffer.New<Handle>(RingBufSize, limR);
    var i := 0;
    while i < RingBufSize
      invariant 0 <= i <= RingBufSize
      invariant RingBuffer.Valid(rec) && rec.limit == limR && RingBuffer.Size(rec) == RingBufSize
      invariant rec.items == Wrap(Numbered(Min(i, limR)))
    {
      var put := RingBuffer.Put(rec, Some(i));
      if put.1 {
        assert Wrap(Numbered(i + 1)) == Wrap(Numbered(i)) + [Some(i)];
      }
      rec := put.0;
      i := i + 1;
    }
    e := Engine(Stopped, Empty(), Controls.LoadDefaults(ZeroBank, m), seq(RingBufSize, _ => Blank),
                RingBuffer.New(RingBufSize, limP), RingBuffer.New(2 * RingBufSize, limI), rec, Voice.Silence);
    var n := Min(RingBufSize, limR);
    HandlesWrap(Numbered(n));
    NumberedDistinct(n);
    assert Pool(e) == multiset(Numbered(n));
  }

  /** The capacities JACK's ring buffer gives the three queues: it rounds
      the byte size up to a power of two and keeps one byte free, so a queue
      asked for n 8-byte handles holds n - 1 of them. */
  const JackPlaying: nat := RingBufSize - 1
  const JackIncoming: nat := 2 * RingBufSize - 1
  const JackRecycle: nat := RingBufSize - 1

  /** These capacities fit exactly, and one of the RING_BUF_SIZE voices
      allocated at start-up never makes it into the recycle queue. */
  lemma JackCapacitiesFit()
    ensures Min(RingBufSize, JackRecycle) <= JackPlaying
    ensures 2 * Min(RingBufSize, JackRecycle) + 1 <= JackIncoming
    ensures Min(RingBufSize, JackRecycle) == RingBufSize - 1
  {
  }

  // ---------------------------------------------------------------------
  // sampler_state, sampler_get_peaks, sampler_num_playing
  // ---------------------------------------------------------------------

  /** sampler_get_peaks: read the peak and reset it. */
  function GetPeaks(e: Engine): (r: (Voice.Frame, Engine))
    ensures r.0 == e.peak && r.1.peak == Voice.Silence
    ensures r.1 == e.(peak := r.1.peak)
  {
    (e.peak, e.(peak := Voice.Silence))
  }

  /** sampler_num_playing: the items in psPlaying, every one a voice. */
  function NumPlaying(e: Engine): (n: nat)
    requires Inv(e)
    ensures n == |Handles(e.playing.items)|
  {
    NoNullIsWrapped(e.playing.items);
    RingBuffer.Count(e.playing)
  }

  // ---------------------------------------------------------------------
  // _sampler_midi_thread_note
  // ---------------------------------------------------------------------

  /** What one note-on put into psNew: nothing; a voice and its NULL
      partner; a lone voice (the second recycle get failed, which leaves the
      pairs misaligned); or a voice for each of the two layers. */
  datatype Push = NoPush | Single(h: Handle) | Lone(h: Handle) | Pair(h: Handle, h2: Handle)

  function Pushed(p: Push): seq<Option<Handle>> {
    match p
    case NoPush => []
    case Single(h) => [Some(h), None]
    case Lone(h) => [Some(h)]
    case Pair(h, h2) => [Some(h), Some(h2)]
  }

  /** The handles a push took from psRecycle, in order. */
  function Taken(p: Push): seq<Handle> {
    match p
    case NoPush => []
    case Single(h) => [h]
    case Lone(h) => [h]
    case Pair(h, h2) => [h, h2]
  }

  /** `r` is `e` with the handles of `p` moved from the front of psRecycle
      to the back of psNew and their voices (re)loaded; nothing else. */
  ghost predicate Handoff(e: Engine, r: Engine, p: Push) {
    && r.state == e.state && r.store == e.store && r.ctrls == e.ctrls
    && r.playing == e.playing && r.peak == e.peak
    && r.incoming == e.incoming.(items := e.incoming.items + Pushed(p))
    && r.recycle.size == e.recycle.size && r.recycle.limit == e.recycle.limit
    && e.recycle.items == Wrap(Taken(p)) + r.recycle.items
    && |r.pool| == |e.pool|
    && forall h :: 0 <= h < |e.pool| && h !in Taken(p) ==> r.pool[h] == e.pool[h]
  }

  lemma PairedPush(xs: seq<Option<Handle>>, p: Push)
    requires Paired(xs)
    ensures Paired(xs + Pushed(p))
  {
    var ys := xs + Pushed(p);
    forall i | 1 <= i < |ys| && ys[i].None?
      ensures ys[i - 1].Some?
    {
      if i < |xs| {
        assert ys[i] == xs[i] && ys[i - 1] == xs[i - 1];
      }
    }
  }

  lemma HandlesPushed(p: Push)
    ensures Handles(Pushed(p)) == Taken(p)
  {
    match p
    case NoPush =>
    case Single(h) =>
      assert Handles(Pushed(p)) == [h] + Handles([None]);
    case Lone(h) =>
      assert Handles(Pushed(p)) == [h] + Handles([]);
    case Pair(h, h2) =>
      assert Pushed(p)[1..] == [Some(h2)];
      assert Handles(Pushed(p)) == [h] + Handles([Some(h2)]);
  }

  /** Moving handles from one queue to another keeps the pool of handles. */
  lemma HandoffPool(e: Engine, r: Engine, p: Push)
    requires r.playing == e.playing
    requires r.incoming.items == e.incoming.items + Pushed(p)
    requires e.recycle.items == Wrap(Taken(p)) + r.recycle.items
    ensures Pool(r) == Pool(e)
  {
    HandlesAppend(e.incoming.items, Pushed(p));
    HandlesAppend(Wrap(Taken(p)), r.recycle.items);
    HandlesWrap(Taken(p));
    HandlesPushed(p);
  }

  lemma NoNullSuffix(xs: seq<Option<Handle>>, k: nat)
    requires NoNull(xs) && k <= |xs|
    ensures NoNull(xs[k..])
  {
    forall i | 0 <= i < |xs| - k
      ensures xs[k..][i].Some?
    {
      assert xs[k..][i] == xs[k + i];
    }
  }

  /** A hand-off keeps every voice in circulation and the invariant, given
      that the voices it loaded can be played. */
  lemma HandoffKeepsInv(e: Engine, r: Engine, p: Push)
    requires Inv(e) && e.state == Running && Handoff(e, r, p)
    requires forall i :: 0 <= i < |Taken(p)| ==> Playable(r, Taken(p)[i])
    ensures Inv(r) && Pool(r) == Pool(e)
  {
    HandoffPool(e, r, p);
    HandoffFits(e, p);
    HandoffQueues(e, r, p);
    HandoffScheduled(e, r, p);
    SamePoolKeepsInv(e, r);
  }

  /** The parts of the invariant about the whole pool carry over to a state
      with the same pool, pool size, queue capacities, store and controls. */
  lemma SamePoolKeepsInv(e: Engine, r: Engine)
    requires Inv(e) && Pool(r) == Pool(e) && QueuesOk(r)
    requires |r.pool| == |e.pool| && r.state == e.state && r.store == e.store && Controls.Valid(r.ctrls)
    requires r.playing.limit == e.playing.limit && r.incoming.limit == e.incoming.limit
    requires r.recycle.limit == e.recycle.limit
    requires r.state == Stopped ==> r.playing.items == [] && r.incoming.items == []
    requires forall h :: h in Bag(r.playing.items) + Bag(r.incoming.items) ==> Playable(r, h)
    ensures Inv(r)
  {
  }

  lemma HandoffQueues(e: Engine, r: Engine, p: Push)
    requires QueuesOk(e) && Handoff(e, r, p)
    requires |e.incoming.items| + |Pushed(p)| <= e.incoming.limit
    ensures QueuesOk(r)
  {
    PairedPush(e.incoming.items, p);
    NoNullSuffix(e.recycle.items, |Taken(p)|);
    assert r.recycle.items == e.recycle.items[|Taken(p)|..];
  }

  lemma HandoffScheduled(e: Engine, r: Engine, p: Push)
    requires Inv(e) && Handoff(e, r, p)
    requires forall i :: 0 <= i < |Taken(p)| ==> Playable(r, Taken(p)[i])
    ensures forall h :: h in Bag(r.playing.items) + Bag(r.incoming.items) ==> Playable(r, h)
  {
    HandlesAppend(e.incoming.items, Pushed(p));
    HandlesPushed(p);
    forall h | h in Bag(r.playing.items) + Bag(r.incoming.items)
      ensures Playable(r, h)
    {
      if h !in Taken(p) {
        assert h in Bag(e.playing.items) + Bag(e.incoming.items);
        assert Playable(e, h);
      } else {
        var i :| 0 <= i < |Taken(p)| && Taken(p)[i] == h;
      }
    }
  }

  /** The key a note plays once transposed (the control's value, truncated). */
  function Transposed(c: Controls.Bank, key: int): int
    requires Controls.Valid(c)
  {
    key + Trunc(c.value[Controls.Transpose])
  }

  /** A voice the audio thread can play against the store: its key is a
      key and its sample reference names a slot that holds data. */
  ghost predicate Schedulable(st: Store, v: Voice.Voice) {
    0 <= v.key < Keys && HoldsData(st, v.sample)
  }

  /** One get-load-put of the note thread: take the voice at the front of
      psRecycle, load `v` into it and push its handle to psNew. */
  function Launch(e: Engine, v: Voice.Voice): (r: Engine)
    requires Inv(e) && e.state == Running && |e.recycle.items| >= 1
    requires Schedulable(e.store, v)
    ensures e.recycle.items[0].Some? && e.recycle.items[0].value < |r.pool|
    ensures Handoff(e, r, Lone(e.recycle.items[0].value)) && Inv(r) && Pool(r) == Pool(e)
    ensures r.pool[e.recycle.items[0].value] == v
  {
    LaunchKeepsInv(e, v);
    var h := e.recycle.items[0].value;
    e.(recycle := RingBuffer.Get(e.recycle).0, pool := e.pool[h := v], incoming := RingBuffer.Put(e.incoming, Some(h)).0)
  }

  /** Loading the front voice of psRecycle and pushing it hands it off and
      keeps the invariant. */
  lemma LaunchKeepsInv(e: Engine, v: Voice.Voice)
    requires Inv(e) && e.state == Running && |e.recycle.items| >= 1
    requires Schedulable(e.store, v)
    ensures e.recycle.items[0].Some? && e.recycle.items[0].value < |e.pool|
    ensures var h := e.recycle.items[0].value;
      var r := e.(recycle := RingBuffer.Get(e.recycle).0, pool := e.pool[h := v], incoming := RingBuffer.Put(e.incoming, Some(h)).0);
      Handoff(e, r, Lone(h)) && Inv(r) && Pool(r) == Pool(e)
  {
    PoolFront(e);
    var h := e.recycle.items[0].value;
    HandoffFits(e, Lone(h));
    var r := e.(recycle := RingBuffer.Get(e.recycle).0, pool := e.pool[h := v], incoming := RingBuffer.Put(e.incoming, Some(h)).0);
    LaunchHandoff(e, h, v);
    assert Playable(r, h);
    HandoffKeepsInv(e, r, Lone(h));
  }

  /** Getting the front of psRecycle, loading it and putting it on psNew is
      the hand-off of that voice, when psNew has room for it. */
  lemma LaunchHandoff(e: Engine, h: Handle, v: Voice.Voice)
    requires RingBuffer.Valid(e.recycle) && RingBuffer.Valid(e.incoming)
    requires |e.recycle.items| >= 1 && e.recycle.items[0] == Some(h) && h < |e.pool|
    requires |e.incoming.items| + |Pushed(Lone(h))| <= e.incoming.limit
    ensures var r := e.(recycle := RingBuffer.Get(e.recycle).0, pool := e.pool[h := v], incoming := RingBuffer.Put(e.incoming, Some(h)).0);
      Handoff(e, r, Lone(h))
  {
    assert e.recycle.items == [Some(h)] + e.recycle.items[1..];
  }

  /** The NULL that follows a voice with no partner layer. */
  function Unpaired(e: Engine, e1: Engine, h: Handle): (r: Engine)
    requires Inv(e) && e.state == Running && Handoff(e, e1, Lone(h)) && Playable(e1, h)
    ensures Handoff(e, r, Single(h)) && Inv(r) && Pool(r) == Pool(e)
    ensures r.pool == e1.pool && r.recycle == e1.recycle
  {
    UnpairedKeepsInv(e, e1, h);
    e1.(incoming := RingBuffer.Put(e1.incoming, None).0)
  }

  lemma UnpairedKeepsInv(e: Engine, e1: Engine, h: Handle)
    requires Inv(e) && e.state == Running && Handoff(e, e1, Lone(h)) && Playable(e1, h)
    ensures RingBuffer.Valid(e1.incoming)
    ensures var r := e1.(incoming := RingBuffer.Put(e1.incoming, None).0);
      Handoff(e, r, Single(h)) && Inv(r) && Pool(r) == Pool(e)
  {
    NullAfterLone(e, e1, h);
    var r := e1.(incoming := RingBuffer.Put(e1.incoming, None).0);
    HandoffKeepsInv(e, r, Single(h));
  }

  /** Pushing NULL after a lone voice completes the hand-off of a single
      one: psNew has room for both items. */
  lemma NullAfterLone(e: Engine, e1: Engine, h: Handle)
    requires Inv(e) && Handoff(e, e1, Lone(h))
    ensures RingBuffer.Valid(e1.incoming)
    ensures Handoff(e, e1.(incoming := RingBuffer.Put(e1.incoming, None).0), Single(h))
  {
    assert e.recycle.items == Wrap(Taken(Lone(h))) + e1.recycle.items;
    HandoffFits(e, Single(h));
    PushedSingle(e.incoming.items, h);
  }

  lemma PushedSingle(xs: seq<Option<Handle>>, h: Handle)
    ensures xs + Pushed(Lone(h)) + [None] == xs + Pushed(Single(h))
  {
  }

  /** Two hand-offs in a row are one hand-off of both handles. */
  lemma HandoffTwice(e: Engine, e1: Engine, e2: Engine, h: Handle, h2: Handle)
    requires Handoff(e, e1, Lone(h)) && Handoff(e1, e2, Lone(h2))
    ensures Handoff(e, e2, Pair(h, h2))
  {
    assert e.incoming.items + Pushed(Pair(h, h2)) == e.incoming.items + Pushed(Lone(h)) + Pushed(Lone(h2));
    assert Wrap(Taken(Pair(h, h2))) == Wrap(Taken(Lone(h))) + Wrap(Taken(Lone(h2)));
  }

  /** The voices a push took were loaded from the chosen samples: the first
      with the selection's weight, its partner with the complementary one. */
  ghost predicate Loaded(e: Engine, m: Math, k: int, vel: real, sel: Selection, r: Engine, p: Push) {
    && Controls.Valid(e.ctrls)
    && (p != NoPush ==>
          && sel.first.Some? && HasSlot(e.store, sel.first.value) && p.h < |r.pool|
          && r.pool[p.h] == Voice.Start(e.ctrls, m, k, vel, sel.first.value, Lookup(e.store, sel.first.value), sel.weight))
    && (p.Pair? ==>
          && sel.second.Some? && HasSlot(e.store, sel.second.value) && p.h2 < |r.pool|
          && r.pool[p.h2] == Voice.Start(e.ctrls, m, k, vel, sel.second.value, Lookup(e.store, sel.second.value), 1.0 - sel.weight))
  }

  /** The queue part of a note-on, once the samples are chosen: take a voice
      from psRecycle for the first sample and push it, followed by NULL or
      by a second voice for the second sample with the complementary
      weight. An empty psRecycle ends the note there. */
  function Dispatch(e: Engine, m: Math, k: int, vel: real, sel: Selection): (r: (Engine, Push))
    requires Inv(e) && e.state == Running && 0 <= k < Keys
    requires sel.second.Some? ==> sel.first.Some?
    requires sel.first.Some? ==> HoldsData(e.store, sel.first.value)
    requires sel.second.Some? ==> HoldsData(e.store, sel.second.value)
    ensures Inv(r.0) && Pool(r.0) == Pool(e) && Handoff(e, r.0, r.1)
    ensures r.1 == NoPush <==> sel.first.None? || RingBuffer.Count(e.recycle) == 0
    ensures r.1.Single? <==> sel.first.Some? && sel.second.None? && RingBuffer.Count(e.recycle) >= 1
    ensures r.1.Lone? <==> sel.second.Some? && RingBuffer.Count(e.recycle) == 1
    ensures r.1.Pair? <==> sel.second.Some? && RingBuffer.Count(e.recycle) >= 2
    ensures Loaded(e, m, k, vel, sel, r.0, r.1)
  {
    if sel.first.None? || RingBuffer.Get(e.recycle).1.None? then
      NoHandoff(e);
      (e, NoPush)
    else Launched(e, m, k, vel, sel)
  }

  /** Pushing nothing is the hand-off of no handle. */
  lemma NoHandoff(e: Engine)
    ensures Handoff(e, e, NoPush)
  {
    assert e.incoming.items + Pushed(NoPush) == e.incoming.items;
    assert Wrap(Taken(NoPush)) + e.recycle.items == e.recycle.items;
  }

  /** Dispatch once a first sample is chosen and psRecycle has a voice. */
  function Launched(e: Engine, m: Math, k: int, vel: real, sel: Selection): (r: (Engine, Push))
    requires Inv(e) && e.state == Running && 0 <= k < Keys && |e.recycle.items| >= 1
    requires sel.first.Some? && HoldsData(e.store, sel.first.value)
    requires sel.second.Some? ==> HoldsData(e.store, sel.second.value)
    ensures Inv(r.0) && Pool(r.0) == Pool(e) && Handoff(e, r.0, r.1)
    ensures r.1.Single? <==> sel.second.None?
    ensures r.1.Lone? <==> sel.second.Some? && |e.recycle.items| == 1
    ensures r.1.Pair? <==> sel.second.Some? && |e.recycle.items| >= 2
    ensures r.1 != NoPush && Loaded(e, m, k, vel, sel, r.0, r.1)
  {
    var h := e.recycle.items[0].value;
    var v := Voice.Start(e.ctrls, m, k, vel, sel.first.value, Lookup(e.store, sel.first.value), sel.weight);
    var e1 := Launch(e, v);
    if sel.second.None? then
      (Unpaired(e, e1, h), Single(h))
    else
      var v2 := Voice.Start(e.ctrls, m, k, vel, sel.second.value, Lookup(e.store, sel.second.value), 1.0 - sel.weight);
      Partner(e, e1, h, v2)
  }

  /** The second layer's voice, taken after the first: none is left when
      psRecycle held a single voice, and the first voice then goes without
      its partner. */
  function Partner(e: Engine, e1: Engine, h: Handle, v2: Voice.Voice): (r: (Engine, Push))
    requires Inv(e) && e.state == Running && Handoff(e, e1, Lone(h)) && Inv(e1) && Pool(e1) == Pool(e)
    requires h < |e1.pool| && Schedulable(e.store, v2)
    ensures Inv(r.0) && Pool(r.0) == Pool(e) && Handoff(e, r.0, r.1)
    ensures r.1 == Lone(h) <==> |e.recycle.items| == 1
    ensures r.1.Pair? <==> |e.recycle.items| >= 2
    ensures r.1.Lone? || r.1.Pair?
    ensures r.1.h == h && r.0.pool[h] == e1.pool[h]
    ensures r.1.Pair? ==> r.1.h2 < |r.0.pool| && r.0.pool[r.1.h2] == v2
  {
    HandoffTakes(e, e1, Lone(h));
    if RingBuffer.Get(e1.recycle).1.None? then (e1, Lone(h))
    else
      PairKeepsInv(e, e1, h, v2);
      (Launch(e1, v2), Pair(h, e1.recycle.items[0].value))
  }

  /** Launching the partner voice after the first hands off both, and the
      partner is a voice other than the first. */
  lemma PairKeepsInv(e: Engine, e1: Engine, h: Handle, v2: Voice.Voice)
    requires Inv(e) && e.state == Running && Handoff(e, e1, Lone(h)) && Inv(e1) && Pool(e1) == Pool(e)
    requires h < |e1.pool| && Schedulable(e.store, v2) && |e1.recycle.items| >= 1
    ensures e1.recycle.items[0].Some? && e1.recycle.items[0].value != h
    ensures var h2, e2 := e1.recycle.items[0].value, Launch(e1, v2);
      && Inv(e2) && Pool(e2) == Pool(e) && Handoff(e, e2, Pair(h, h2))
      && e2.pool[h] == e1.pool[h] && h2 < |e2.pool| && e2.pool[h2] == v2
  {
    LoneFront(e, e1, h);
    var h2 := e1.recycle.items[0].value;
    var e2 := Launch(e1, v2);
    PoolSecond(e);
    HandoffTwice(e, e1, e2, h, h2);
  }

  /** A hand-off shortens psRecycle by the voices it took. */
  lemma HandoffTakes(e: Engine, r: Engine, p: Push)
    requires Handoff(e, r, p)
    ensures |e.recycle.items| == |Taken(p)| + |r.recycle.items|
  {
  }

  /** A lone hand-off took the front of psRecycle: what was second is now
      at the front. */
  lemma LoneFront(e: Engine, r: Engine, h: Handle)
    requires Handoff(e, r, Lone(h)) && |r.recycle.items| >= 1
    ensures |e.recycle.items| >= 2 && e.recycle.items[0] == Some(h)
    ensures e.recycle.items[1] == r.recycle.items[0]
  {
    assert e.recycle.items == [Some(h)] + r.recycle.items;
  }

  /** The front of psRecycle is a handle into the pool. */
  lemma PoolFront(e: Engine)
    requires Inv(e) && |e.recycle.items| >= 1
    ensures e.recycle.items[0].Some? && e.recycle.items[0].value < |e.pool|
  {
    NoNullIsWrapped(e.recycle.items);
    assert e.recycle.items[0].value in Bag(e.recycle.items);
    assert e.recycle.items[0].value in Pool(e);
  }

  /** So is the second, and it differs from the first. */
  lemma PoolSecond(e: Engine)
    requires Inv(e) && |e.recycle.items| >= 2
    ensures e.recycle.items[1].Some? && e.recycle.items[1].value < |e.pool|
    ensures e.recycle.items[1].value != e.recycle.items[0].value
  {
    var hs := Handles(e.recycle.items);
    NoNullIsWrapped(e.recycle.items);
    assert e.recycle.items[1].value == hs[1] && e.recycle.items[0].value == hs[0];
    assert hs[0] in multiset(hs) && hs[1] in multiset(hs);
    assert hs[1] in Pool(e);
  }

  /** psNew has room for what a push adds: it carries at most the voices
      that are not in psRecycle, in pairs plus one stray placeholder. */
  lemma HandoffFits(e: Engine, p: Push)
    requires Inv(e) && |Taken(p)| <= |e.recycle.items|
    ensures |e.incoming.items| + |Pushed(p)| <= e.incoming.limit
  {
    PushRoom(e.playing.items, e.incoming.items, e.recycle.items, e.incoming.limit, p);
  }

  /** HandoffFits on the queue contents: psPlaying `pl`, psNew `n`, and
      psRecycle `c`. */
  lemma PushRoom(pl: seq<Option<Handle>>, n: seq<Option<Handle>>, c: seq<Option<Handle>>, limit: int, p: Push)
    requires Paired(n) && NoNull(c) && 2 * |Bag(pl) + Bag(n) + Bag(c)| + 1 <= limit && |Taken(p)| <= |c|
    ensures |n| + |Pushed(p)| <= limit
  {
    PairedBound(n);
    NoNullIsWrapped(c);
    assert |Bag(pl) + Bag(n) + Bag(c)| == |Handles(pl)| + |Handles(n)| + |Handles(c)|;
  }

  /** _sampler_midi_thread_note: transpose the key, record the key's
      velocity, and for a non-zero velocity pick the samples (moving the
      layer's round-robin cursor even if no voice is free) and dispatch them.
      The transposed key is not range checked by the source. */
  function NoteOn(e: Engine, m: Math, key: int, vel: real): (r: (Engine, Push))
    requires Inv(e) && e.state == Running
    requires 0 <= Transposed(e.ctrls, key) < Keys
    requires vel != 0.0 ==> CanSelect(e.store, e.ctrls, m, Transposed(e.ctrls, key), vel)
                            && SelectsLoaded(e.store, e.ctrls, m, Transposed(e.ctrls, key), vel)
    ensures Inv(r.0) && r.0.state == Running && Pool(r.0) == Pool(e)
    ensures r.0.ctrls == Controls.KeyUpdate(e.ctrls, Transposed(e.ctrls, key), vel)
    ensures vel == 0.0 ==> r.1 == NoPush && r.0 == e.(ctrls := r.0.ctrls)
    ensures vel != 0.0 ==> Struck(e.(ctrls := r.0.ctrls), m, Transposed(e.ctrls, key), vel, r.0, r.1)
  {
    var k := Transposed(e.ctrls, key);
    var c := Controls.KeyUpdate(e.ctrls, k, vel);
    CtrlsKeepInv(e, c);
    if vel == 0.0 then (e.(ctrls := c), NoPush)
    else
      SelectionReadsValues(e.store, e.ctrls, c, m, k, vel);
      Strike(e.(ctrls := c), m, k, vel)
  }

  /** What a struck key leads to: the samples GetSamples picks (its cursor
      moved) go out through Dispatch, and a voice is pushed exactly when the
      key has a layer and psRecycle a voice. */
  ghost predicate Struck(e: Engine, m: Math, k: int, vel: real, r: Engine, p: Push)
    requires Valid(e.store) && Controls.Valid(e.ctrls) && 0 <= k < Keys
    requires CanSelect(e.store, e.ctrls, m, k, vel)
  {
    var g := GetSamples(e.store, e.ctrls, m, k, vel);
    var e1 := e.(store := g.0);
    && r.store == g.0
    && Handoff(e1, r, p)
    && (p == NoPush <==> NumLayers(e.store, k) == 0 || RingBuffer.Count(e.recycle) == 0)
    && (p.Pair? <==> g.1.second.Some? && RingBuffer.Count(e.recycle) >= 2)
    && Loaded(e1, m, k, vel, g.1, r, p)
  }

  /** A key struck with a non-zero velocity. */
  function Strike(e: Engine, m: Math, k: int, vel: real): (r: (Engine, Push))
    requires Inv(e) && e.state == Running && 0 <= k < Keys
    requires CanSelect(e.store, e.ctrls, m, k, vel) && SelectsLoaded(e.store, e.ctrls, m, k, vel)
    ensures Inv(r.0) && r.0.state == Running && Pool(r.0) == Pool(e) && r.0.ctrls == e.ctrls
    ensures Struck(e, m, k, vel, r.0, r.1)
  {
    var g := GetSamples(e.store, e.ctrls, m, k, vel);
    var e1 := e.(store := g.0);
    Selected(e.store, e.ctrls, m, k, vel);
    CursorKeepsInv(e, e1, k);
    Dispatch(e1, m, k, vel, g.1)
  }

  /** What Dispatch needs of GetSamples' choice: a first sample exactly when
      the key has a layer, a second only with a first, both in the store. */
  lemma Selected(st: Store, c: Controls.Bank, m: Math, k: int, vel: real)
    requires Valid(st) && Controls.Valid(c) && 0 <= k < Keys && CanSelect(st, c, m, k, vel)
    ensures var g := GetSamples(st, c, m, k, vel);
      && (g.1.first.None? <==> NumLayers(st, k) == 0)
      && (g.1.second.Some? ==> g.1.first.Some?)
      && (g.1.first.Some? ==> HasSlot(g.0, g.1.first.value))
      && (g.1.second.Some? ==> HasSlot(g.0, g.1.second.value))
      && (exists l :: OnlyCursorMoved(st, g.0, k, l))
  {
    var g := GetSamples(st, c, m, k, vel);
    if NumLayers(st, k) == 0 {
      assert OnlyCursorMoved(st, g.0, k, 0);
    } else {
      var l0 := PrimaryLayer(NumLayers(st, k), Mixing(c), Curved(c, m, vel));
      assert OnlyCursorMoved(st, g.0, k, l0);
    }
  }

  /** Editing the controls keeps the invariant and the pool. */
  lemma CtrlsKeepInv(e: Engine, c: Controls.Bank)
    requires Inv(e) && Controls.Valid(c)
    ensures Inv(e.(ctrls := c)) && Pool(e.(ctrls := c)) == Pool(e)
  {
    var e1 := e.(ctrls := c);
    assert Pool(e1) == Pool(e);
    forall h | h in Bag(e1.playing.items) + Bag(e1.incoming.items)
      ensures Playable(e1, h)
    {
      assert Playable(e, h);
    }
  }

  /** Moving a round-robin cursor (and editing the pending controls) keeps
      every scheduled voice playable. */
  lemma CursorKeepsInv(e: Engine, e1: Engine, k: int)
    requires Inv(e) && Valid(e1.store) && Controls.Valid(e1.ctrls)
    requires e1 == e.(ctrls := e1.ctrls, store := e1.store)
    requires exists l :: OnlyCursorMoved(e.store, e1.store, k, l)
    ensures Inv(e1) && Pool(e1) == Pool(e)
  {
    assert Pool(e1) == Pool(e);
    var l :| OnlyCursorMoved(e.store, e1.store, k, l);
    forall h | h in Bag(e1.playing.items) + Bag(e1.incoming.items)
      ensures Playable(e1, h)
    {
      assert Playable(e, h);
      CursorKeepsData(e.store, e1.store, k, l, e.pool[h].sample);
    }
  }

  /** Moving a cursor leaves every slot's data where it was. */
  lemma CursorKeepsData(st: Store, st': Store, k: int, l: int, x: SampleRef)
    requires Valid(st) && OnlyCursorMoved(st, st', k, l) && HoldsData(st, x)
    ensures HoldsData(st', x)
  {
  }
}
