/** The queue logic of sampler_jack_process: commit the controls, move
    whole pairs from psNew to psPlaying, play every voice in psPlaying for
    one block, retire the finished ones to psRecycle, and update the peak
    meter from the block's output.

    The JACK port buffers are not modelled: the block's output is returned
    as a sequence of stereo frames, and the float conversion is exact. */
module Block {
  import opened Global
  import opened SampleStore
  import Controls
  import RingBuffer
  import Voice
  import opened Sampler

  // ---------------------------------------------------------------------
  // Draining psNew
  // ---------------------------------------------------------------------

  /** The handle a one-item prefix carries, if any. */
  lemma HandlesOne(xs: seq<Option<Handle>>)
    requires |xs| >= 1
    ensures Handles(xs) == Handles(xs[..1]) + Handles(xs[1..])
    ensures Handles(xs[..1]) == if xs[0].Some? then [xs[0].value] else []
  {
    assert xs == xs[..1] + xs[1..];
    HandlesAppend(xs[..1], xs[1..]);
    assert xs[..1][1..] == [];
  }

  /** psPlaying has room for a voice that is still in psNew. */
  lemma PlayingRoom(e: Engine)
    requires Inv(e) && |Handles(e.incoming.items)| >= 1
    ensures |e.playing.items| < e.playing.limit
  {
    NoNullIsWrapped(e.playing.items);
    HandlesWrap(Handles(e.playing.items));
    assert |Pool(e)| >= |Handles(e.playing.items)| + |Handles(e.incoming.items)|;
  }

  /** One turn of the drain loop: take the front of psNew and, unless it is
      a NULL placeholder, put it at the back of psPlaying. */
  function DrainStep(e: Engine): (r: Engine)
    requires Inv(e) && e.state == Running && |e.incoming.items| >= 1
    ensures Inv(r) && Pool(r) == Pool(e)
    ensures r == e.(incoming := r.incoming, playing := r.playing)
    ensures r.incoming == e.incoming.(items := e.incoming.items[1..])
    ensures r.playing == e.playing.(items := e.playing.items + Wrap(Handles(e.incoming.items[..1])))
  {
    FrontWrap(e.incoming.items);
    var g := RingBuffer.Get(e.incoming);
    var e1 := e.(incoming := g.0);
    if g.1.None? then
      DrainKeepsInv(e, e1);
      e1
    else
      PlayingRoom(e);
      var r := e1.(playing := RingBuffer.Put(e1.playing, g.1).0);
      DrainKeepsInv(e, r);
      r
  }

  /** The front item as a queue of its own, NULL dropped. */
  lemma FrontWrap(xs: seq<Option<Handle>>)
    requires |xs| >= 1
    ensures Wrap(Handles(xs[..1])) == if xs[0].Some? then [xs[0]] else []
  {
    HandlesOne(xs);
  }

  /** Moving the front item of psNew to psPlaying keeps the invariant. */
  lemma DrainKeepsInv(e: Engine, r: Engine)
    requires Inv(e) && e.state == Running && |e.incoming.items| >= 1
    requires r == e.(incoming := r.incoming, playing := r.playing)
    requires r.incoming == e.incoming.(items := e.incoming.items[1..])
    requires r.playing == e.playing.(items := e.playing.items + Wrap(Handles(e.incoming.items[..1])))
    requires RingBuffer.Valid(r.playing)
    ensures Inv(r) && Pool(r) == Pool(e)
  {
    MoveFront(e.playing.items, e.incoming.items);
    PairedTail(e.incoming.items);
    assert QueuesOk(r);
    assert Pool(r) == Pool(e);
    SamePoolKeepsInv(e, r);
  }

  /** Moving the front item of one sequence to the back of another, NULL
      dropped, keeps the handles of the two together. */
  lemma MoveFront(p: seq<Option<Handle>>, q: seq<Option<Handle>>)
    requires |q| >= 1
    ensures Bag(p + Wrap(Handles(q[..1]))) + Bag(q[1..]) == Bag(p) + Bag(q)
    ensures NoNull(p) ==> NoNull(p + Wrap(Handles(q[..1])))
  {
    var f := Handles(q[..1]);
    HandlesOne(q);
    HandlesAppend(p, Wrap(f));
    HandlesWrap(f);
    assert Handles(p + Wrap(f)) == Handles(p) + f;
    assert Bag(p + Wrap(f)) == Bag(p) + multiset(f);
    assert Bag(q) == multiset(f) + Bag(q[1..]);
    if NoNull(p) {
      forall i | 0 <= i < |p + Wrap(f)|
        ensures (p + Wrap(f))[i].Some?
      {
        if i >= |p| {
          assert (p + Wrap(f))[i] == Wrap(f)[i - |p|];
        }
      }
    }
  }

  lemma PairedTail(xs: seq<Option<Handle>>)
    requires Paired(xs) && |xs| >= 1
    ensures Paired(xs[1..])
  {
    forall i | 1 <= i < |xs| - 1 && xs[1..][i].None?
      ensures xs[1..][i - 1].Some?
    {
      assert xs[1..][i] == xs[i + 1];
    }
  }

  /** The drain loop: k turns, each moving one item of psNew. */
  function Drain(e: Engine, k: nat): (r: Engine)
    requires Inv(e) && e.state == Running && k <= |e.incoming.items|
    ensures Inv(r) && Pool(r) == Pool(e)
    ensures r == e.(incoming := r.incoming, playing := r.playing)
    ensures r.incoming == e.incoming.(items := e.incoming.items[k..])
    ensures r.playing == e.playing.(items := e.playing.items + Wrap(Handles(e.incoming.items[..k])))
    decreases k
  {
    if k == 0 then
      DrainNothing(e);
      e
    else
      var e1 := DrainStep(e);
      var r := Drain(e1, k - 1);
      DrainSplit(e.playing.items, e.incoming.items, k);
      r
  }

  lemma DrainNothing(e: Engine)
    ensures e.incoming == e.incoming.(items := e.incoming.items[0..])
    ensures e.playing == e.playing.(items := e.playing.items + Wrap(Handles(e.incoming.items[..0])))
  {
    assert e.incoming.items[..0] == [];
  }

  /** k turns are one turn followed by k - 1. */
  lemma DrainSplit(p: seq<Option<Handle>>, q: seq<Option<Handle>>, k: nat)
    requires 1 <= k <= |q|
    ensures q[1..][k - 1..] == q[k..]
    ensures p + Wrap(Handles(q[..1])) + Wrap(Handles(q[1..][..k - 1])) == p + Wrap(Handles(q[..k]))
  {
    var a := q[..1];
    var b := q[1..][..k - 1];
    assert q[..k] == a + b;
    HandlesAppend(a, b);
    WrapAppend(Handles(a), Handles(b));
  }

  lemma WrapAppend(a: seq<Handle>, b: seq<Handle>)
    ensures Wrap(a + b) == Wrap(a) + Wrap(b)
  {
  }

  // ---------------------------------------------------------------------
  // Playing psPlaying for one block
  // ---------------------------------------------------------------------

  /** What every voice of a block shares: the interpolation, the block
      length, the pitch bend at its start and its per-frame slope. */
  datatype Pass = Pass(interp: Voice.Interp, n: nat, pb: real, slope: real)

  /** The setting _proc_ps plays the voice behind `h` with. */
  function SettingOf(e: Engine, b: Pass, h: Handle): Voice.Setting
    requires Controls.Valid(e.ctrls) && Playable(e, h)
  {
    Voice.SettingFor(e.ctrls, e.pool[h], Lookup(e.store, e.pool[h].sample), b.interp)
  }

  /** _proc_ps on the voice behind `h`: the block it plays and whether it
      is finished. */
  function Run(e: Engine, b: Pass, h: Handle): (r: (Voice.Played, bool))
    requires Controls.Valid(e.ctrls) && Playable(e, h)
    ensures r.0.voice.key == e.pool[h].key && r.0.voice.sample == e.pool[h].sample
    ensures |Voice.Output(r.0, SettingOf(e, b, h))| <= b.n
  {
    Voice.Process(e.pool[h], SettingOf(e, b, h), b.n, b.pb, b.slope)
  }

  ghost predicate AllPlayable(e: Engine, hs: seq<Handle>) {
    forall i :: 0 <= i < |hs| ==> Playable(e, hs[i])
  }

  /** The voices of `hs` that are not finished after the block, in order. */
  function Kept(e: Engine, b: Pass, hs: seq<Handle>): seq<Handle>
    requires Controls.Valid(e.ctrls) && AllPlayable(e, hs)
    decreases |hs|
  {
    if hs == [] then []
    else (if Run(e, b, hs[0]).1 then [] else [hs[0]]) + Kept(e, b, hs[1..])
  }

  /** The voices of `hs` that are finished after the block, in order. */
  function Retired(e: Engine, b: Pass, hs: seq<Handle>): seq<Handle>
    requires Controls.Valid(e.ctrls) && AllPlayable(e, hs)
    decreases |hs|
  {
    if hs == [] then []
    else (if Run(e, b, hs[0]).1 then [hs[0]] else []) + Retired(e, b, hs[1..])
  }

  /** Adding a voice's output to the first frames of the mix buffer. */
  function MixIn(buf: seq<Voice.Frame>, out: seq<Voice.Frame>): (r: seq<Voice.Frame>)
    requires |out| <= |buf|
    ensures |r| == |buf|
  {
    seq(|buf|, j requires 0 <= j < |buf| => if j < |out| then Voice.Add(buf[j], out[j]) else buf[j])
  }

  /** The mix buffer after the voices of `hs` have each added their output. */
  function Mixed(buf: seq<Voice.Frame>, e: Engine, b: Pass, hs: seq<Handle>): (r: seq<Voice.Frame>)
    requires Controls.Valid(e.ctrls) && AllPlayable(e, hs) && |buf| == b.n
    ensures |r| == |buf|
    decreases |hs|
  {
    if hs == [] then buf
    else
      var run := Run(e, b, hs[0]);
      Mixed(MixIn(buf, Voice.Output(run.0, SettingOf(e, b, hs[0]))), e, b, hs[1..])
  }

  /** psRecycle has room for a voice taken from psPlaying. */
  lemma RecycleRoom(e: Engine)
    requires Inv(e) && |e.playing.items| >= 1
    ensures |e.recycle.items| < e.recycle.limit
  {
    NoNullIsWrapped(e.playing.items);
    NoNullIsWrapped(e.recycle.items);
    assert |Pool(e)| >= |Handles(e.playing.items)| + |Handles(e.recycle.items)|;
  }

  /** The front of psPlaying is a playable voice. */
  lemma FrontPlayable(e: Engine)
    requires Inv(e) && |e.playing.items| >= 1
    ensures e.playing.items[0].Some? && Playable(e, e.playing.items[0].value)
  {
    HandlesOne(e.playing.items);
    assert e.playing.items[0].value in Bag(e.playing.items);
  }

  /** One turn of the play loop: take the front voice of psPlaying, play
      it, and put it on psRecycle if it is finished, back on psPlaying
      otherwise. */
  function RotateStep(e: Engine, b: Pass): (r: Engine)
    requires Inv(e) && e.state == Running && |e.playing.items| >= 1
    ensures e.playing.items[0].Some? && Playable(e, e.playing.items[0].value)
    ensures Rotated(e, b, r)
  {
    FrontPlayable(e);
    RecycleRoom(e);
    var g := RingBuffer.Get(e.playing);
    var h := g.1.value;
    var run := Run(e, b, h);
    var e1 := e.(playing := g.0, pool := e.pool[h := run.0.voice]);
    if run.1 then e1.(recycle := RingBuffer.Put(e1.recycle, Some(h)).0)
    else e1.(playing := RingBuffer.Put(e1.playing, Some(h)).0)
  }

  /** `r` is `e` after one turn of the play loop. */
  ghost predicate Rotated(e: Engine, b: Pass, r: Engine)
    requires Inv(e) && |e.playing.items| >= 1
    requires e.playing.items[0].Some? && Playable(e, e.playing.items[0].value)
  {
    var h := e.playing.items[0].value;
    var run := Run(e, b, h);
    && r == e.(playing := r.playing, recycle := r.recycle, pool := r.pool)
    && r.pool == e.pool[h := run.0.voice]
    && r.playing == e.playing.(items := e.playing.items[1..] + (if run.1 then [] else [Some(h)]))
    && r.recycle == e.recycle.(items := e.recycle.items + (if run.1 then [Some(h)] else []))
  }

  lemma HandlesSingle(h: Handle)
    ensures Handles([Some(h)]) == [h]
  {
    assert [Some(h)][1..] == [];
  }

  /** Taking the front voice of a queue leaves the rest of its handles. */
  lemma BagFront(p: seq<Option<Handle>>, h: Handle)
    requires |p| >= 1 && p[0] == Some(h)
    ensures Bag(p) == multiset{h} + Bag(p[1..])
    ensures NoNull(p) ==> NoNull(p[1..])
  {
    HandlesOne(p);
    assert NoNull(p) ==> NoNull(p[1..]) by {
      if NoNull(p) {
        forall i | 0 <= i < |p| - 1
          ensures p[1..][i].Some?
        {
          assert p[1..][i] == p[i + 1];
        }
      }
    }
  }

  /** Putting a voice at the back of a queue adds its handle. */
  lemma BagBack(q: seq<Option<Handle>>, h: Handle)
    ensures Bag(q + [Some(h)]) == Bag(q) + multiset{h}
    ensures NoNull(q) ==> NoNull(q + [Some(h)])
  {
    HandlesAppend(q, [Some(h)]);
    HandlesSingle(h);
  }

  /** A turn of the play loop keeps the invariant and the pool. */
  lemma RotateKeepsInv(e: Engine, b: Pass, r: Engine)
    requires Inv(e) && e.state == Running && |e.playing.items| >= 1
    requires e.playing.items[0].Some? && Playable(e, e.playing.items[0].value)
    requires Rotated(e, b, r)
    ensures Inv(r) && Pool(r) == Pool(e)
  {
    var h := e.playing.items[0].value;
    var run := Run(e, b, h);
    RecycleRoom(e);
    RotateQueues(e, r, h, run.1);
    RotatePlayable(e, r, h);
    SamePoolKeepsInv(e, r);
  }

  /** The queues after a turn of the play loop: still well formed, the same
      handles in all, and psPlaying holding no handle it did not hold. */
  lemma RotateQueues(e: Engine, r: Engine, h: Handle, retire: bool)
    requires QueuesOk(e) && |e.playing.items| >= 1 && e.playing.items[0] == Some(h)
    requires |e.recycle.items| < e.recycle.limit
    requires r.incoming == e.incoming
    requires r.playing == e.playing.(items := e.playing.items[1..] + (if retire then [] else [Some(h)]))
    requires r.recycle == e.recycle.(items := e.recycle.items + (if retire then [Some(h)] else []))
    ensures QueuesOk(r) && Pool(r) == Pool(e)
    ensures Bag(e.playing.items) == multiset{h} + Bag(e.playing.items[1..])
    ensures Bag(r.playing.items) <= multiset{h} + Bag(e.playing.items[1..])
  {
    BagFront(e.playing.items, h);
    if retire {
      assert r.playing.items == e.playing.items[1..];
      BagBack(e.recycle.items, h);
    } else {
      assert r.recycle.items == e.recycle.items;
      BagBack(e.playing.items[1..], h);
    }
  }

  /** Every voice scheduled after a turn of the play loop can still be
      played: the one just played kept its key and sample, the others are
      untouched. */
  lemma RotatePlayable(e: Engine, r: Engine, h: Handle)
    requires |e.playing.items| >= 1
    requires forall x :: x in Bag(e.playing.items) + Bag(e.incoming.items) ==> Playable(e, x)
    requires Bag(e.playing.items) == multiset{h} + Bag(e.playing.items[1..])
    requires Bag(r.playing.items) <= multiset{h} + Bag(e.playing.items[1..])
    requires r.incoming == e.incoming && r.store == e.store && |r.pool| == |e.pool|
    requires forall x :: 0 <= x < |e.pool| && x != h ==> r.pool[x] == e.pool[x]
    requires Playable(r, h)
    ensures forall x :: x in Bag(r.playing.items) + Bag(r.incoming.items) ==> Playable(r, x)
  {
    forall x | x in Bag(r.playing.items) + Bag(r.incoming.items)
      ensures Playable(r, x)
    {
      if x != h {
        assert x in Bag(e.playing.items) + Bag(e.incoming.items);
        assert Playable(e, x);
      }
    }
  }

  /** The handles of a prefix of a queue are handles of the queue. */
  lemma HandlesPrefix(xs: seq<Option<Handle>>, k: nat)
    requires k <= |xs|
    ensures multiset(Handles(xs[..k])) <= Bag(xs)
  {
    assert xs == xs[..k] + xs[k..];
    HandlesAppend(xs[..k], xs[k..]);
  }

  /** The voices in the first `count` slots of psPlaying: all playable,
      the front one first and not repeated. */
  lemma FrontUnique(e: Engine, count: nat)
    requires Inv(e) && 1 <= count <= |e.playing.items|
    ensures e.playing.items[0].Some?
    ensures var hs := Handles(e.playing.items[..count]);
      && AllPlayable(e, hs) && |hs| >= 1 && hs[0] == e.playing.items[0].value
      && hs[0] !in hs[1..]
  {
    FrontPlayable(e);
    var hs := Handles(e.playing.items[..count]);
    HandlesPrefix(e.playing.items, count);
    FrontHandle(e.playing.items, count);
    assert multiset(hs)[hs[0]] <= Pool(e)[hs[0]] <= 1;
    PrefixPlayable(e, count);
  }

  /** The handles of a prefix of a queue whose front item is a voice
      start with that voice. */
  lemma FrontHandle(xs: seq<Option<Handle>>, count: nat)
    requires 1 <= count <= |xs| && xs[0].Some?
    ensures var hs := Handles(xs[..count]);
      |hs| >= 1 && hs == [xs[0].value] + hs[1..]
  {
    var p := xs[..count];
    HandlesOne(p);
    assert p[..1] == xs[..1];
  }

  /** Every voice in the first `count` slots of psPlaying can be played. */
  lemma PrefixPlayable(e: Engine, count: nat)
    requires Inv(e) && count <= |e.playing.items|
    ensures AllPlayable(e, Handles(e.playing.items[..count]))
  {
    var hs := Handles(e.playing.items[..count]);
    HandlesPrefix(e.playing.items, count);
    forall i | 0 <= i < |hs|
      ensures Playable(e, hs[i])
    {
      assert hs[i] in multiset(hs);
    }
  }

  /** After one turn, the first `count - 1` slots of psPlaying are the
      slots 1 to `count` of before. */
  lemma TurnedPrefix(p: seq<Option<Handle>>, t: seq<Option<Handle>>, count: nat)
    requires 1 <= count <= |p| && p[0].Some?
    ensures (p[1..] + t)[..count - 1] == p[..count][1..]
    ensures (p[1..] + t)[count - 1..] == p[count..] + t
    ensures Handles(p[..count])[1..] == Handles(p[..count][1..])
  {
    HandlesOne(p[..count]);
    assert p[..count][..1] == p[..1];
    assert p[1..][count - 1..] == p[count..];
  }

  /** Kept, Retired and Mixed only look at the voices they play. */
  lemma {:induction false} RunsFrame(e: Engine, e1: Engine, b: Pass, hs: seq<Handle>, buf: seq<Voice.Frame>)
    requires Controls.Valid(e.ctrls) && AllPlayable(e, hs) && |buf| == b.n
    requires e1.ctrls == e.ctrls && e1.store == e.store
    requires forall i :: 0 <= i < |hs| ==> hs[i] < |e1.pool| && e1.pool[hs[i]] == e.pool[hs[i]]
    ensures AllPlayable(e1, hs)
    ensures Kept(e1, b, hs) == Kept(e, b, hs) && Retired(e1, b, hs) == Retired(e, b, hs)
    ensures Mixed(buf, e1, b, hs) == Mixed(buf, e, b, hs)
    decreases |hs|
  {
    if hs != [] {
      var run := Run(e, b, hs[0]);
      RunsFrame(e, e1, b, hs[1..], MixIn(buf, Voice.Output(run.0, SettingOf(e, b, hs[0]))));
    }
  }

  /** `r` is `e` and the mix buffer `buf` after `count` turns of the play
      loop: every voice of the first `count` slots of psPlaying was played
      once, against the state before the loop, and the finished ones moved,
      in order, to psRecycle. */
  ghost predicate Turned(e: Engine, b: Pass, count: nat, buf: seq<Voice.Frame>, r: (Engine, seq<Voice.Frame>))
    requires Controls.Valid(e.ctrls) && count <= |e.playing.items| && |buf| == b.n
  {
    var hs := Handles(e.playing.items[..count]);
    && AllPlayable(e, hs)
    && Moved(e, b, count, hs, r.0)
    && Replayed(e, b, hs, r.0.pool)
    && r.1 == Mixed(buf, e, b, hs)
  }

  /** The queues after the turns over `hs`, the first `count` slots of
      psPlaying: the unfinished voices back on psPlaying, the finished ones
      on psRecycle, both in order. */
  ghost predicate Moved(e: Engine, b: Pass, count: nat, hs: seq<Handle>, r: Engine)
    requires Controls.Valid(e.ctrls) && AllPlayable(e, hs) && count <= |e.playing.items|
  {
    && r == e.(playing := r.playing, recycle := r.recycle, pool := r.pool)
    && r.playing == e.playing.(items := e.playing.items[count..] + Wrap(Kept(e, b, hs)))
    && r.recycle == e.recycle.(items := e.recycle.items + Wrap(Retired(e, b, hs)))
  }

  /** The pool after the turns over `hs`: each of their voices played
      once, every other voice untouched. */
  ghost predicate Replayed(e: Engine, b: Pass, hs: seq<Handle>, pool: seq<Voice.Voice>)
    requires Controls.Valid(e.ctrls) && AllPlayable(e, hs)
  {
    && |pool| == |e.pool|
    && (forall x :: 0 <= x < |e.pool| && x !in hs ==> pool[x] == e.pool[x])
    && (forall i :: 0 <= i < |hs| ==> pool[hs[i]] == Run(e, b, hs[i]).0.voice)
  }

  /** The play loop: `count` turns over psPlaying, mixing into `buf`. */
  function Rotate(e: Engine, b: Pass, count: nat, buf: seq<Voice.Frame>): (r: (Engine, seq<Voice.Frame>))
    requires Inv(e) && e.state == Running && count <= |e.playing.items| && |buf| == b.n
    ensures Inv(r.0) && Pool(r.0) == Pool(e)
    ensures Turned(e, b, count, buf, r)
    decreases count
  {
    if count == 0 then
      TurnedNone(e, b, buf);
      (e, buf)
    else
      var e1 := RotateStep(e, b);
      RotateKeepsInv(e, b, e1);
      var h := e.playing.items[0].value;
      var buf1 := MixIn(buf, Voice.Output(Run(e, b, h).0, SettingOf(e, b, h)));
      var r := Rotate(e1, b, count - 1, buf1);
      TurnedSplit(e, e1, b, count, buf, r);
      r
  }

  /** No turn leaves the engine and the buffer as they were. */
  lemma TurnedNone(e: Engine, b: Pass, buf: seq<Voice.Frame>)
    requires Controls.Valid(e.ctrls) && |buf| == b.n
    ensures Turned(e, b, 0, buf, (e, buf))
  {
    assert e.playing.items[..0] == [];
  }

  /** `count` turns are one turn followed by `count - 1`. */
  lemma TurnedSplit(e: Engine, e1: Engine, b: Pass, count: nat, buf: seq<Voice.Frame>, r: (Engine, seq<Voice.Frame>))
    requires Inv(e) && 1 <= count <= |e.playing.items| && |buf| == b.n
    requires e.playing.items[0].Some? && Playable(e, e.playing.items[0].value)
    requires Rotated(e, b, e1) && Inv(e1)
    requires count - 1 <= |e1.playing.items|
    requires var h := e.playing.items[0].value;
      Turned(e1, b, count - 1, MixIn(buf, Voice.Output(Run(e, b, h).0, SettingOf(e, b, h))), r)
    ensures Turned(e, b, count, buf, r)
  {
    var h := e.playing.items[0].value;
    var run := Run(e, b, h);
    var stay: seq<Handle> := if run.1 then [] else [h];
    var gone: seq<Handle> := if run.1 then [h] else [];
    WrapOne(h);
    FrontUnique(e, count);
    TurnedJoin(e, e1, b, count, buf, r, h, stay, gone);
  }

  /** TurnedSplit without the engine invariant: only what one turn did. */
  lemma TurnedJoin(e: Engine, e1: Engine, b: Pass, count: nat, buf: seq<Voice.Frame>, r: (Engine, seq<Voice.Frame>),
                   h: Handle, stay: seq<Handle>, gone: seq<Handle>)
    requires Controls.Valid(e.ctrls) && 1 <= count <= |e.playing.items| && |buf| == b.n
    requires e.playing.items[0] == Some(h)
    requires var hs := Handles(e.playing.items[..count]);
      AllPlayable(e, hs) && |hs| >= 1 && hs[0] == h && h !in hs[1..]
    requires e1 == e.(playing := e1.playing, recycle := e1.recycle, pool := e1.pool)
    requires e1.pool == e.pool[h := Run(e, b, h).0.voice]
    requires stay == (if Run(e, b, h).1 then [] else [h]) && gone == (if Run(e, b, h).1 then [h] else [])
    requires e1.playing == e.playing.(items := e.playing.items[1..] + Wrap(stay))
    requires e1.recycle == e.recycle.(items := e.recycle.items + Wrap(gone))
    requires Turned(e1, b, count - 1, MixIn(buf, Voice.Output(Run(e, b, h).0, SettingOf(e, b, h))), r)
    ensures Turned(e, b, count, buf, r)
  {
    var buf1 := MixIn(buf, Voice.Output(Run(e, b, h).0, SettingOf(e, b, h)));
    var hs := Handles(e.playing.items[..count]);
    TurnedPrefix(e.playing.items, Wrap(stay), count);
    var hs1 := Handles(e1.playing.items[..count - 1]);
    assert hs1 == hs[1..];
    forall i | 0 <= i < |hs1|
      ensures hs1[i] < |e.pool| && e.pool[hs1[i]] == e1.pool[hs1[i]]
    {
      assert hs1[i] == hs[i + 1];
    }
    RunsFrame(e1, e, b, hs1, buf1);
    MovedJoin(e, e1, b, count, hs, hs1, r.0, stay, gone);
    TurnedPool(e, e1, b, r.0.pool, hs, h);
  }

  lemma MovedJoin(e: Engine, e1: Engine, b: Pass, count: nat, hs: seq<Handle>, hs1: seq<Handle>, r: Engine,
                  stay: seq<Handle>, gone: seq<Handle>)
    requires Controls.Valid(e.ctrls) && 1 <= count <= |e.playing.items|
    requires AllPlayable(e, hs) && |hs| >= 1 && hs1 == hs[1..]
    requires AllPlayable(e1, hs1) && e1.ctrls == e.ctrls
    requires Kept(e1, b, hs1) == Kept(e, b, hs1) && Retired(e1, b, hs1) == Retired(e, b, hs1)
    requires stay == (if Run(e, b, hs[0]).1 then [] else [hs[0]])
    requires gone == (if Run(e, b, hs[0]).1 then [hs[0]] else [])
    requires e1 == e.(playing := e1.playing, recycle := e1.recycle, pool := e1.pool)
    requires e1.playing == e.playing.(items := e.playing.items[1..] + Wrap(stay))
    requires e1.recycle == e.recycle.(items := e.recycle.items + Wrap(gone))
    requires count - 1 <= |e1.playing.items| && (e1.playing.items)[count - 1..] == e.playing.items[count..] + Wrap(stay)
    requires Moved(e1, b, count - 1, hs1, r)
    ensures Moved(e, b, count, hs, r)
  {
    assert Kept(e, b, hs) == stay + Kept(e, b, hs1);
    assert Retired(e, b, hs) == gone + Retired(e, b, hs1);
    WrapAppend(stay, Kept(e, b, hs1));
    WrapAppend(gone, Retired(e, b, hs1));
    var p, q := e.playing.items[count..], e.recycle.items;
    calc {
      r.playing.items;
      (e.playing.items[1..] + Wrap(stay))[count - 1..] + Wrap(Kept(e, b, hs1));
      p + Wrap(stay) + Wrap(Kept(e, b, hs1));
      { AppendAssoc(p, Wrap(stay), Wrap(Kept(e, b, hs1))); }
      p + Wrap(Kept(e, b, hs));
    }
    calc {
      r.recycle.items;
      q + Wrap(gone) + Wrap(Retired(e, b, hs1));
      { AppendAssoc(q, Wrap(gone), Wrap(Retired(e, b, hs1))); }
      q + Wrap(Retired(e, b, hs));
    }
  }

  lemma AppendAssoc<T>(a: seq<T>, b: seq<T>, c: seq<T>)
    ensures a + b + c == a + (b + c)
  {
  }

  lemma WrapOne(h: Handle)
    ensures Wrap([h]) == [Some(h)] && Wrap([]) == []
  {
  }

  /** psPlaying after one turn and `count - 1` more. */
  lemma TurnedQueue(p: seq<Option<Handle>>, x: seq<Handle>, k: seq<Handle>, count: nat)
    requires 1 <= count <= |p|
    ensures (p[1..] + Wrap(x))[count - 1..] + Wrap(k) == p[count..] + Wrap(x + k)
  {
    assert p[1..][count - 1..] == p[count..];
    WrapAppend(x, k);
  }

  /** The pool after `count` turns, from the pool after one turn and the
      `count - 1` turns that follow it. */
  lemma TurnedPool(e: Engine, e1: Engine, b: Pass, pool: seq<Voice.Voice>, hs: seq<Handle>, h: Handle)
    requires Controls.Valid(e.ctrls) && AllPlayable(e, hs) && |hs| >= 1 && hs[0] == h && h !in hs[1..]
    requires e1.ctrls == e.ctrls && e1.store == e.store && e1.pool == e.pool[h := Run(e, b, h).0.voice]
    requires AllPlayable(e1, hs[1..]) && Replayed(e1, b, hs[1..], pool)
    ensures Replayed(e, b, hs, pool)
  {
    forall i | 0 <= i < |hs|
      ensures pool[hs[i]] == Run(e, b, hs[i]).0.voice
    {
      if i == 0 {
        assert pool[h] == e1.pool[h];
      } else {
        assert hs[i] == hs[1..][i - 1];
        assert hs[i] != h;
      }
    }
  }

  // ---------------------------------------------------------------------
  // What the play loop promises
  // ---------------------------------------------------------------------

  /** Every voice played goes exactly one way: kept on psPlaying when it
      is not finished, retired to psRecycle when it is. */
  lemma {:induction false} KeptRetired(e: Engine, b: Pass, hs: seq<Handle>)
    requires Controls.Valid(e.ctrls) && AllPlayable(e, hs)
    ensures multiset(Kept(e, b, hs)) + multiset(Retired(e, b, hs)) == multiset(hs)
    ensures forall i :: 0 <= i < |hs| ==> (hs[i] in Kept(e, b, hs) <==> !Run(e, b, hs[i]).1)
    ensures forall i :: 0 <= i < |hs| ==> (hs[i] in Retired(e, b, hs) <==> Run(e, b, hs[i]).1)
  {
    var kept, retired := Kept(e, b, hs), Retired(e, b, hs);
    Split(e, b, hs);
    forall i | 0 <= i < |hs|
      ensures (hs[i] in kept <==> !Run(e, b, hs[i]).1) && (hs[i] in retired <==> Run(e, b, hs[i]).1)
    {
      assert hs[i] in multiset(hs);
      if hs[i] in kept {
        var k :| 0 <= k < |kept| && kept[k] == hs[i];
      }
      if hs[i] in retired {
        var k :| 0 <= k < |retired| && retired[k] == hs[i];
      }
    }
  }

  /** Kept and Retired split `hs` between them. */
  lemma {:induction false} SplitBag(e: Engine, b: Pass, hs: seq<Handle>)
    requires Controls.Valid(e.ctrls) && AllPlayable(e, hs)
    ensures multiset(Kept(e, b, hs)) + multiset(Retired(e, b, hs)) == multiset(hs)
    decreases |hs|
  {
    if hs != [] {
      SplitBag(e, b, hs[1..]);
      var kept, retired := Kept(e, b, hs[1..]), Retired(e, b, hs[1..]);
      assert hs == [hs[0]] + hs[1..];
      assert multiset(hs) == multiset{hs[0]} + multiset(kept) + multiset(retired);
      if Run(e, b, hs[0]).1 {
        assert Kept(e, b, hs) == kept;
        assert Retired(e, b, hs) == [hs[0]] + retired;
      } else {
        assert Kept(e, b, hs) == [hs[0]] + kept;
        assert Retired(e, b, hs) == retired;
      }
    }
  }

  /** Kept holds only unfinished voices, Retired only finished ones. */
  lemma {:induction false} Split(e: Engine, b: Pass, hs: seq<Handle>)
    requires Controls.Valid(e.ctrls) && AllPlayable(e, hs)
    ensures multiset(Kept(e, b, hs)) + multiset(Retired(e, b, hs)) == multiset(hs)
    ensures AllPlayable(e, Kept(e, b, hs)) && AllPlayable(e, Retired(e, b, hs))
    ensures forall k :: 0 <= k < |Kept(e, b, hs)| ==> !Run(e, b, Kept(e, b, hs)[k]).1
    ensures forall k :: 0 <= k < |Retired(e, b, hs)| ==> Run(e, b, Retired(e, b, hs)[k]).1
    decreases |hs|
  {
    SplitBag(e, b, hs);
    if hs != [] {
      Split(e, b, hs[1..]);
      var h, k1, r1 := hs[0], Kept(e, b, hs[1..]), Retired(e, b, hs[1..]);
      if Run(e, b, h).1 {
        assert Kept(e, b, hs) == k1;
        Prepend(e, b, h, r1, true);
      } else {
        assert Retired(e, b, hs) == r1;
        Prepend(e, b, h, k1, false);
      }
    }
  }

  /** A voice put in front of a list of voices that all finished, or all
      did not, the way it did. */
  lemma Prepend(e: Engine, b: Pass, h: Handle, hs: seq<Handle>, done: bool)
    requires Controls.Valid(e.ctrls) && Playable(e, h) && AllPlayable(e, hs)
    requires Run(e, b, h).1 == done
    requires forall k :: 0 <= k < |hs| ==> Run(e, b, hs[k]).1 == done
    ensures AllPlayable(e, [h] + hs)
    ensures forall k :: 0 <= k < |[h] + hs| ==> Run(e, b, ([h] + hs)[k]).1 == done
  {
    forall k | 0 <= k < |[h] + hs|
      ensures Playable(e, ([h] + hs)[k]) && Run(e, b, ([h] + hs)[k]).1 == done
    {
      if k > 0 {
        assert ([h] + hs)[k] == hs[k - 1];
      }
    }
  }

  /** Frame `j` of a voice's block, silence past its end. */
  function FrameAt(out: seq<Voice.Frame>, j: nat): Voice.Frame {
    if j < |out| then out[j] else Voice.Silence
  }

  /** The sum, at frame `j`, of the blocks the voices of `hs` play. */
  function Sum(e: Engine, b: Pass, hs: seq<Handle>, j: nat): Voice.Frame
    requires Controls.Valid(e.ctrls) && AllPlayable(e, hs)
    decreases |hs|
  {
    if hs == [] then Voice.Silence
    else Voice.Add(FrameAt(Voice.Output(Run(e, b, hs[0]).0, SettingOf(e, b, hs[0])), j), Sum(e, b, hs[1..], j))
  }

  /** The mix buffer holds, frame by frame, what it held before plus the
      sum of every voice's frame: the order the voices are played in does
      not matter. */
  lemma {:induction false} MixedSum(buf: seq<Voice.Frame>, e: Engine, b: Pass, hs: seq<Handle>, j: nat)
    requires Controls.Valid(e.ctrls) && AllPlayable(e, hs) && |buf| == b.n && j < b.n
    ensures Mixed(buf, e, b, hs)[j] == Voice.Add(buf[j], Sum(e, b, hs, j))
    decreases |hs|
  {
    if hs != [] {
      var out := Voice.Output(Run(e, b, hs[0]).0, SettingOf(e, b, hs[0]));
      MixedSum(MixIn(buf, out), e, b, hs[1..], j);
    }
  }

  // ---------------------------------------------------------------------
  // Peaks
  // ---------------------------------------------------------------------

  /** The peak meter after the frames of `outs`: _mm_max_pd, channel by
      channel, frame after frame. */
  function PeakOf(peak: Voice.Frame, outs: seq<Voice.Frame>): (r: Voice.Frame)
    decreases |outs|
  {
    if outs == [] then peak
    else PeakOf(Voice.Frame(Larger(peak.left, outs[0].left), Larger(peak.right, outs[0].right)), outs[1..])
  }

  function Larger(a: real, b: real): real {
    if a < b then b else a
  }

  /** The peak is the largest of the old peak and every frame's value,
      channel by channel. */
  lemma {:induction false} PeakBounds(peak: Voice.Frame, outs: seq<Voice.Frame>)
    ensures var r := PeakOf(peak, outs);
      && peak.left <= r.left && peak.right <= r.right
      && (forall i :: 0 <= i < |outs| ==> outs[i].left <= r.left && outs[i].right <= r.right)
      && (r.left == peak.left || exists i :: 0 <= i < |outs| && r.left == outs[i].left)
      && (r.right == peak.right || exists i :: 0 <= i < |outs| && r.right == outs[i].right)
    decreases |outs|
  {
    if outs != [] {
      var p1 := Voice.Frame(Larger(peak.left, outs[0].left), Larger(peak.right, outs[0].right));
      PeakBounds(p1, outs[1..]);
      var r := PeakOf(peak, outs);
      forall i | 0 <= i < |outs|
        ensures outs[i].left <= r.left && outs[i].right <= r.right
      {
        if i > 0 {
          assert outs[i] == outs[1..][i - 1];
        }
      }
      if r.left != peak.left && r.left != outs[0].left {
        var i :| 0 <= i < |outs[1..]| && r.left == outs[1..][i].left;
        assert r.left == outs[i + 1].left;
      }
      if r.right != peak.right && r.right != outs[0].right {
        var i :| 0 <= i < |outs[1..]| && r.right == outs[1..][i].right;
        assert r.right == outs[i + 1].right;
      }
    }
  }

  // ---------------------------------------------------------------------
  // sampler_jack_process
  // ---------------------------------------------------------------------

  /** The drain loop over the largest even number of items in psNew: whole
      pairs only, so a note-on still writing its pair is left for the next
      block. At most one item is left behind. */
  function DrainPairs(e: Engine): (r: Engine)
    requires Inv(e) && e.state == Running
    ensures Inv(r) && Pool(r) == Pool(e)
    ensures Drained(e, r)
    ensures |r.incoming.items| == |e.incoming.items| % 2
  {
    Drain(e, Whole(e.incoming))
  }

  /** `r` is `e` with the whole pairs at the front of psNew moved, NULLs
      dropped, to the back of psPlaying. */
  ghost predicate Drained(e: Engine, r: Engine) {
    && r == e.(incoming := r.incoming, playing := r.playing)
    && r.incoming == e.incoming.(items := e.incoming.items[Whole(e.incoming)..])
    && r.playing == e.playing.(items := e.playing.items + Wrap(Handles(e.incoming.items[..Whole(e.incoming)])))
  }

  /** The items of a queue that form whole pairs. */
  function Whole(q: Queue): (k: nat)
    ensures k <= |q.items| && k % 2 == 0 && |q.items| - k == |q.items| % 2
  {
    var count := RingBuffer.Count(q);
    count - count % 2
  }

  /** The engine with the control values committed. */
  function Committed(e: Engine): Engine
    requires Controls.Valid(e.ctrls)
  {
    e.(ctrls := Controls.Commit(e.ctrls))
  }

  /** The pitch bend a block starts from and its per-frame slope towards
      the newly committed value. */
  function PassOf(e: Engine, interp: Voice.Interp, n: nat): (b: Pass)
    requires Controls.Valid(e.ctrls) && n >= 1
    ensures b.n == n && b.pb == Controls.Commit(e.ctrls).pitchBendPrev
    ensures b.pb + n as real * b.slope == Controls.Commit(e.ctrls).value[Controls.PitchBend]
  {
    var c := Controls.Commit(e.ctrls);
    Pass(interp, n, c.pitchBendPrev, Voice.BendSlope(c.pitchBendPrev, c.value[Controls.PitchBend], n))
  }

  /** The voices a block plays, in order: those in psPlaying, then those
      of the whole pairs at the front of psNew. */
  function Scheduled(e: Engine): seq<Handle> {
    Handles(e.playing.items) + Handles(e.incoming.items[..Whole(e.incoming)])
  }

  /** A block of `n` frames of silence. */
  function Silent(n: nat): (buf: seq<Voice.Frame>)
    ensures |buf| == n && forall j :: 0 <= j < n ==> buf[j] == Voice.Silence
  {
    seq(n, _ => Voice.Silence)
  }

  /** What a block does to a running engine: every scheduled voice is
      played once from the committed controls, the finished ones retired to
      psRecycle and the others kept on psPlaying in order, and each output
      frame is the scaled sum of the voices' frames. */
  ghost predicate Processed(e: Engine, interp: Voice.Interp, n: nat, r: (Engine, seq<Voice.Frame>))
    requires Controls.Valid(e.ctrls) && n >= 1
  {
    var c, b, hs := Committed(e), PassOf(e, interp, n), Scheduled(e);
    var k := Whole(e.incoming);
    && AllPlayable(c, hs)
    && r.0.playing.items == Wrap(Kept(c, b, hs))
    && r.0.incoming.items == e.incoming.items[k..]
    && r.0.recycle.items == e.recycle.items + Wrap(Retired(c, b, hs))
    && Replayed(c, b, hs, r.0.pool)
    && |r.1| == n
    && forall j :: 0 <= j < n ==> r.1[j] == Voice.Scale(Sum(c, b, hs, j), Int16Scale)
  }

  /** sampler_jack_process: one block of `n` frames. The JACK port buffers
      are the returned frames; the engine's queues, pool, controls and peak
      meter are updated. */
  function Process(e: Engine, interp: Voice.Interp, n: nat): (r: (Engine, seq<Voice.Frame>))
    requires Inv(e) && 1 <= n <= JackBufSize
    ensures Inv(r.0) && Pool(r.0) == Pool(e)
    ensures r.0 == e.(ctrls := r.0.ctrls, playing := r.0.playing, incoming := r.0.incoming,
                      recycle := r.0.recycle, pool := r.0.pool, peak := r.0.peak)
    ensures r.0.ctrls == Controls.Commit(e.ctrls)
    ensures |r.1| == n && r.0.peak == PeakOf(e.peak, r.1)
    ensures e.state == Running ==> Processed(e, interp, n, r)
    ensures e.state != Running ==> r.0 == Committed(e).(peak := r.0.peak) && r.1 == Silent(n)
  {
    var c := Controls.Commit(e.ctrls);
    CtrlsKeepInv(e, c);
    if e.state != Running then
      var outs := Silent(n);
      (e.(ctrls := c, peak := PeakOf(e.peak, outs)), outs)
    else
      Mix(e, interp, n)
  }

  /** sampler_jack_process on a running engine. */
  function Mix(e: Engine, interp: Voice.Interp, n: nat): (r: (Engine, seq<Voice.Frame>))
    requires Inv(e) && e.state == Running && n >= 1
    ensures Inv(r.0) && Pool(r.0) == Pool(e)
    ensures r.0 == Committed(e).(playing := r.0.playing, incoming := r.0.incoming,
                                 recycle := r.0.recycle, pool := r.0.pool, peak := r.0.peak)
    ensures |r.1| == n && r.0.peak == PeakOf(e.peak, r.1)
    ensures Processed(e, interp, n, r)
  {
    CtrlsKeepInv(e, Controls.Commit(e.ctrls));
    var e2 := DrainPairs(Committed(e));
    var t := Rotate(e2, PassOf(e, interp, n), RingBuffer.Count(e2.playing), Silent(n));
    var outs := ToPorts(t.1);
    var pk := PeakOf(e.peak, outs);
    BlockDone(e, interp, n, e2, t, outs, pk);
    PeakKeepsInv(t.0, pk);
    (t.0.(peak := pk), outs)
  }

  /** The peak meter plays no part in the invariant. */
  lemma PeakKeepsInv(e: Engine, pk: Voice.Frame)
    requires Inv(e)
    ensures Inv(e.(peak := pk)) && Pool(e.(peak := pk)) == Pool(e)
  {
    var r := e.(peak := pk);
    assert Pool(r) == Pool(e);
    forall h | h in Bag(r.playing.items) + Bag(r.incoming.items)
      ensures Playable(r, h)
    {
      assert Playable(e, h);
    }
  }

  /** The float conversion of the mix buffer into the JACK ports. */
  function ToPorts(mix: seq<Voice.Frame>): (outs: seq<Voice.Frame>)
    ensures |outs| == |mix|
    ensures forall j :: 0 <= j < |mix| ==> outs[j] == Voice.Scale(mix[j], Int16Scale)
  {
    seq(|mix|, j requires 0 <= j < |mix| => Voice.Scale(mix[j], Int16Scale))
  }

  /** The queues and pool after the play loop, stated against the engine
      before the block. */
  lemma BlockDone(e: Engine, interp: Voice.Interp, n: nat, e2: Engine, t: (Engine, seq<Voice.Frame>),
                  outs: seq<Voice.Frame>, pk: Voice.Frame)
    requires Controls.Valid(e.ctrls) && n >= 1
    requires Drained(Committed(e), e2)
    requires Controls.Valid(e2.ctrls)
    requires Turned(e2, PassOf(e, interp, n), |e2.playing.items|, Silent(n), t)
    requires outs == ToPorts(t.1)
    ensures Processed(e, interp, n, (t.0.(peak := pk), outs))
  {
    var c, b, hs := Committed(e), PassOf(e, interp, n), Scheduled(e);
    AllScheduled(e, e2);
    RunsFrame(e2, c, b, hs, Silent(n));
    assert e2.playing.items[|e2.playing.items|..] == [];
    ReplayedFrame(e2, c, b, hs, t.0.pool);
    OutputSum(c, b, hs, t.1, outs);
  }

  /** After the drain, psPlaying holds exactly the voices the block plays. */
  lemma AllScheduled(e: Engine, e2: Engine)
    requires Controls.Valid(e.ctrls) && Drained(Committed(e), e2)
    ensures e2.playing.items[..|e2.playing.items|] == e2.playing.items
    ensures Handles(e2.playing.items) == Scheduled(e)
  {
    var added := Handles(e.incoming.items[..Whole(e.incoming)]);
    HandlesAppend(e.playing.items, Wrap(added));
    HandlesWrap(added);
  }

  /** The output frames are the scaled sums of the voices' frames. */
  lemma OutputSum(c: Engine, b: Pass, hs: seq<Handle>, mix: seq<Voice.Frame>, outs: seq<Voice.Frame>)
    requires Controls.Valid(c.ctrls) && AllPlayable(c, hs)
    requires mix == Mixed(Silent(b.n), c, b, hs)
    requires |mix| == b.n && outs == ToPorts(mix)
    ensures forall j :: 0 <= j < b.n ==> outs[j] == Voice.Scale(Sum(c, b, hs, j), Int16Scale)
  {
    forall j | 0 <= j < b.n
      ensures outs[j] == Voice.Scale(Sum(c, b, hs, j), Int16Scale)
    {
      MixedSum(Silent(b.n), c, b, hs, j);
    }
  }

  /** Replayed only looks at the controls, the store and the pool. */
  lemma ReplayedFrame(e: Engine, e1: Engine, b: Pass, hs: seq<Handle>, pool: seq<Voice.Voice>)
    requires Controls.Valid(e.ctrls) && AllPlayable(e, hs) && Replayed(e, b, hs, pool)
    requires e1.ctrls == e.ctrls && e1.store == e.store && e1.pool == e.pool
    ensures AllPlayable(e1, hs) && Replayed(e1, b, hs, pool)
  {
    forall i | 0 <= i < |hs|
      ensures Playable(e1, hs[i]) && Run(e1, b, hs[i]) == Run(e, b, hs[i])
    {
      assert Playable(e, hs[i]);
      assert SettingOf(e1, b, hs[i]) == SettingOf(e, b, hs[i]);
    }
  }
}
