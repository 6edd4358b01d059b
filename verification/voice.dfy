/** A playing voice (playingsample.h) and what happens to it: `_load_ps`
    sets it up for a note, `_proc_ps` plays it for one audio block and
    decides whether it is finished.

    The interpolation arithmetic of `sample_interp` is not modelled: the
    value of a sample at a fractional position is a function parameter. */
module Voice {
  import opened Global
  import opened SampleStore
  import Controls

  /** One stereo frame. */
  datatype Frame = Frame(left: real, right: real)

  const Silence: Frame := Frame(0.0, 0.0)

  function Scale(f: Frame, g: real): Frame {
    Frame(f.left * g, f.right * g)
  }

  function Add(a: Frame, b: Frame): Frame {
    Frame(a.left + b.left, a.right + b.right)
  }

  /** sample_interp: the stereo value of a sample at a fractional frame
      position. */
  type Interp = (Sample, real) -> Frame

  /** A voice: the (transposed) key it plays, the slot of the sample, the
      playback position in frames, the gain, the pan (-1 left .. 1 right)
      and the fade-in level (1 at the start, decaying to 0). */
  datatype Voice = Voice(key: int, sample: SampleRef, idx: real, amp: real, pan: real, fadeInAmp: real)

  /** x^n for a natural exponent. */
  function Pow(x: real, n: nat): real
    decreases n
  {
    if n == 0 then 1.0 else x * Pow(x, n - 1)
  }

  /** A level a after j frames of decay by the factor t per frame. */
  function Decayed(a: real, t: real, j: nat): real
    decreases j
  {
    if j == 0 then a else Decayed(a * t, t, j - 1)
  }

  /** One frame of decay. */
  lemma DecayedStep(a: real, t: real, j: nat, a1: real)
    requires j > 0 && a1 == a * t
    ensures Decayed(a, t, j) == Decayed(a1, t, j - 1)
  {
  }

  /** Decaying j times by t is scaling by t^j. */
  lemma {:induction false} DecayedClosedForm(a: real, t: real, j: nat)
    ensures Decayed(a, t, j) == a * Pow(t, j)
    decreases j
  {
    if j > 0 {
      DecayedClosedForm(a * t, t, j - 1);
      DecayShift(a, t, j - 1, a * t);
    }
  }

  // ---------------------------------------------------------------------
  // _load_ps
  // ---------------------------------------------------------------------

  /** _load_ps: a voice for `key` at velocity `vel` starting at the sample's
      first loud frame, with the key's amplitude and pan scaled by the layer
      mix weight. A fade-in factor of exactly 1 (no fade) starts the fade at
      0, anything else at 1. */
  function Start(c: Controls.Bank, m: Math, key: int, vel: real, slot: SampleRef, s: Sample, mix: real): (v: Voice)
    requires Controls.Valid(c)
    ensures v.key == key && v.sample == slot && v.idx == s.idx0 as real
    ensures v.amp == Controls.SampleAmp(c, m, key, vel, s.rms) * mix
    ensures v.pan == Controls.SamplePan(c, key)
    ensures v.fadeInAmp == 0.0 <==> c.value[Controls.TauFadeIn] == 1.0
    ensures v.fadeInAmp == 0.0 || v.fadeInAmp == 1.0
    ensures s.rms == 0.0 ==> v.amp == 0.0
  {
    var fade := if c.value[Controls.TauFadeIn] == 1.0 then 0.0 else 1.0;
    Voice(key, slot, s.idx0 as real, Controls.SampleAmp(c, m, key, vel, s.rms) * mix,
          Controls.SamplePan(c, key), fade)
  }

  // ---------------------------------------------------------------------
  // _proc_ps
  // ---------------------------------------------------------------------

  /** What stays fixed while a voice plays one block: its sample, the decay
      factors, the master gain and the interpolation. */
  datatype Setting = Setting(s: Sample, tauKeyUp: real, tauFadeIn: real, ctrlAmp: real, interp: Interp)

  /** The block setting _proc_ps reads from the committed controls: the
      release decay applies only when the sustain pedal is up (0.5 or less)
      and the voice's key is not held; otherwise the factor is 1. */
  function SettingFor(c: Controls.Bank, v: Voice, s: Sample, interp: Interp): (e: Setting)
    requires Controls.Valid(c) && 0 <= v.key < Keys
    ensures e.s == s && e.interp == interp
    ensures e.tauFadeIn == c.value[Controls.TauFadeIn] && e.ctrlAmp == c.value[Controls.Amplify]
    ensures e.tauKeyUp == 1.0 || e.tauKeyUp == c.value[Controls.TauKeyUp]
    ensures e.tauKeyUp != 1.0 ==> c.value[Controls.Sustain] <= 0.5 && c.velocity[v.key] == 0.0
    ensures c.value[Controls.Sustain] <= 0.5 && c.velocity[v.key] == 0.0 ==>
      e.tauKeyUp == c.value[Controls.TauKeyUp]
  {
    var held := c.value[Controls.Sustain] > 0.5 || c.velocity[v.key] != 0.0;
    Setting(s, if held then 1.0 else c.value[Controls.TauKeyUp], c.value[Controls.TauFadeIn],
            c.value[Controls.Amplify], interp)
  }

  /** 0 + 1 + ... + (j - 1): how many slope steps the pitch bend has
      accumulated over the first j frames. */
  function Steps(j: nat): (r: nat)
  {
    if j == 0 then 0 else Steps(j - 1) + (j - 1)
  }

  lemma {:induction false} StepsClosedForm(j: nat)
    ensures 2 * Steps(j) == j * (j - 1)
  {
    if j > 0 {
      StepsClosedForm(j - 1);
      assert j * (j - 1) == (j - 1) * (j - 2) + 2 * (j - 1);
    }
  }

  /** The playback position after j frames starting at `idx`, when the
      pitch bend starts at pb and grows by `slope` each frame: every frame
      advances by the current pitch bend times the sample's speed. */
  function Position(idx: real, speed: real, pb: real, slope: real, j: nat): real
    decreases j
  {
    if j == 0 then idx else Position(idx + pb * speed, speed, pb + slope, slope, j - 1)
  }

  /** One frame of the ramp: the position moves by the current bend. */
  lemma PositionStep(idx: real, speed: real, pb: real, slope: real, j: nat, idx1: real)
    requires j > 0 && idx1 == idx + pb * speed
    ensures Position(idx, speed, pb, slope, j) == Position(idx1, speed, pb + slope, slope, j - 1)
  {
  }

  /** The same step, taken by Advance. */
  lemma AdvanceStep(v: Voice, e: Setting, pb: real, slope: real, j: nat)
    requires j > 0
    ensures Position(v.idx, e.s.speed, pb, slope, j) == Position(Advance(v, e, pb).idx, e.s.speed, pb + slope, slope, j - 1)
  {
    PositionStep(v.idx, e.s.speed, pb, slope, j, Advance(v, e, pb).idx);
  }

  /** The position in closed form: j frames at the starting bend plus the
      accumulated slope steps, all at the sample's speed. */
  lemma {:induction false} PositionClosedForm(idx: real, speed: real, pb: real, slope: real, j: nat)
    ensures Position(idx, speed, pb, slope, j) == idx + speed * (j as real * pb + slope * Steps(j) as real)
    decreases j
  {
    if j > 0 {
      PositionClosedForm(idx + pb * speed, speed, pb + slope, slope, j - 1);
      PositionShift(idx, speed, pb, slope, j - 1);
    }
  }

  /** The gain applied to frame j (0-based) of the block. */
  function Gain(v: Voice, e: Setting, j: nat): real {
    v.amp * Pow(e.tauKeyUp, j + 1) * (1.0 - v.fadeInAmp * Pow(e.tauFadeIn, j + 1)) * e.ctrlAmp
  }

  /** One frame of _proc_ps for the voice: decay the gain and the fade-in,
      then advance the position by the current pitch bend. */
  function Advance(v: Voice, e: Setting, pb: real): (v1: Voice)
    ensures v1 == v.(idx := v1.idx, amp := v1.amp, fadeInAmp := v1.fadeInAmp)
    ensures v1.amp == v.amp * e.tauKeyUp && v1.fadeInAmp == v.fadeInAmp * e.tauFadeIn
    ensures v1.idx == v.idx + pb * e.s.speed
  {
    v.(amp := v.amp * e.tauKeyUp, fadeInAmp := v.fadeInAmp * e.tauFadeIn, idx := v.idx + pb * e.s.speed)
  }

  /** The frame written in that step: the interpolated value at the old
      position, scaled by the decayed gain, the complement of the decayed
      fade-in level and the master gain. */
  function Out(v: Voice, e: Setting): (f: Frame)
  {
    Scale(e.interp(e.s, v.idx), v.amp * e.tauKeyUp * (1.0 - v.fadeInAmp * e.tauFadeIn) * e.ctrlAmp)
  }

  /** The result of playing a voice for a block: the voice afterwards, the
      voice as it stood at the start of each frame it played, and whether
      it played past the end of its sample. */
  datatype Played = Played(voice: Voice, frames: seq<Voice>, ended: bool)

  /** The frame loop of _proc_ps: at most n frames, stopping right after
      the frame whose advance reaches the sample's length. */
  function Play(v: Voice, e: Setting, n: nat, pb: real, slope: real): (r: Played)
    ensures |r.frames| <= n
    ensures r.ended ==> |r.frames| >= 1
    ensures !r.ended ==> |r.frames| == n
    ensures |r.frames| > 0 ==> r.frames[0] == v
    decreases n
  {
    if n == 0 then Played(v, [], false)
    else
      var v1 := Advance(v, e, pb);
      if v1.idx >= e.s.len as real then Played(v1, [v], true)
      else
        var rest := Play(v1, e, n - 1, pb + slope, slope);
        Played(rest.voice, [v] + rest.frames, rest.ended)
  }

  /** What the voice adds to the block's mix buffer, frame by frame. */
  function Output(p: Played, e: Setting): (out: seq<Frame>)
    ensures |out| == |p.frames|
  {
    seq(|p.frames|, j requires 0 <= j < |p.frames| => Out(p.frames[j], e))
  }

  /** The voice after j frames of the block (j up to the number played). */
  function StateAt(p: Played, j: nat): Voice {
    if j < |p.frames| then p.frames[j] else p.voice
  }

  /** The loop stops at the first frame that takes the position to len or
      beyond: every frame after the first starts below len, and the voice
      ended exactly when its final position is at least len. */
  lemma {:induction false} PlayStopsAtEnd(v: Voice, e: Setting, n: nat, pb: real, slope: real)
    ensures var r := Play(v, e, n, pb, slope);
      && (r.ended <==> |r.frames| >= 1 && r.voice.idx >= e.s.len as real)
      && forall j :: 1 <= j < |r.frames| ==> r.frames[j].idx < e.s.len as real
    decreases n
  {
    if n > 0 {
      var v1 := Advance(v, e, pb);
      if v1.idx < e.s.len as real {
        PlayStopsAtEnd(v1, e, n - 1, pb + slope, slope);
        var rest := Play(v1, e, n - 1, pb + slope, slope);
        assert |rest.frames| > 0 ==> rest.frames[0] == v1;
      }
    }
  }

  /** Playing moves only the position, the gain and the fade-in level: the
      voice keeps its key, its sample and its pan. */
  lemma {:induction false} PlayKeepsVoice(v: Voice, e: Setting, n: nat, pb: real, slope: real)
    ensures var r := Play(v, e, n, pb, slope);
      r.voice == v.(idx := r.voice.idx, amp := r.voice.amp, fadeInAmp := r.voice.fadeInAmp)
    decreases n
  {
    if n > 0 && Advance(v, e, pb).idx < e.s.len as real {
      PlayKeepsVoice(Advance(v, e, pb), e, n - 1, pb + slope, slope);
    }
  }

  /** Seen from the second frame on, the block is the block of the advanced
      voice, with the pitch bend one step further. */
  lemma StateShift(v: Voice, e: Setting, n: nat, pb: real, slope: real, j: nat)
    requires n > 0 && Advance(v, e, pb).idx < e.s.len as real
    requires 1 <= j <= |Play(v, e, n, pb, slope).frames|
    ensures j - 1 <= |Play(Advance(v, e, pb), e, n - 1, pb + slope, slope).frames|
    ensures StateAt(Play(v, e, n, pb, slope), j)
         == StateAt(Play(Advance(v, e, pb), e, n - 1, pb + slope, slope), j - 1)
  {
  }

  /** After j frames the position has moved along the pitch bend ramp. */
  lemma {:induction false} PlayPosition(v: Voice, e: Setting, n: nat, pb: real, slope: real, j: nat)
    requires j <= |Play(v, e, n, pb, slope).frames|
    ensures StateAt(Play(v, e, n, pb, slope), j).idx == Position(v.idx, e.s.speed, pb, slope, j)
    decreases n
  {
    var r := Play(v, e, n, pb, slope);
    var v1 := Advance(v, e, pb);
    if j == 0 {
      assert StateAt(r, 0) == v;
    } else if v1.idx >= e.s.len as real {
      assert j == 1 && StateAt(r, 1) == v1;
      AdvanceStep(v, e, pb, slope, 1);
    } else {
      StateShift(v, e, n, pb, slope, j);
      PlayPosition(v1, e, n - 1, pb + slope, slope, j - 1);
      AdvanceStep(v, e, pb, slope, j);
    }
  }

  /** After j frames the gain has decayed j times. */
  lemma {:induction false} PlayGainDecays(v: Voice, e: Setting, n: nat, pb: real, slope: real, j: nat)
    requires j <= |Play(v, e, n, pb, slope).frames|
    ensures StateAt(Play(v, e, n, pb, slope), j).amp == Decayed(v.amp, e.tauKeyUp, j)
    decreases n
  {
    var r := Play(v, e, n, pb, slope);
    var v1 := Advance(v, e, pb);
    if j == 0 {
      assert StateAt(r, 0) == v;
    } else if v1.idx >= e.s.len as real {
      assert j == 1 && StateAt(r, 1) == v1;
      DecayedStep(v.amp, e.tauKeyUp, 1, v1.amp);
    } else {
      StateShift(v, e, n, pb, slope, j);
      PlayGainDecays(v1, e, n - 1, pb + slope, slope, j - 1);
      DecayedStep(v.amp, e.tauKeyUp, j, v1.amp);
    }
  }

  /** After j frames the fade-in level has decayed j times. */
  lemma {:induction false} PlayFadeDecays(v: Voice, e: Setting, n: nat, pb: real, slope: real, j: nat)
    requires j <= |Play(v, e, n, pb, slope).frames|
    ensures StateAt(Play(v, e, n, pb, slope), j).fadeInAmp == Decayed(v.fadeInAmp, e.tauFadeIn, j)
    decreases n
  {
    var r := Play(v, e, n, pb, slope);
    var v1 := Advance(v, e, pb);
    if j == 0 {
      assert StateAt(r, 0) == v;
    } else if v1.idx >= e.s.len as real {
      assert j == 1 && StateAt(r, 1) == v1;
      DecayedStep(v.fadeInAmp, e.tauFadeIn, 1, v1.fadeInAmp);
    } else {
      StateShift(v, e, n, pb, slope, j);
      PlayFadeDecays(v1, e, n - 1, pb + slope, slope, j - 1);
      DecayedStep(v.fadeInAmp, e.tauFadeIn, j, v1.fadeInAmp);
    }
  }

  /** The voice ends in the first frame whose advance takes the position
      along the ramp to len or beyond, and never earlier. */
  lemma PlayEndsAtFirstCrossing(v: Voice, e: Setting, n: nat, pb: real, slope: real)
    ensures var r := Play(v, e, n, pb, slope);
      var len := e.s.len as real;
      && (r.ended <==> |r.frames| >= 1 && Position(v.idx, e.s.speed, pb, slope, |r.frames|) >= len)
      && forall j :: 1 <= j < |r.frames| ==> Position(v.idx, e.s.speed, pb, slope, j) < len
  {
    var r := Play(v, e, n, pb, slope);
    PlayStopsAtEnd(v, e, n, pb, slope);
    PlayPosition(v, e, n, pb, slope, |r.frames|);
    forall j | 1 <= j < |r.frames|
      ensures Position(v.idx, e.s.speed, pb, slope, j) < e.s.len as real
    {
      PlayPosition(v, e, n, pb, slope, j);
    }
  }

  /** Frame j of what the voice writes is the sample's value at the j-th
      position of the ramp, scaled by the j-th gain. */
  lemma PlayFrame(v: Voice, e: Setting, n: nat, pb: real, slope: real, j: nat)
    requires j < |Play(v, e, n, pb, slope).frames|
    ensures Output(Play(v, e, n, pb, slope), e)[j]
         == Scale(e.interp(e.s, Position(v.idx, e.s.speed, pb, slope, j)), Gain(v, e, j))
  {
    var w := StateAt(Play(v, e, n, pb, slope), j);
    PlayPosition(v, e, n, pb, slope, j);
    PlayGainDecays(v, e, n, pb, slope, j);
    PlayFadeDecays(v, e, n, pb, slope, j);
    DecayedClosedForm(v.amp, e.tauKeyUp, j);
    DecayedClosedForm(v.fadeInAmp, e.tauFadeIn, j);
    DecayStep(v.amp, e.tauKeyUp, j, w.amp);
    DecayStep(v.fadeInAmp, e.tauFadeIn, j, w.fadeInAmp);
  }

  /** One more frame of decay: (a t) t^j = a t^(j+1). */
  lemma DecayShift(a: real, t: real, j: nat, a1: real)
    requires a1 == a * t
    ensures a1 * Pow(t, j) == a * Pow(t, j + 1)
  {
    var p := Pow(t, j);
    assert Pow(t, j + 1) == t * p;
    assert (a * t) * p == a * (t * p);
  }

  /** And the same seen from the decayed value: (a t^j) t = a t^(j+1). */
  lemma DecayStep(a: real, t: real, j: nat, aj: real)
    requires aj == a * Pow(t, j)
    ensures aj * t == a * Pow(t, j + 1)
  {
    assert Pow(t, j + 1) == t * Pow(t, j);
  }

  /** The closed form one frame later: starting one bend step further on
      from the advanced position covers the same ground as j + 1 frames. */
  lemma PositionShift(idx: real, speed: real, pb: real, slope: real, j: nat)
    ensures idx + pb * speed + speed * (j as real * (pb + slope) + slope * Steps(j) as real)
         == idx + speed * ((j + 1) as real * pb + slope * Steps(j + 1) as real)
  {
    var t := Steps(j);
    assert Steps(j + 1) == t + j;
    assert speed * (j as real * (pb + slope) + slope * t as real) + pb * speed
        == speed * ((j + 1) as real * pb + slope * (t + j) as real);
  }

  /** _proc_ps: play one block of n frames from pitch bend pb with the given
      per-frame slope; the voice is finished when it played past the end of its
      sample, or when its gain has fallen below MIN_AMP by the block's end. */
  function Process(v: Voice, e: Setting, n: nat, pb: real, slope: real): (r: (Played, bool))
    ensures r.0 == PlayChecked(v, e, n, pb, slope)
    ensures r.1 <==> r.0.ended || r.0.voice.amp < MinAmp
  {
    var p := PlayChecked(v, e, n, pb, slope);
    (p, p.ended || p.voice.amp < MinAmp)
  }

  /** A block's pitch bend runs linearly from the previous committed value
      to the current one: after n frames of the slope (pb1 - pb0) / n it
      arrives at pb1. */
  function BendSlope(pb0: real, pb1: real, n: nat): (slope: real)
    requires n > 0
    ensures pb0 + n as real * slope == pb1
  {
    (pb1 - pb0) / n as real
  }

  /** A held voice (sustain down or key pressed) keeps its gain, and is only
      finished by reaching the end of the sample or by having had a gain
      below MIN_AMP already. */
  lemma HeldVoiceKeepsGain(c: Controls.Bank, v: Voice, s: Sample, interp: Interp, n: nat, pb: real, slope: real)
    requires Controls.Valid(c) && 0 <= v.key < Keys
    requires c.value[Controls.Sustain] > 0.5 || c.velocity[v.key] != 0.0
    ensures var r := Process(v, SettingFor(c, v, s, interp), n, pb, slope);
      && r.0.voice.amp == v.amp
      && (r.1 <==> r.0.ended || v.amp < MinAmp)
  {
    var e := SettingFor(c, v, s, interp);
    if v.idx < e.s.len as real {
      var k := |Play(v, e, n, pb, slope).frames|;
      PlayGainDecays(v, e, n, pb, slope, k);
      DecayedClosedForm(v.amp, e.tauKeyUp, k);
      OneToAnyPower(k);
    }
  }

  lemma {:induction false} OneToAnyPower(n: nat)
    ensures Pow(1.0, n) == 1.0
  {
    if n > 0 {
      OneToAnyPower(n - 1);
    }
  }

  /** Why a fade-in factor of 1 starts the fade level at 0: a level of 1
      that never decays would silence the voice for good. With the level
      _load_ps picks, every frame is played at the full decayed gain. */
  lemma NoFadeInPlaysAtOnce(c: Controls.Bank, m: Math, key: int, vel: real, slot: SampleRef, s: Sample, mix: real, j: nat)
    requires Controls.Valid(c) && 0 <= key < Keys && c.value[Controls.TauFadeIn] == 1.0
    ensures var v := Start(c, m, key, vel, slot, s, mix);
      var e := SettingFor(c, v, s, (_, _) => Silence);
      && Gain(v, e, j) == v.amp * Pow(e.tauKeyUp, j + 1) * e.ctrlAmp
      && Gain(v.(fadeInAmp := 1.0), e, j) == 0.0
  {
    var v := Start(c, m, key, vel, slot, s, mix);
    var e := SettingFor(c, v, s, (_, _) => Silence);
    OneToAnyPower(j + 1);
  }

  /** _proc_ps's interpolation reads frames floor(idx) and floor(idx) + 1 of
      a buffer of len + 1 frames. */
  predicate ReadsInside(s: Sample, idx: real) {
    0 <= Trunc(idx) && 2 * Trunc(idx) + 3 < |s.data|
  }

  /** As written, a voice on a sample cropped to its full length (every
      frame below the threshold) starts at idx0 = len, and the frame loop
      makes its first read there, past the end of the buffer. */
  lemma SilentSampleReadsPastEnd(c: Controls.Bank, m: Math, key: int, vel: real, slot: SampleRef, s: Sample, mix: real,
                                 e: Setting, n: nat, pb: real, slope: real)
    requires Controls.Valid(c) && SampleOk(s) && IsLoaded(s) && s.idx0 == s.len && e.s == s && n >= 1
    ensures var v := Start(c, m, key, vel, slot, s, mix);
      var r := Play(v, e, n, pb, slope);
      |r.frames| >= 1 && r.frames[0] == v && !ReadsInside(s, r.frames[0].idx)
  {
  }

  /** The frame loop of _proc_ps with its end test also made before the
      first read: a voice already at or past the end of its sample ends
      without reading a frame; any other voice plays as in Play. */
  function PlayChecked(v: Voice, e: Setting, n: nat, pb: real, slope: real): (r: Played)
    ensures r.voice == v.(idx := r.voice.idx, amp := r.voice.amp, fadeInAmp := r.voice.fadeInAmp)
    ensures |r.frames| <= n
    ensures r.ended ==> r.voice.idx >= e.s.len as real
    ensures forall j :: 0 <= j < |r.frames| ==> r.frames[j].idx < e.s.len as real
    ensures v.idx >= e.s.len as real ==> r.frames == [] && r.ended
  {
    if v.idx >= e.s.len as real then Played(v, [], true)
    else
      PlayKeepsVoice(v, e, n, pb, slope);
      PlayStopsAtEnd(v, e, n, pb, slope);
      Play(v, e, n, pb, slope)
  }

  /** A read below the end of a loaded sample stays inside its buffer of
      len + 1 frames. */
  lemma BelowEndReadsInside(s: Sample, idx: real)
    requires SampleOk(s) && IsLoaded(s) && 0.0 <= idx < s.len as real
    ensures ReadsInside(s, idx)
  {
  }

  /** With the corrected loop, every read at a non-negative position stays
      inside the buffer, and a voice on a fully cropped sample reads
      nothing. */
  lemma CheckedReadsInside(v: Voice, e: Setting, n: nat, pb: real, slope: real)
    requires SampleOk(e.s) && IsLoaded(e.s)
    ensures var r := PlayChecked(v, e, n, pb, slope);
      forall j :: 0 <= j < |r.frames| && 0.0 <= r.frames[j].idx ==> ReadsInside(e.s, r.frames[j].idx)
    ensures e.s.idx0 == e.s.len && v.idx == e.s.idx0 as real ==> PlayChecked(v, e, n, pb, slope).frames == []
  {
    var r := PlayChecked(v, e, n, pb, slope);
    forall j | 0 <= j < |r.frames| && 0.0 <= r.frames[j].idx
      ensures ReadsInside(e.s, r.frames[j].idx)
    {
      BelowEndReadsInside(e.s, r.frames[j].idx);
    }
  }
}
