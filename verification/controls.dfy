/** The double-buffered control bank (controls.h / controls.c).

    Edits land in the uncommitted ("pending") arrays; only `Commit` copies
    them into the committed arrays that audio processing reads. Doubles are
    modelled as reals; `exp` and `pow` come from the `Math` parameter. */
module Controls {
  import opened Global

  /** Control ids (controls.h). */
  const Sustain: int := 0
  const Amplify: int := 1
  const GammaAmp: int := 2
  const GammaLayer: int := 3
  const MixLayers: int := 4
  const RmsLow: int := 5
  const RmsHigh: int := 6
  const PanLow: int := 7
  const PanHigh: int := 8
  const TauKeyUp: int := 9
  const TauFadeIn: int := 10
  const Transpose: int := 11
  const PitchBend: int := 12
  const CtrlCount: int := 13

  predicate IsId(id: int) { 0 <= id < CtrlCount }

  /** Time constants are stored as per-frame decay factors. */
  predicate IsTau(id: int) { id == TauKeyUp || id == TauFadeIn }

  /** Controls whose stored value is the raw value itself. */
  predicate IsLinear(id: int) { IsId(id) && !IsTau(id) && id != PitchBend }

  datatype Bank = Bank(
    midi: seq<int>,             // MIDI controller bound to each control, -1 for none
    min: seq<real>,
    max: seq<real>,
    value: seq<real>,           // committed
    pending: seq<real>,         // uncommitted (`_value`)
    velocity: seq<real>,        // committed key velocities, 0 = not pressed
    pendingVelocity: seq<real>, // uncommitted (`_velocity`)
    pitchBendPrev: real)        // committed pitch bend of the previous commit

  ghost predicate Valid(b: Bank) {
    && |b.midi| == CtrlCount && |b.min| == CtrlCount && |b.max| == CtrlCount
    && |b.value| == CtrlCount && |b.pending| == CtrlCount
    && |b.velocity| == Keys && |b.pendingVelocity| == Keys
  }

  /** True when `b'` differs from `b` at most in the pending arrays. */
  ghost predicate OnlyPendingChanged(b: Bank, b': Bank) {
    && b'.midi == b.midi && b'.min == b.min && b'.max == b.max
    && b'.value == b.value && b'.velocity == b.velocity
    && b'.pitchBendPrev == b.pitchBendPrev
  }

  /** The storage transform applied by `ctrls_update_direct`: a time constant
      of `v` milliseconds becomes the per-frame factor exp(-1000/(48000 v)),
      with v <= 0 meaning "no decay" (factor 1); pitch bend in semitones
      becomes the speed multiplier 2^(v/12); everything else is stored as is. */
  function Stored(m: Math, id: int, v: real): (r: real)
    ensures IsTau(id) && v <= 0.0 ==> r == 1.0
    ensures IsTau(id) && v > 0.0 ==> r == m.exp(-1000.0 / (SampleRate as real * v))
    ensures id == PitchBend ==> r == m.pow(2.0, v / 12.0)
    ensures !IsTau(id) && id != PitchBend ==> r == v
  {
    if IsTau(id) then
      if v <= 0.0 then 1.0 else m.exp(-1000.0 / (SampleRate as real * v))
    else if id == PitchBend then m.pow(2.0, v / 12.0)
    else v
  }

  /** ctrls_update_direct: store the transformed value in the pending slot,
      without applying min/max. */
  function UpdateDirect(b: Bank, m: Math, id: int, v: real): (r: Bank)
    requires Valid(b) && IsId(id)
    ensures Valid(r) && OnlyPendingChanged(b, r)
    ensures r.pendingVelocity == b.pendingVelocity
    ensures r.pending[id] == Stored(m, id, v)
    ensures forall i :: 0 <= i < CtrlCount && i != id ==> r.pending[i] == b.pending[i]
  {
    b.(pending := b.pending[id := Stored(m, id, v)])
  }

  /** lo + a x: for x in [0, 1] and a >= 0, a point of the range lo .. lo + a. */
  function Offset(lo: real, a: real, x: real): (r: real)
    ensures x == 0.0 ==> r == lo
    ensures x == 1.0 ==> r == lo + a
    ensures 0.0 <= a && 0.0 <= x <= 1.0 ==> lo <= r <= lo + a
  {
    if 0.0 <= a && 0.0 <= x <= 1.0 then
      ScaleWithinRange(a, x);
      lo + a * x
    else lo + a * x
  }

  /** The value a control input x in [0, 1] stands for: min + (max - min) x. */
  function Scaled(b: Bank, id: int, x: real): (r: real)
    requires Valid(b) && IsId(id)
    ensures x == 0.0 ==> r == b.min[id]
    ensures x == 1.0 ==> r == b.max[id]
    ensures b.min[id] <= b.max[id] && 0.0 <= x <= 1.0 ==> b.min[id] <= r <= b.max[id]
  {
    Offset(b.min[id], b.max[id] - b.min[id], x)
  }

  /** ctrls_update: map x onto min..max, then update directly. */
  function Update(b: Bank, m: Math, id: int, x: real): (r: Bank)
    requires Valid(b) && IsId(id)
    ensures Valid(r) && OnlyPendingChanged(b, r)
    ensures r.pendingVelocity == b.pendingVelocity
    ensures r.pending[id] == Stored(m, id, Scaled(b, id, x))
    ensures IsLinear(id) && x == 0.0 ==> r.pending[id] == b.min[id]
    ensures IsLinear(id) && x == 1.0 ==> r.pending[id] == b.max[id]
    ensures forall i :: 0 <= i < CtrlCount && i != id ==> r.pending[i] == b.pending[i]
  {
    UpdateDirect(b, m, id, Scaled(b, id, x))
  }

  /** ctrls_key_update: set a key's pending velocity. */
  function KeyUpdate(b: Bank, key: int, vel: real): (r: Bank)
    requires Valid(b) && 0 <= key < Keys
    ensures Valid(r) && OnlyPendingChanged(b, r) && r.pending == b.pending
    ensures r.pendingVelocity[key] == vel
    ensures forall k :: 0 <= k < Keys && k != key ==> r.pendingVelocity[k] == b.pendingVelocity[k]
  {
    b.(pendingVelocity := b.pendingVelocity[key := vel])
  }

  /** ctrls_midi_update, from control id `from` on: update every control
      bound to `controller`, in id order. */
  function MidiUpdateFrom(b: Bank, m: Math, controller: int, x: real, from: int): (r: Bank)
    requires Valid(b) && 0 <= from <= CtrlCount
    ensures Valid(r) && OnlyPendingChanged(b, r)
    ensures r.pendingVelocity == b.pendingVelocity
    ensures forall i :: 0 <= i < CtrlCount ==>
      r.pending[i] == (if from <= i && b.midi[i] == controller
                       then Stored(m, i, Scaled(b, i, x)) else b.pending[i])
    decreases CtrlCount - from
  {
    if from == CtrlCount then b
    else
      var b1 := if b.midi[from] == controller then Update(b, m, from, x) else b;
      assert b1.min == b.min && b1.max == b.max && b1.midi == b.midi;
      assert forall i :: 0 <= i < CtrlCount ==> Scaled(b1, i, x) == Scaled(b, i, x);
      MidiUpdateFrom(b1, m, controller, x, from + 1)
  }

  /** ctrls_midi_update: exactly the controls whose binding equals the
      controller number are updated (none, one or several). */
  function MidiUpdate(b: Bank, m: Math, controller: int, x: real): (r: Bank)
    requires Valid(b)
    ensures Valid(r) && OnlyPendingChanged(b, r)
    ensures r.pendingVelocity == b.pendingVelocity
    ensures forall i :: 0 <= i < CtrlCount && b.midi[i] == controller ==>
      r.pending[i] == Stored(m, i, Scaled(b, i, x))
    ensures forall i :: 0 <= i < CtrlCount && b.midi[i] != controller ==>
      r.pending[i] == b.pending[i]
  {
    MidiUpdateFrom(b, m, controller, x, 0)
  }

  /** ctrls_commit: remember the committed pitch bend, then publish every
      pending value and velocity. */
  function Commit(b: Bank): (r: Bank)
    requires Valid(b)
    ensures Valid(r)
    ensures r.pitchBendPrev == b.value[PitchBend]
    ensures forall i :: 0 <= i < CtrlCount ==> r.value[i] == b.pending[i]
    ensures forall k :: 0 <= k < Keys ==> r.velocity[k] == b.pendingVelocity[k]
    ensures r.pending == b.pending && r.pendingVelocity == b.pendingVelocity
    ensures r.midi == b.midi && r.min == b.min && r.max == b.max
  {
    b.(pitchBendPrev := b.value[PitchBend], value := b.pending, velocity := b.pendingVelocity)
  }

  /** ctrls_set_max: set a maximum; for transpose the range is made symmetric. */
  function SetMax(b: Bank, id: int, v: real): (r: Bank)
    requires Valid(b) && IsId(id)
    ensures Valid(r)
    ensures r.max == b.max[id := v]
    ensures id == Transpose ==> r.min == b.min[id := -v]
    ensures id != Transpose ==> r.min == b.min
    ensures r.midi == b.midi && r.value == b.value && r.pending == b.pending
    ensures r.velocity == b.velocity && r.pendingVelocity == b.pendingVelocity
    ensures r.pitchBendPrev == b.pitchBendPrev
  {
    var b1 := b.(max := b.max[id := v]);
    if id == Transpose then b1.(min := b1.min[id := -v]) else b1
  }

  /** ctrls_connect_midi: bind a control to a MIDI controller number. */
  function ConnectMidi(b: Bank, id: int, controller: int): (r: Bank)
    requires Valid(b) && IsId(id)
    ensures Valid(r)
    ensures r.midi[id] == controller
    ensures forall i :: 0 <= i < CtrlCount && i != id ==> r.midi[i] == b.midi[i]
    ensures r.min == b.min && r.max == b.max && r.value == b.value && r.pending == b.pending
    ensures r.velocity == b.velocity && r.pendingVelocity == b.pendingVelocity
    ensures r.pitchBendPrev == b.pitchBendPrev
  {
    b.(midi := b.midi[id := controller])
  }

  /** Default minimum and maximum of each control (controls.c). */
  const DefaultMin: seq<real> := [0.0, 0.0, 0.01, 0.01, 0.0, 0.0, 0.0, -1.0, -1.0, 0.0, 0.0, -12.0, 0.0]
  const DefaultMax: seq<real> := [1.0, 4.0, 3.0, 3.0, 1.0, 0.5, 0.1, 1.0, 1.0, 250.0, 10.0, 12.0, 1.0]
  /** Default raw values, before the storage transform (0 where none is set). */
  const DefaultRaw: seq<real> := [0.0, 1.0, 2.2, 1.0, 0.0, 0.25, 0.04, 0.0, 0.0, 150.0, 0.15, 0.0, 0.0]

  /** ctrls_load_defaults: zero the pending values, set ranges, store the
      defaults, clear velocities and MIDI bindings, then commit. Because the
      final commit overwrites it, pitchBendPrev ends up as the previously
      committed pitch bend rather than the 0 written just before. */
  function LoadDefaults(b: Bank, m: Math): (r: Bank)
    requires Valid(b)
    ensures Valid(r)
    ensures r.min == DefaultMin && r.max == DefaultMax
    ensures forall i :: 0 <= i < CtrlCount ==> r.midi[i] == -1
    ensures forall k :: 0 <= k < Keys ==> r.velocity[k] == 0.0 && r.pendingVelocity[k] == 0.0
    ensures r.value == r.pending
    ensures forall i :: 0 <= i < CtrlCount ==> r.value[i] == Stored(m, i, DefaultRaw[i])
    ensures r.value[Amplify] == 1.0 && r.value[Sustain] == 0.0 && r.value[MixLayers] == 0.0
    ensures r.value[Transpose] == 0.0 && r.value[PitchBend] == m.pow(2.0, 0.0)
    ensures r.pitchBendPrev == b.value[PitchBend]
  {
    var zeroed := b.(pending := seq(CtrlCount, _ => 0.0), min := DefaultMin, max := DefaultMax);
    var withValues := zeroed.(pending := seq(CtrlCount, i requires 0 <= i < CtrlCount => Stored(m, i, DefaultRaw[i])));
    var cleared := withValues.(pendingVelocity := seq(Keys, _ => 0.0),
                               midi := seq(CtrlCount, _ => -1),
                               pitchBendPrev := 0.0);
    Commit(cleared)
  }

  /** The RMS a note of `key` is normalised to: linear in the key, rmsLow
      at key 21 and rmsHigh at key 108. */
  function AmpTarget(b: Bank, key: int): (t: real)
    requires Valid(b)
    ensures key == 21 ==> t == b.value[RmsLow]
    ensures key == 108 ==> t == b.value[RmsHigh]
  {
    var slope := (b.value[RmsHigh] - b.value[RmsLow]) / 87.0;
    b.value[RmsLow] + slope * (key as real - 21.0)
  }

  /** The target is linear: equal key steps give equal target steps. */
  lemma AmpTargetIsLinear(b: Bank, k1: int, k2: int)
    requires Valid(b)
    ensures AmpTarget(b, k1 + 1) - AmpTarget(b, k1) == AmpTarget(b, k2 + 1) - AmpTarget(b, k2)
  {
  }

  lemma DivThenScale(t: real, rms: real, p: real)
    requires rms != 0.0
    ensures t / rms * p * rms == t * p
  {
    assert t / rms * rms == t;
  }

  /** ctrls_sample_amp: amplitude for a note, normalising the sample's RMS
      to the key's target, times vel^gammaAmp. A silent (rms = 0) sample
      gets 0. */
  function SampleAmp(b: Bank, m: Math, key: int, vel: real, rms: real): (r: real)
    requires Valid(b)
    ensures rms == 0.0 ==> r == 0.0
    ensures rms != 0.0 ==> r * rms == AmpTarget(b, key) * m.pow(vel, b.value[GammaAmp])
  {
    if rms == 0.0 then 0.0
    else
      var p := m.pow(vel, b.value[GammaAmp]);
      DivThenScale(AmpTarget(b, key), rms, p);
      AmpTarget(b, key) / rms * p
  }

  /** ctrls_sample_pan: pan linear in the key, panLow at key 21 and panHigh
      at key 108, with the same step between any two adjacent keys. */
  function SamplePan(b: Bank, key: int): (r: real)
    requires Valid(b)
    ensures key == 21 ==> r == b.value[PanLow]
    ensures key == 108 ==> r == b.value[PanHigh]
  {
    var slope := (b.value[PanHigh] - b.value[PanLow]) / 87.0;
    b.value[PanLow] + slope * (key as real - 21.0)
  }

  /** The pan law is linear: equal key steps give equal pan steps. */
  lemma PanIsLinear(b: Bank, k1: int, k2: int)
    requires Valid(b)
    ensures SamplePan(b, k1 + 1) - SamplePan(b, k1) == SamplePan(b, k2 + 1) - SamplePan(b, k2)
  {
  }

  /** Edits are invisible in the committed values until the next commit,
      and visible right after it. */
  lemma EditVisibleOnlyAfterCommit(b: Bank, m: Math, id: int, v: real)
    requires Valid(b) && IsId(id)
    ensures UpdateDirect(b, m, id, v).value == b.value
    ensures Commit(UpdateDirect(b, m, id, v)).value[id] == Stored(m, id, v)
    ensures Commit(UpdateDirect(b, m, id, v)).pitchBendPrev == b.value[PitchBend]
  {
  }

  /** A second commit with no edits in between changes nothing but
      pitchBendPrev, which becomes the pitch bend the first commit published. */
  lemma {:induction false} RecommitChangesOnlyPrev(b: Bank)
    requires Valid(b)
    ensures Commit(Commit(b)) == Commit(b).(pitchBendPrev := b.pending[PitchBend])
  {
    var c := Commit(b);
    assert c.value == b.pending;
  }
}
