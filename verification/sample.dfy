/** The key x layer x variation sample table (sample.h) and the operations
    on it that run while the engine plays: round-robin selection of the
    samples for a note (`sstore_get_samples`) and the reset performed by
    `_sstore_init`.

    The C table is a fixed 128 x MAX_LAYERS x MAX_VARS array with separate
    extent counters. Here key k holds the sequence of its layers, so
    numLayers[k] is |keys[k]|, and a layer holds the sequence of its
    variations, so numSamples[k][l] is |vars|. Slots past the counters are
    never read by the source and are not represented. */
module SampleStore {
  import opened Global
  import Controls

  /** One loaded audio file. `data` holds interleaved left/right int16
      values, `len + 1` frames of them (the extra frame is zero, for
      interpolation); the empty sequence stands for a NULL buffer. */
  datatype Sample = Sample(owner: bool, len: int, idx0: int, rms: real, speed: real, data: seq<int>)

  /** The state `_sstore_init` leaves every slot in. */
  const Unloaded: Sample := Sample(false, 0, 0, 0.0, 1.0, [])

  predicate IsLoaded(s: Sample) { s.data != [] }

  ghost predicate SampleOk(s: Sample) {
    && 0 <= s.idx0 <= s.len
    && (s.data == [] ==> s.len == 0)
    && (s.data != [] ==> |s.data| == 2 * (s.len + 1))
  }

  /** The variations of one (key, layer) and its round-robin cursor. */
  datatype Layer = Layer(vars: seq<Sample>, rr: int)

  datatype Store = Store(keys: seq<seq<Layer>>)

  /** Address of one slot of the table. */
  datatype SampleRef = SampleRef(key: int, layer: int, variation: int)

  ghost predicate LayerOk(ly: Layer) {
    && |ly.vars| <= MaxVars && 0 <= ly.rr
    && forall v :: 0 <= v < |ly.vars| ==> SampleOk(ly.vars[v])
  }

  /** The extents stay inside the C arrays and every slot is well formed. */
  ghost predicate Valid(st: Store) {
    && |st.keys| == Keys
    && forall k :: 0 <= k < Keys ==>
         && |st.keys[k]| <= MaxLayers
         && forall l :: 0 <= l < |st.keys[k]| ==> LayerOk(st.keys[k][l])
  }

  function NumLayers(st: Store, key: int): int
    requires 0 <= key < |st.keys|
  {
    |st.keys[key]|
  }

  function NumSamples(st: Store, key: int, layer: int): int
    requires 0 <= key < |st.keys| && 0 <= layer < |st.keys[key]|
  {
    |st.keys[key][layer].vars|
  }

  predicate HasSlot(st: Store, r: SampleRef) {
    && 0 <= r.key < |st.keys|
    && 0 <= r.layer < |st.keys[r.key]|
    && 0 <= r.variation < |st.keys[r.key][r.layer].vars|
  }

  function Lookup(st: Store, r: SampleRef): Sample
    requires HasSlot(st, r)
  {
    st.keys[r.key][r.layer].vars[r.variation]
  }

  /** The table right after `sstore_init`: no layers anywhere. */
  function Empty(): (st: Store)
    ensures Valid(st)
    ensures forall k :: 0 <= k < Keys ==> NumLayers(st, k) == 0
  {
    Store(seq(Keys, _ => []))
  }

  // ---------------------------------------------------------------------
  // sstore_get_samples
  // ---------------------------------------------------------------------

  /** Layer mixing is on when the committed MixLayers control exceeds 0.5. */
  predicate Mixing(c: Controls.Bank)
    requires Controls.Valid(c)
  {
    c.value[Controls.MixLayers] > 0.5
  }

  /** The velocity after the layer gamma curve, vel^gammaLayer. */
  function Curved(c: Controls.Bank, m: Math, vel: real): real
    requires Controls.Valid(c)
  {
    m.pow(vel, c.value[Controls.GammaLayer])
  }

  /** Where the curved velocity `x` falls on the layer scale: x times the
      layer count, or one fewer when mixing. */
  function Position(n: int, mix: bool, x: real): (p: real)
    requires n > 0 && 0.0 <= x <= 1.0
    ensures 0.0 <= p <= (if mix then n - 1 else n) as real
    ensures !mix && x < 1.0 ==> p < n as real
    ensures x == 0.0 ==> p == 0.0
    ensures x == 1.0 ==> p == (if mix then n - 1 else n) as real
  {
    var reduced := if mix then n - 1 else n;
    var a := reduced as real;
    ScaleWithinRange(a, x);
    assert !mix ==> a == n as real;
    a * x
  }

  /** The layer the curved velocity `x` selects among `n` layers: the
      truncation of its position on the layer scale, moved down by one when
      it lands on n itself. */
  function PrimaryLayer(n: int, mix: bool, x: real): (l: int)
    requires n > 0 && 0.0 <= x <= 1.0
    ensures 0 <= l < n
    ensures mix || x < 1.0 ==> l as real <= Position(n, mix, x) < l as real + 1.0
    ensures x == 0.0 ==> l == 0
    ensures x == 1.0 ==> l == n - 1
  {
    var l0 := Trunc(Position(n, mix, x));
    if l0 == n then l0 - 1 else l0
  }

  /** What `sstore_get_samples` hands back: up to two slots, and the mix
      weight of the first. */
  datatype Selection = Selection(first: Option<SampleRef>, second: Option<SampleRef>, weight: real)

  /** True when `st'` is `st` with at most the cursor of (key, layer) moved. */
  ghost predicate OnlyCursorMoved(st: Store, st': Store, key: int, layer: int)
    requires Valid(st)
  {
    && |st'.keys| == Keys
    && (forall k :: 0 <= k < Keys && k != key ==> st'.keys[k] == st.keys[k])
    && 0 <= key < Keys && |st'.keys[key]| == |st.keys[key]|
    && forall l :: 0 <= l < |st.keys[key]| ==>
         && st'.keys[key][l].vars == st.keys[key][l].vars
         && (l != layer ==> st'.keys[key][l].rr == st.keys[key][l].rr)
  }

  /** Preconditions of the source: the curved velocity lies in [0, 1], and
      the layer it selects is not empty (the cursor update divides by its
      variation count). Neither is checked when there are no layers. */
  ghost predicate CanSelect(st: Store, c: Controls.Bank, m: Math, key: int, vel: real)
    requires Valid(st) && Controls.Valid(c) && 0 <= key < Keys
  {
    NumLayers(st, key) > 0 ==>
      && 0.0 <= Curved(c, m, vel) <= 1.0
      && NumSamples(st, key, PrimaryLayer(NumLayers(st, key), Mixing(c), Curved(c, m, vel))) > 0
  }

  /** sstore_get_samples: pick the primary layer from the velocity, advance
      that layer's round-robin cursor and return the variation it lands on.
      With mixing on, below the top layer, and with equal variation counts
      in the two layers, the same variation of the next layer up is the
      second sample and the weight of the first is 1 - frac. */
  function GetSamples(st: Store, c: Controls.Bank, m: Math, key: int, vel: real): (r: (Store, Selection))
    requires Valid(st) && Controls.Valid(c) && 0 <= key < Keys
    requires CanSelect(st, c, m, key, vel)
    ensures Valid(r.0)
    ensures NumLayers(st, key) == 0 ==> r == (st, Selection(None, None, 0.0))
    ensures NumLayers(st, key) > 0 ==>
      var l0 := PrimaryLayer(NumLayers(st, key), Mixing(c), Curved(c, m, vel));
      var ly := st.keys[key][l0];
      && OnlyCursorMoved(st, r.0, key, l0)
      && r.0.keys[key][l0].rr == (ly.rr + 1) % |ly.vars|
      && r.1.first == Some(SampleRef(key, l0, r.0.keys[key][l0].rr))
      && HasSlot(r.0, r.1.first.value)
      && (r.1.second.Some? <==>
            Mixing(c) && l0 < NumLayers(st, key) - 1 && |ly.vars| == NumSamples(st, key, l0 + 1))
      && (r.1.second.Some? ==>
            && r.1.second == Some(SampleRef(key, l0 + 1, r.0.keys[key][l0].rr))
            && HasSlot(r.0, r.1.second.value)
            && 0.0 < r.1.weight <= 1.0)
      && (r.1.second.None? ==> r.1.weight == 1.0)
    ensures !Mixing(c) ==> r.1.second.None?
  {
    var n := NumLayers(st, key);
    if n == 0 then (st, Selection(None, None, 0.0))
    else
      var mix := Mixing(c);
      var reduced := if mix then n - 1 else n;
      var position := Position(n, mix, Curved(c, m, vel));
      var l0 := PrimaryLayer(n, mix, Curved(c, m, vel));
      var ly := st.keys[key][l0];
      var st' := AdvanceCursor(st, key, l0);
      var rr := st'.keys[key][l0].rr;
      var first := Some(SampleRef(key, l0, rr));
      if !mix || l0 == reduced || |ly.vars| != |st.keys[key][l0 + 1].vars| then
        (st', Selection(first, None, 1.0))
      else
        assert l0 as real <= position < l0 as real + 1.0;
        (st', Selection(first, Some(SampleRef(key, l0 + 1, rr)), 1.0 - (position - l0 as real)))
  }

  /** `x` names a slot of the store that holds sample data. */
  ghost predicate HoldsData(st: Store, x: SampleRef) {
    HasSlot(st, x) && IsLoaded(Lookup(st, x))
  }

  /** Precondition of the source: the slots a note selects hold data, as
      sample_interp reads their buffer without a check. A variation number
      skipped in the samples directory, or a file sstore_load rejected,
      leaves an unloaded slot inside a layer's extent. */
  ghost predicate SelectsLoaded(st: Store, c: Controls.Bank, m: Math, key: int, vel: real)
    requires Valid(st) && Controls.Valid(c) && 0 <= key < Keys && CanSelect(st, c, m, key, vel)
  {
    var g := GetSamples(st, c, m, key, vel);
    && (g.1.first.Some? ==> HoldsData(g.0, g.1.first.value))
    && (g.1.second.Some? ==> HoldsData(g.0, g.1.second.value))
  }

  /** The choice reads only the control values: a bank that differs in
      other fields (the pending velocities, say) picks the same samples. */
  lemma SelectionReadsValues(st: Store, c: Controls.Bank, c': Controls.Bank, m: Math, key: int, vel: real)
    requires Valid(st) && Controls.Valid(c) && Controls.Valid(c') && 0 <= key < Keys
    requires c'.value == c.value && CanSelect(st, c, m, key, vel)
    ensures CanSelect(st, c', m, key, vel)
    ensures GetSamples(st, c', m, key, vel) == GetSamples(st, c, m, key, vel)
    ensures SelectsLoaded(st, c, m, key, vel) ==> SelectsLoaded(st, c', m, key, vel)
  {
    assert Mixing(c') == Mixing(c) && Curved(c', m, vel) == Curved(c, m, vel);
  }

  /** Moves the round-robin cursor of a non-empty layer to the next variation. */
  function AdvanceCursor(st: Store, key: int, layer: int): (st': Store)
    requires Valid(st) && 0 <= key < Keys && 0 <= layer < NumLayers(st, key)
    requires NumSamples(st, key, layer) > 0
    ensures Valid(st') && OnlyCursorMoved(st, st', key, layer)
    ensures st'.keys[key][layer].rr == (st.keys[key][layer].rr + 1) % NumSamples(st, key, layer)
  {
    var ly := st.keys[key][layer];
    Store(st.keys[key := st.keys[key][layer := ly.(rr := (ly.rr + 1) % |ly.vars|)]])
  }

  /** The softest note plays the lowest layer and the hardest the top one;
      with mixing on, the top layer is played alone. */
  lemma VelocityExtremes(st: Store, c: Controls.Bank, m: Math, key: int, vel: real)
    requires Valid(st) && Controls.Valid(c) && 0 <= key < Keys
    requires CanSelect(st, c, m, key, vel) && NumLayers(st, key) > 0
    ensures Curved(c, m, vel) == 0.0 ==> GetSamples(st, c, m, key, vel).1.first.value.layer == 0
    ensures Curved(c, m, vel) == 1.0 ==>
      && GetSamples(st, c, m, key, vel).1.first.value.layer == NumLayers(st, key) - 1
      && GetSamples(st, c, m, key, vel).1.second.None?
  {
  }

  /** Successive notes on the same layer walk round-robin through its
      variations: the cursor stays below the variation count and two
      consecutive selections return neighbouring variations (mod the count). */
  lemma RoundRobinAdvances(st: Store, c: Controls.Bank, m: Math, key: int, vel: real)
    requires Valid(st) && Controls.Valid(c) && 0 <= key < Keys
    requires CanSelect(st, c, m, key, vel) && NumLayers(st, key) > 0
    ensures var (st1, sel1) := GetSamples(st, c, m, key, vel);
      && CanSelect(st1, c, m, key, vel)
      && var sel2 := GetSamples(st1, c, m, key, vel).1;
      && sel2.first.value.layer == sel1.first.value.layer
      && sel2.first.value.variation
         == (sel1.first.value.variation + 1) % NumSamples(st, key, sel1.first.value.layer)
  {
    var (st1, sel1) := GetSamples(st, c, m, key, vel);
    assert NumLayers(st1, key) == NumLayers(st, key);
    var l0 := sel1.first.value.layer;
    assert NumSamples(st1, key, l0) == NumSamples(st, key, l0);
  }

  // ---------------------------------------------------------------------
  // _sstore_init
  // ---------------------------------------------------------------------

  /** One slot of `_sstore_init(freeMem)` in the order the source writes it:
      the owner flag is cleared first and checked afterwards. The second
      component says whether the buffer is freed. */
  function ResetSlotAsWritten(s: Sample, freeMem: bool): (r: (Sample, bool))
    ensures r.0 == Unloaded
  {
    var cleared := s.(owner := false, len := 0, idx0 := 0, rms := 0.0, speed := 1.0);
    var freed := freeMem && cleared.data != [] && cleared.owner;
    (cleared.(data := []), freed)
  }

  /** As written, no buffer is ever freed, whatever the slot held. */
  lemma ResetAsWrittenNeverFrees(s: Sample)
    ensures !ResetSlotAsWritten(s, true).1
  {
  }

  /** A loaded owning slot that unload, as written, fails to free. */
  lemma ResetAsWrittenLeaksOwnedBuffer()
    ensures var s := Sample(true, 1, 0, 1.0, 1.0, [5, -5, 0, 0]);
      IsLoaded(s) && s.owner && !ResetSlotAsWritten(s, true).1
  {
  }

  /** The evidently intended reset: the owner flag is checked before it is
      cleared, so exactly the loaded owning slots free their buffer and a
      borrowing slot never does. */
  function ResetSlot(s: Sample, freeMem: bool): (r: (Sample, bool))
    ensures r.0 == Unloaded
    ensures r.1 <==> freeMem && IsLoaded(s) && s.owner
  {
    var freed := freeMem && s.data != [] && s.owner;
    (Unloaded, freed)
  }

  /** The slots whose buffer the corrected reset frees. */
  function OwnedSlots(st: Store): (r: set<SampleRef>)
    ensures forall x :: x in r <==> HasSlot(st, x) && ResetSlot(Lookup(st, x), true).1
  {
    set k, l, v | 0 <= k < |st.keys| && 0 <= l < |st.keys[k]| && 0 <= v < |st.keys[k][l].vars|
                  && ResetSlot(st.keys[k][l].vars[v], true).1 :: SampleRef(k, l, v)
  }

  /** The slots whose buffer the reset as written frees. */
  function FreedAsWritten(st: Store): (r: set<SampleRef>)
    ensures forall x :: x in r <==> HasSlot(st, x) && ResetSlotAsWritten(Lookup(st, x), true).1
  {
    set k, l, v | 0 <= k < |st.keys| && 0 <= l < |st.keys[k]| && 0 <= v < |st.keys[k][l].vars|
                  && ResetSlotAsWritten(st.keys[k][l].vars[v], true).1 :: SampleRef(k, l, v)
  }

  /** sstore_free_data as written: every counter and cursor is zeroed and
      the freed slots are those `_sstore_init(1)` frees as written. */
  function FreeDataAsWritten(st: Store): (r: (Store, set<SampleRef>))
    requires Valid(st)
    ensures Valid(r.0)
    ensures forall k :: 0 <= k < Keys ==> NumLayers(r.0, k) == 0
    ensures forall x :: x in r.1 <==> HasSlot(st, x) && ResetSlotAsWritten(Lookup(st, x), true).1
  {
    (Empty(), FreedAsWritten(st))
  }

  /** As written, freeing the store frees no buffer at all, while the
      corrected free releases every loaded owning slot. */
  lemma FreeDataAsWrittenLeaks(st: Store)
    requires Valid(st)
    ensures FreeDataAsWritten(st).1 == {}
    ensures FreeData(st).1 == OwnedSlots(st)
    ensures FreeData(st).0 == FreeDataAsWritten(st).0
  {
    forall x | HasSlot(st, x) ensures !ResetSlotAsWritten(Lookup(st, x), true).1 {
      ResetAsWrittenNeverFrees(Lookup(st, x));
    }
  }

  /** sstore_free_data with the corrected slot reset: every counter and
      cursor is zeroed and exactly the loaded owning slots are freed. */
  function FreeData(st: Store): (r: (Store, set<SampleRef>))
    requires Valid(st)
    ensures Valid(r.0)
    ensures forall k :: 0 <= k < Keys ==> NumLayers(r.0, k) == 0
    ensures forall x :: x in r.1 <==> HasSlot(st, x) && IsLoaded(Lookup(st, x)) && Lookup(st, x).owner
  {
    (Empty(), OwnedSlots(st))
  }
}
