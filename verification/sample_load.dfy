/** `sstore_load` (sample.c): every regular file of the samples directory
    whose name reads "on-<key>-<layer>-<variation>" is loaded into that slot
    of the table, with 1-based layer and variation numbers in the name.

    Reading the audio file itself is not modelled: an entry carries the
    channel count, rate and interleaved int16 data the file yields, and the
    tuning in semitones that the tuning file gives for its name. Directory
    entries are taken one after another in the order given. */
module SampleLoad {
  import opened Global
  import opened SampleStore

  // ---------------------------------------------------------------------
  // The "%d" conversion of sscanf
  // ---------------------------------------------------------------------

  predicate IsDigit(c: char) { '0' <= c <= '9' }

  /** isspace in the C locale: space, \t, \n, \v, \f and \r. */
  predicate IsSpace(c: char) { c == ' ' || ('\t' <= c <= '\r') }

  function DigitValue(c: char): (d: nat)
    requires IsDigit(c)
    ensures d <= 9
  {
    (c as int) - ('0' as int)
  }

  /** Length of the run of digits at the front of s. */
  function DigitRun(s: string): (n: nat)
    ensures n <= |s|
    ensures forall t :: 0 <= t < n ==> IsDigit(s[t])
    ensures n < |s| ==> !IsDigit(s[n])
  {
    if |s| > 0 && IsDigit(s[0]) then 1 + DigitRun(s[1..]) else 0
  }

  /** s without its leading white space. */
  function SkipSpace(s: string): (r: string)
    ensures |r| <= |s|
    ensures r != [] ==> !IsSpace(r[0])
  {
    if |s| > 0 && IsSpace(s[0]) then SkipSpace(s[1..]) else s
  }

  predicate AllDigits(ds: string) {
    forall t :: 0 <= t < |ds| ==> IsDigit(ds[t])
  }

  /** The number a string of decimal digits denotes. */
  function DecimalValue(ds: string): nat
    requires AllDigits(ds)
    decreases |ds|
  {
    if ds == [] then 0 else 10 * DecimalValue(ds[..|ds| - 1]) + DigitValue(ds[|ds| - 1])
  }

  /** A converted number and the input left after it. */
  datatype Scanned = Scanned(value: int, rest: string)

  /** One `%d`: white space is skipped, an optional sign is taken, and at
      least one digit must follow; the conversion stops at the first
      non-digit. */
  function ScanInt(s: string): (r: Option<Scanned>)
    ensures r.Some? ==> |r.value.rest| < |s|
  {
    var t := SkipSpace(s);
    var signed := |t| > 0 && (t[0] == '-' || t[0] == '+');
    var u := if signed then t[1..] else t;
    var n := DigitRun(u);
    if n == 0 then None
    else
      var magnitude: int := DecimalValue(u[..n]);
      Some(Scanned(if signed && t[0] == '-' then -magnitude else magnitude, u[n..]))
  }

  /** After one number, "-" and the next number. */
  function ScanDashInt(s: string): Option<Scanned> {
    if |s| > 0 && s[0] == '-' then ScanInt(s[1..]) else None
  }

  /** `sscanf(name, "on-%d-%d-%d", ...) == 3`: the literal prefix, three
      conversions and the dashes between them. What follows the third number
      is ignored. */
  function ScanName(name: string): Option<(int, int, int)>
  {
    if !(|name| >= 3 && name[..3] == "on-") then None
    else match ScanInt(name[3..])
      case None => None
      case Some(a) => match ScanDashInt(a.rest)
        case None => None
        case Some(b) => match ScanDashInt(b.rest)
          case None => None
          case Some(c) => Some((a.value, b.value, c.value))
  }

  predicate InTable(r: SampleRef) {
    0 <= r.key < Keys && 0 <= r.layer < MaxLayers && 0 <= r.variation < MaxVars
  }

  /** The slot three scanned numbers designate, with layer and variation
      converted to 0-based; None when a number is out of range (key 0..127,
      layer and variation 1..128). */
  function SlotOf(key: int, layer: int, variation: int): (r: Option<SampleRef>)
    ensures r.Some? <==> 0 <= key <= 127 && 1 <= layer <= MaxLayers && 1 <= variation <= MaxVars
    ensures r.Some? ==> InTable(r.value) && r.value == SampleRef(key, layer - 1, variation - 1)
  {
    if key < 0 || key > 127 || layer < 1 || layer > MaxLayers || variation < 1 || variation > MaxVars
    then None
    else Some(SampleRef(key, layer - 1, variation - 1))
  }

  /** _parse_sample_filename: the slot a file name designates, if it scans
      and its numbers are in range. */
  function ParseFileName(name: string): (r: Option<SampleRef>)
    ensures r.Some? ==> InTable(r.value)
  {
    match ScanName(name)
    case None => None
    case Some(t) => SlotOf(t.0, t.1, t.2)
  }

  // ---------------------------------------------------------------------
  // Printing names, and the round trip
  // ---------------------------------------------------------------------

  function Digit(d: int): (c: char)
    requires 0 <= d <= 9
    ensures IsDigit(c) && DigitValue(c) == d
  {
    ('0' as int + d) as char
  }

  /** Decimal notation of n, without leading zeros. */
  function Decimal(n: nat): (s: string)
    ensures |s| >= 1 && forall t :: 0 <= t < |s| ==> IsDigit(s[t])
    decreases n
  {
    if n < 10 then [Digit(n)] else Decimal(n / 10) + [Digit(n % 10)]
  }

  lemma {:induction false} DecimalValueOfDecimal(n: nat)
    ensures DecimalValue(Decimal(n)) == n
    decreases n
  {
    if n >= 10 {
      DecimalValueOfDecimal(n / 10);
      var s := Decimal(n);
      assert s[..|s| - 1] == Decimal(n / 10);
    }
  }

  lemma DigitRunOfDigits(ds: string, rest: string)
    requires AllDigits(ds)
    requires rest == [] || !IsDigit(rest[0])
    ensures DigitRun(ds + rest) == |ds|
  {
    var s := ds + rest;
    assert forall t :: 0 <= t < |ds| ==> s[t] == ds[t];
    assert |ds| < |s| ==> s[|ds|] == rest[0];
  }

  /** `%d` reads a run of digits back, stopping at the first non-digit. */
  lemma ScanDigits(ds: string, rest: string)
    requires |ds| >= 1 && AllDigits(ds)
    requires rest == [] || !IsDigit(rest[0])
    ensures ScanInt(ds + rest) == Some(Scanned(DecimalValue(ds), rest))
  {
    var s := ds + rest;
    assert s[..|ds|] == ds && s[|ds|..] == rest;
    assert s[0] == ds[0] && IsDigit(s[0]);
    assert SkipSpace(s) == s;
    DigitRunOfDigits(ds, rest);
    ScanUnsigned(s, |ds|);
  }

  lemma ScanUnsigned(s: string, n: nat)
    requires SkipSpace(s) == s && |s| > 0 && s[0] != '-' && s[0] != '+'
    requires DigitRun(s) == n && n >= 1
    ensures ScanInt(s) == Some(Scanned(DecimalValue(s[..n]), s[n..]))
  {
  }

  lemma ScanDashDigits(ds: string, rest: string)
    requires |ds| >= 1 && AllDigits(ds)
    requires rest == [] || !IsDigit(rest[0])
    ensures ScanDashInt("-" + (ds + rest)) == Some(Scanned(DecimalValue(ds), rest))
  {
    assert ("-" + (ds + rest))[1..] == ds + rest;
    ScanDigits(ds, rest);
  }

  lemma ScanNameFromParts(name: string, a: Scanned, b: Scanned, c: Scanned)
    requires |name| >= 3 && name[..3] == "on-"
    requires ScanInt(name[3..]) == Some(a)
    requires ScanDashInt(a.rest) == Some(b) && ScanDashInt(b.rest) == Some(c)
    ensures ScanName(name) == Some((a.value, b.value, c.value))
  {
  }

  /** The scan of a name made of three digit runs. */
  lemma ScanDigitName(dk: string, dl: string, dv: string, ext: string)
    requires |dk| >= 1 && AllDigits(dk) && |dl| >= 1 && AllDigits(dl) && |dv| >= 1 && AllDigits(dv)
    requires ext == [] || !IsDigit(ext[0])
    ensures ScanName("on-" + (dk + ("-" + (dl + ("-" + (dv + ext))))))
      == Some((DecimalValue(dk) as int, DecimalValue(dl) as int, DecimalValue(dv) as int))
  {
    var r2 := "-" + (dv + ext);
    var r1 := "-" + (dl + r2);
    var name := "on-" + (dk + r1);
    assert name[..3] == "on-" && name[3..] == dk + r1;
    ScanDigits(dk, r1);
    ScanDashDigits(dl, r2);
    ScanDashDigits(dv, ext);
    ScanNameFromParts(name, Scanned(DecimalValue(dk), r1), Scanned(DecimalValue(dl), r2),
                      Scanned(DecimalValue(dv), ext));
  }

  /** The name of the file for key k, 1-based layer l and variation v,
      followed by an extension such as ".wav". */
  function FileName(k: nat, l: nat, v: nat, ext: string): string {
    "on-" + (Decimal(k) + ("-" + (Decimal(l) + ("-" + (Decimal(v) + ext)))))
  }

  lemma ParseFileNameRoundTrip(k: nat, l: nat, v: nat, ext: string)
    requires ext == [] || !IsDigit(ext[0])
    ensures ParseFileName(FileName(k, l, v, ext)) ==
      if k <= 127 && 1 <= l <= MaxLayers && 1 <= v <= MaxVars
      then Some(SampleRef(k, l - 1, v - 1)) else None
  {
    DecimalValueOfDecimal(k);
    DecimalValueOfDecimal(l);
    DecimalValueOfDecimal(v);
    ParseDigitName(Decimal(k), Decimal(l), Decimal(v), ext);
  }

  lemma ParseDigitName(dk: string, dl: string, dv: string, ext: string)
    requires |dk| >= 1 && AllDigits(dk) && |dl| >= 1 && AllDigits(dl) && |dv| >= 1 && AllDigits(dv)
    requires ext == [] || !IsDigit(ext[0])
    ensures ParseFileName("on-" + (dk + ("-" + (dl + ("-" + (dv + ext))))))
      == SlotOf(DecimalValue(dk), DecimalValue(dl), DecimalValue(dv))
  {
    ScanDigitName(dk, dl, dv, ext);
  }

  // ---------------------------------------------------------------------
  // Loading one directory entry
  // ---------------------------------------------------------------------

  /** What reading an audio file yields. */
  datatype AudioFile = AudioFile(channels: int, rate: int, data: seq<int>)

  /** One directory entry: its name, whether it is a regular file, the file
      contents, and the tuning (in semitones) configured for that name. */
  datatype Entry = Entry(name: string, regular: bool, audio: AudioFile, semitones: real)

  /** _load_sample accepts only stereo files at 48 kHz. */
  predicate Accepted(a: AudioFile) {
    a.channels == 2 && a.rate == SampleRate
  }

  /** An entry once its name is parsed: skipped (not a regular file, or a
      name that does not designate a slot), or a file for a slot. */
  datatype Item = Skipped | File(slot: SampleRef, audio: AudioFile, semitones: real)

  function Classify(e: Entry): (it: Item)
    ensures it.File? <==> e.regular && ParseFileName(e.name).Some?
    ensures it.File? ==> InTable(it.slot)
  {
    if !e.regular then Skipped
    else match ParseFileName(e.name)
      case None => Skipped
      case Some(x) => File(x, e.audio, e.semitones)
  }

  /** The sample _load_sample builds from an accepted file: an owning buffer
      of all whole frames plus one zero guard frame, tuned by
      2^(semitones/12), starting at frame 0 with rms 1. */
  function Decode(m: Math, a: AudioFile, semitones: real): (s: Sample)
    ensures SampleOk(s) && IsLoaded(s) && s.owner
    ensures s.idx0 == 0 && s.rms == 1.0 && s.speed == m.pow(2.0, semitones / 12.0)
    ensures s.len == |a.data| / 2 && s.data[..2 * s.len] == a.data[..2 * s.len]
    ensures s.data[2 * s.len] == 0 && s.data[2 * s.len + 1] == 0
  {
    var len := |a.data| / 2;
    Sample(true, len, 0, 1.0, m.pow(2.0, semitones / 12.0), a.data[..2 * len] + [0, 0])
  }

  /** True when every slot of `st` is still a slot of `st'` and, if it was
      loaded, still holds the same sample. */
  ghost predicate KeepsLoaded(st: Store, st': Store) {
    forall x :: HasSlot(st, x) && IsLoaded(Lookup(st, x)) ==>
      HasSlot(st', x) && Lookup(st', x) == Lookup(st, x)
  }

  ghost predicate KeepsOthers(st: Store, st': Store, r: SampleRef) {
    forall x :: HasSlot(st, x) && x != r ==> HasSlot(st', x) && Lookup(st', x) == Lookup(st, x)
  }

  /** Every slot of `st` is still there in `st'`, holding the same sample. */
  ghost predicate KeepsSlots(st: Store, st': Store) {
    forall x :: HasSlot(st, x) ==> HasSlot(st', x) && Lookup(st', x) == Lookup(st, x)
  }

  /** Grows key `key` to at least n layers; the new layers are empty. */
  function GrowKey(st: Store, key: int, n: int): (st': Store)
    requires Valid(st) && 0 <= key < Keys && n <= MaxLayers
    ensures Valid(st') && KeepsSlots(st, st')
    ensures NumLayers(st', key) == Max(NumLayers(st, key), n)
    ensures forall k :: 0 <= k < Keys && k != key ==> st'.keys[k] == st.keys[k]
    ensures forall l :: NumLayers(st, key) <= l < NumLayers(st', key) ==> st'.keys[key][l] == Layer([], 0)
  {
    var ls := st.keys[key];
    if |ls| >= n then st
    else
      var st' := Store(st.keys[key := ls + seq(n - |ls|, _ => Layer([], 0))]);
      assert forall l :: 0 <= l < |ls| ==> st'.keys[key][l] == ls[l];
      st'
  }

  /** Grows layer `layer` of key `key` to at least n variations; the new
      slots are unloaded. */
  function GrowLayer(st: Store, key: int, layer: int, n: int): (st': Store)
    requires Valid(st) && 0 <= key < Keys && 0 <= layer < NumLayers(st, key) && n <= MaxVars
    ensures Valid(st') && KeepsSlots(st, st')
    ensures forall k :: 0 <= k < Keys ==> NumLayers(st', k) == NumLayers(st, k)
    ensures NumLayers(st', key) == NumLayers(st, key)
    ensures NumSamples(st', key, layer) == Max(NumSamples(st, key, layer), n)
    ensures forall k :: 0 <= k < Keys && k != key ==> st'.keys[k] == st.keys[k]
    ensures forall v :: NumSamples(st, key, layer) <= v < NumSamples(st', key, layer) ==>
      st'.keys[key][layer].vars[v] == Unloaded
  {
    var ly := st.keys[key][layer];
    if |ly.vars| >= n then st
    else
      var ly' := ly.(vars := ly.vars + seq(n - |ly.vars|, _ => Unloaded));
      assert forall v :: 0 <= v < |ly.vars| ==> ly'.vars[v] == ly.vars[v];
      assert LayerOk(ly');
      Store(st.keys[key := st.keys[key][layer := ly']])
  }

  /** The extent update of sstore_load for slot r: the key grows to at least
      r.layer + 1 layers and that layer to at least r.variation + 1
      variations. This happens before the file is looked at. */
  function Register(st: Store, r: SampleRef): (st': Store)
    requires Valid(st) && InTable(r)
    ensures Valid(st') && HasSlot(st', r) && KeepsSlots(st, st')
    ensures NumLayers(st', r.key) == Max(NumLayers(st, r.key), r.layer + 1)
    ensures NumSamples(st', r.key, r.layer)
      == Max(if r.layer < NumLayers(st, r.key) then NumSamples(st, r.key, r.layer) else 0, r.variation + 1)
    ensures forall k :: 0 <= k < Keys && k != r.key ==> st'.keys[k] == st.keys[k]
    ensures !HasSlot(st, r) ==> Lookup(st', r) == Unloaded
  {
    var st1 := GrowKey(st, r.key, r.layer + 1);
    GrowLayer(st1, r.key, r.layer, r.variation + 1)
  }

  function SetSlot(st: Store, r: SampleRef, s: Sample): (st': Store)
    requires Valid(st) && HasSlot(st, r) && SampleOk(s)
    ensures Valid(st') && HasSlot(st', r) && Lookup(st', r) == s
    ensures forall k :: 0 <= k < Keys ==> |st'.keys[k]| == |st.keys[k]|
    ensures forall k, l :: 0 <= k < Keys && 0 <= l < |st.keys[k]| ==>
      |st'.keys[k][l].vars| == |st.keys[k][l].vars|
    ensures KeepsOthers(st, st', r)
  {
    var ly := st.keys[r.key][r.layer];
    Store(st.keys[r.key := st.keys[r.key][r.layer := ly.(vars := ly.vars[r.variation := s])]])
  }

  /** One entry of sstore_load. None stands for the process exiting, which
      happens when the slot is already loaded. A file that is not accepted
      still extends the key's extents, leaving an unloaded slot behind. */
  function LoadItem(st: Store, m: Math, it: Item): (r: Option<Store>)
    requires Valid(st) && (it.File? ==> InTable(it.slot))
    ensures r.Some? ==> Valid(r.value) && KeepsLoaded(st, r.value)
    ensures it.Skipped? ==> r == Some(st)
    ensures it.File? ==>
      && (r.None? <==> HasSlot(st, it.slot) && IsLoaded(Lookup(st, it.slot)))
      && (r.Some? ==>
            && HasSlot(r.value, it.slot)
            && KeepsOthers(st, r.value, it.slot)
            && (Accepted(it.audio) ==> Lookup(r.value, it.slot) == Decode(m, it.audio, it.semitones))
            && (!Accepted(it.audio) ==> !IsLoaded(Lookup(r.value, it.slot))))
  {
    match it
    case Skipped => Some(st)
    case File(x, audio, semitones) =>
      var st1 := Register(st, x);
      if IsLoaded(Lookup(st1, x)) then None
      else if !Accepted(audio) then Some(st1)
      else Some(SetSlot(st1, x, Decode(m, audio, semitones)))
  }

  ghost predicate ItemsOk(its: seq<Item>) {
    forall i :: 0 <= i < |its| && its[i].File? ==> InTable(its[i].slot)
  }

  /** The items one after another; None when the process exits. */
  function LoadItems(st: Store, m: Math, its: seq<Item>): (r: Option<Store>)
    requires Valid(st) && ItemsOk(its)
    ensures r.Some? ==> Valid(r.value) && KeepsLoaded(st, r.value)
    decreases |its|
  {
    if its == [] then Some(st)
    else match LoadItem(st, m, its[0])
      case None => None
      case Some(st1) => LoadItems(st1, m, its[1..])
  }

  /** sstore_load over the entries of the samples directory. */
  function LoadDirectory(st: Store, m: Math, es: seq<Entry>): (r: Option<Store>)
    requires Valid(st)
    ensures r.Some? ==> Valid(r.value) && KeepsLoaded(st, r.value)
  {
    LoadItems(st, m, seq(|es|, i requires 0 <= i < |es| => Classify(es[i])))
  }

  /** Once loading finishes, every accepted file sits in the slot its name
      designates. */
  lemma {:induction false} LoadPlacesEachFile(st: Store, m: Math, its: seq<Item>, i: int)
    requires Valid(st) && ItemsOk(its) && LoadItems(st, m, its).Some?
    requires 0 <= i < |its| && its[i].File? && Accepted(its[i].audio)
    ensures HasSlot(LoadItems(st, m, its).value, its[i].slot)
    ensures Lookup(LoadItems(st, m, its).value, its[i].slot) == Decode(m, its[i].audio, its[i].semitones)
    decreases |its|
  {
    var st1 := LoadItem(st, m, its[0]).value;
    assert LoadItems(st, m, its) == LoadItems(st1, m, its[1..]);
    if i > 0 {
      LoadPlacesEachFile(st1, m, its[1..], i - 1);
    }
  }

  /** A loaded slot named again by a later file makes the process exit,
      whether or not that later file would be accepted. */
  lemma {:induction false} LoadedSlotNamedAgainExits(st: Store, m: Math, its: seq<Item>, x: SampleRef, j: int)
    requires Valid(st) && ItemsOk(its) && HasSlot(st, x) && IsLoaded(Lookup(st, x))
    requires 0 <= j < |its| && its[j].File? && its[j].slot == x
    ensures LoadItems(st, m, its).None?
    decreases |its|
  {
    match LoadItem(st, m, its[0])
    case None =>
    case Some(st1) =>
      if j > 0 {
        LoadedSlotNamedAgainExits(st1, m, its[1..], x, j - 1);
      }
  }

  /** Two files naming the same slot, the first of them accepted, make the
      load exit. */
  lemma {:induction false} DuplicateExits(st: Store, m: Math, its: seq<Item>, i: int, j: int)
    requires Valid(st) && ItemsOk(its) && 0 <= i < j < |its|
    requires its[i].File? && its[j].File? && its[i].slot == its[j].slot && Accepted(its[i].audio)
    ensures LoadItems(st, m, its).None?
    decreases |its|
  {
    match LoadItem(st, m, its[0])
    case None =>
    case Some(st1) =>
      if i > 0 {
        DuplicateExits(st1, m, its[1..], i - 1, j - 1);
      } else {
        LoadedSlotNamedAgainExits(st1, m, its[1..], its[0].slot, j - 1);
      }
  }
}
