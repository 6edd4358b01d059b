/** Spreading samples across keys (sample.c): `_copy_samples`, the
    round-robin borrowing of `sstore_borrow_samples` and the gap filling of
    `sstore_fill_samples`. A copied slot shares the donor's buffer, is marked
    as not owning it, and plays retuned by 2^((to - from)/12). */
module SampleCopy {
  import opened Global
  import opened SampleStore

  /** The copy a recipient key makes of a donor's sample. */
  function AsBorrowed(s: Sample, ratio: real): (b: Sample)
    ensures !b.owner && b.speed == s.speed * ratio
    ensures b.data == s.data && b.len == s.len && b.idx0 == s.idx0 && b.rms == s.rms
  {
    s.(owner := false, speed := s.speed * ratio)
  }

  /** Number of variations that own their buffer. */
  function OwnedCount(vs: seq<Sample>): (n: nat)
    ensures n <= |vs|
    decreases |vs|
  {
    if vs == [] then 0 else (if vs[0].owner then 1 else 0) + OwnedCount(vs[1..])
  }

  lemma {:induction false} OwnedCountAppend(a: seq<Sample>, b: seq<Sample>)
    ensures OwnedCount(a + b) == OwnedCount(a) + OwnedCount(b)
    decreases |a|
  {
    if a != [] {
      assert (a + b)[0] == a[0];
      assert (a + b)[1..] == a[1..] + b;
      OwnedCountAppend(a[1..], b);
    } else {
      assert a + b == b;
    }
  }

  lemma {:induction false} NoOwners(vs: seq<Sample>)
    requires forall i :: 0 <= i < |vs| ==> !vs[i].owner
    ensures OwnedCount(vs) == 0
    decreases |vs|
  {
    if vs != [] {
      NoOwners(vs[1..]);
    }
  }

  /** How many variations a copy takes from a donor layer. */
  function SelectedCount(vs: seq<Sample>, owned: bool): nat {
    if owned then OwnedCount(vs) else |vs|
  }

  /** The donor's owning variations, in order. */
  function Owners(vs: seq<Sample>): (r: seq<Sample>)
    ensures |r| == OwnedCount(vs)
    ensures forall i :: 0 <= i < |r| ==> r[i].owner
    decreases |vs|
  {
    if vs == [] then [] else (if vs[0].owner then [vs[0]] else []) + Owners(vs[1..])
  }

  /** What _copy_samples appends for one donor layer: a borrowed copy of
      every variation, or of the owning ones only when `owned`, in order. */
  function Borrowed(vs: seq<Sample>, owned: bool, ratio: real): (r: seq<Sample>)
    ensures |r| == SelectedCount(vs, owned)
    ensures forall i :: 0 <= i < |r| ==> !r[i].owner
    ensures !owned ==> forall i :: 0 <= i < |r| ==> r[i] == AsBorrowed(vs[i], ratio)
    decreases |vs|
  {
    if vs == [] then []
    else (if !owned || vs[0].owner then [AsBorrowed(vs[0], ratio)] else []) + Borrowed(vs[1..], owned, ratio)
  }

  /** Borrowing for round robin copies exactly the owners. */
  lemma {:induction false} BorrowedOwnedCopiesOwners(vs: seq<Sample>, ratio: real)
    ensures Borrowed(vs, true, ratio) == Borrowed(Owners(vs), false, ratio)
    decreases |vs|
  {
    if vs != [] {
      BorrowedOwnedCopiesOwners(vs[1..], ratio);
      var head := if vs[0].owner then [vs[0]] else [];
      var os := Owners(vs[1..]);
      assert Owners(vs) == head + os;
      BorrowedAppend(head, os, ratio);
    }
  }

  lemma {:induction false} BorrowedAppend(a: seq<Sample>, b: seq<Sample>, ratio: real)
    ensures Borrowed(a + b, false, ratio) == Borrowed(a, false, ratio) + Borrowed(b, false, ratio)
    decreases |a|
  {
    if a == [] {
      assert a + b == b;
    } else {
      assert (a + b)[1..] == a[1..] + b;
      BorrowedAppend(a[1..], b, ratio);
    }
  }

  lemma {:induction false} BorrowedOk(vs: seq<Sample>, owned: bool, ratio: real)
    requires forall i :: 0 <= i < |vs| ==> SampleOk(vs[i])
    ensures forall i :: 0 <= i < |Borrowed(vs, owned, ratio)| ==> SampleOk(Borrowed(vs, owned, ratio)[i])
    decreases |vs|
  {
    if vs != [] {
      BorrowedOk(vs[1..], owned, ratio);
    }
  }

  lemma {:induction false} BorrowedOwnedAppend(a: seq<Sample>, b: seq<Sample>, ratio: real)
    ensures Borrowed(a + b, true, ratio) == Borrowed(a, true, ratio) + Borrowed(b, true, ratio)
    decreases |a|
  {
    if a == [] {
      assert a + b == b;
    } else {
      assert (a + b)[0] == a[0];
      assert (a + b)[1..] == a[1..] + b;
      BorrowedOwnedAppend(a[1..], b, ratio);
    }
  }

  lemma {:induction false} BorrowedOwnedNone(vs: seq<Sample>, ratio: real)
    requires forall i :: 0 <= i < |vs| ==> !vs[i].owner
    ensures Borrowed(vs, true, ratio) == []
    decreases |vs|
  {
    if vs != [] {
      BorrowedOwnedNone(vs[1..], ratio);
    }
  }

  // ---------------------------------------------------------------------
  // _copy_samples
  // ---------------------------------------------------------------------

  /** The retuning factor for playing a sample of `from` at key `to`. */
  function Ratio(m: Math, to: int, from: int): real {
    m.pow(2.0, (to - from) as real / 12.0)
  }

  /** The key pair _copy_samples accepts: both keys exist and differ. */
  predicate CopyGuard(to: int, from: int) {
    0 <= to < Keys && 0 <= from < Keys && to != from
  }

  /** The source writes copies at index numSamples[to][layer] without a
      bound check: the copies must fit in MAX_VARS. Copying into a key with
      no layers needs nothing, as a donor layer never exceeds MAX_VARS. */
  ghost predicate CopyFits(st: Store, to: int, from: int, owned: bool)
    requires Valid(st)
  {
    CopyGuard(to, from) && NumLayers(st, to) == NumLayers(st, from) ==>
      forall l :: 0 <= l < NumLayers(st, from) ==>
        NumSamples(st, to, l) + SelectedCount(st.keys[from][l].vars, owned) <= MaxVars
  }

  /** The layers of `to` that copies are appended to: its own, or, when it
      has none, as many empty layers as the donor has. */
  function Base(st: Store, to: int, n: nat): (r: seq<Layer>)
    requires Valid(st) && 0 <= to < Keys
  {
    if NumLayers(st, to) == 0 then seq(n, _ => Layer([], 0)) else st.keys[to]
  }

  /** True when _copy_samples gets past its guards and copies. */
  predicate Copies(st: Store, to: int, from: int)
    requires Valid(st)
  {
    && CopyGuard(to, from) && NumLayers(st, from) > 0
    && (NumLayers(st, to) == 0 || NumLayers(st, to) == NumLayers(st, from))
  }

  /** _copy_samples(to, from, owned): append to every layer of `to` a
      borrowed copy of the selected variations of the same layer of `from`.
      An empty recipient first takes the donor's layer count. Nothing
      happens for a bad key pair, an empty donor, or differing layer counts.
      The flag says whether anything was copied. */
  function Copy(st: Store, to: int, from: int, owned: bool, m: Math): (r: (Store, bool))
    requires Valid(st) && CopyFits(st, to, from, owned)
    ensures Valid(r.0)
    ensures !Copies(st, to, from) ==> r == (st, false)
    ensures forall k :: 0 <= k < Keys && k != to ==> r.0.keys[k] == st.keys[k]
    ensures Copies(st, to, from) ==>
      && NumLayers(r.0, to) == NumLayers(st, from)
      && forall l :: 0 <= l < NumLayers(st, from) ==>
           r.0.keys[to][l] == Base(st, to, NumLayers(st, from))[l].(vars :=
             Base(st, to, NumLayers(st, from))[l].vars
             + Borrowed(st.keys[from][l].vars, owned, Ratio(m, to, from)))
    ensures r.1 <==> (Copies(st, to, from) &&
      exists l :: 0 <= l < NumLayers(st, from) && SelectedCount(st.keys[from][l].vars, owned) > 0)
  {
    if !CopyGuard(to, from) || NumLayers(st, from) == 0 then (st, false)
    else
      var n := NumLayers(st, from);
      var base := Base(st, to, n);
      if |base| != n then (st, false)
      else
        var ratio := Ratio(m, to, from);
        var layers := seq(n, l requires 0 <= l < n =>
          base[l].(vars := base[l].vars + Borrowed(st.keys[from][l].vars, owned, ratio)));
        var st' := Store(st.keys[to := layers]);
        assert Valid(st') by {
          forall l | 0 <= l < n ensures LayerOk(layers[l]) {
            BorrowedOk(st.keys[from][l].vars, owned, ratio);
          }
        }
        (st', exists l :: 0 <= l < n && SelectedCount(st.keys[from][l].vars, owned) > 0)
  }

  // ---------------------------------------------------------------------
  // What borrowing and filling preserve
  // ---------------------------------------------------------------------

  /** ly' is ly with non-owning variations appended and the cursor kept. */
  ghost predicate LayerExtends(ly: Layer, ly': Layer) {
    && ly'.rr == ly.rr
    && |ly.vars| <= |ly'.vars| && ly'.vars[..|ly.vars|] == ly.vars
    && forall v :: |ly.vars| <= v < |ly'.vars| ==> !ly'.vars[v].owner
  }

  /** Every key keeps its layer count, and every layer only grows by
      non-owning copies. */
  ghost predicate Extends(st: Store, st': Store) {
    && |st'.keys| == |st.keys|
    && forall k :: 0 <= k < |st.keys| ==>
         && |st'.keys[k]| == |st.keys[k]|
         && forall l :: 0 <= l < |st.keys[k]| ==> LayerExtends(st.keys[k][l], st'.keys[k][l])
  }

  lemma LayerExtendsTrans(a: Layer, b: Layer, c: Layer)
    requires LayerExtends(a, b) && LayerExtends(b, c)
    ensures LayerExtends(a, c)
  {
    assert c.vars[..|a.vars|] == c.vars[..|b.vars|][..|a.vars|];
  }

  lemma ExtendsTrans(a: Store, b: Store, c: Store)
    requires Extends(a, b) && Extends(b, c)
    ensures Extends(a, c)
  {
    forall k, l | 0 <= k < |a.keys| && 0 <= l < |a.keys[k]|
      ensures LayerExtends(a.keys[k][l], c.keys[k][l])
    {
      LayerExtendsTrans(a.keys[k][l], b.keys[k][l], c.keys[k][l]);
    }
  }

  lemma ExtendsRefl(st: Store)
    ensures Extends(st, st)
  {
    forall k, l | 0 <= k < |st.keys| && 0 <= l < |st.keys[k]|
      ensures LayerExtends(st.keys[k][l], st.keys[k][l])
    {
      assert st.keys[k][l].vars[..|st.keys[k][l].vars|] == st.keys[k][l].vars;
    }
  }

  /** Extending a layer never changes how many variations own a buffer. */
  lemma ExtendsKeepsOwned(ly: Layer, ly': Layer)
    requires LayerExtends(ly, ly')
    ensures OwnedCount(ly'.vars) == OwnedCount(ly.vars)
  {
    var n := |ly.vars|;
    assert ly'.vars == ly.vars + ly'.vars[n..];
    OwnedCountAppend(ly.vars, ly'.vars[n..]);
    NoOwners(ly'.vars[n..]);
  }

  /** Extending a layer does not change what borrowing takes from it. */
  lemma BorrowedOwnedExtends(ly: Layer, ly': Layer, ratio: real)
    requires LayerExtends(ly, ly')
    ensures Borrowed(ly'.vars, true, ratio) == Borrowed(ly.vars, true, ratio)
  {
    var n := |ly.vars|;
    assert ly'.vars == ly.vars + ly'.vars[n..];
    BorrowedOwnedAppend(ly.vars, ly'.vars[n..], ratio);
    BorrowedOwnedNone(ly'.vars[n..], ratio);
  }

  // ---------------------------------------------------------------------
  // sstore_borrow_samples
  // ---------------------------------------------------------------------

  /** What `_copy_samples(to, from, true)` appends to layer l of a key
      `to` that has layers: retuned copies of the owners of the same layer
      of `from`, when `from` is another key with as many layers. */
  function Lent(st: Store, to: int, from: int, l: int, m: Math): seq<Sample>
    requires Valid(st) && 0 <= to < Keys && 0 <= l < NumLayers(st, to)
  {
    if 0 <= from < Keys && from != to && NumLayers(st, from) == NumLayers(st, to)
    then Borrowed(st.keys[from][l].vars, true, Ratio(m, to, from))
    else []
  }

  /** Everything `d` borrowing passes append to layer l of key `to`: for
      dist = 1 .. d, what key to - dist lends and then what to + dist lends. */
  function Gathered(st: Store, to: int, l: int, d: int, m: Math): seq<Sample>
    requires Valid(st) && 0 <= to < Keys && 0 <= l < NumLayers(st, to)
    decreases d
  {
    if d <= 0 then []
    else Gathered(st, to, l, d - 1, m) + Lent(st, to, to - d, l, m) + Lent(st, to, to + d, l, m)
  }

  /** What a key lends is the same once borrowing has extended the store. */
  lemma LentExtends(st: Store, r: Store, to: int, from: int, l: int, m: Math)
    requires Valid(st) && Valid(r) && Extends(st, r) && 0 <= to < Keys && 0 <= l < NumLayers(st, to)
    ensures Lent(r, to, from, l, m) == Lent(st, to, from, l, m)
  {
    if 0 <= from < Keys && from != to && NumLayers(st, from) == NumLayers(st, to) {
      BorrowedOwnedExtends(st.keys[from][l], r.keys[from][l], Ratio(m, to, from));
    }
  }

  /** Layer l of key k of `r` is that of `st` with `g` appended. */
  ghost predicate LayerBorrowed(st: Store, r: Store, k: int, l: int, g: seq<Sample>)
    requires Valid(st) && 0 <= k < Keys && 0 <= l < NumLayers(st, k)
  {
    && k < |r.keys| && l < |r.keys[k]|
    && r.keys[k][l].vars == st.keys[k][l].vars + g
  }

  /** What every layer has gathered, by key and layer. */
  type Table = (int, int) -> seq<Sample>

  /** t says what every layer has gathered after d passes. */
  ghost predicate Tabulates(st: Store, m: Math, d: int, t: Table)
    requires Valid(st)
  {
    forall k, l {:trigger Gathered(st, k, l, d, m)} :: 0 <= k < Keys && 0 <= l < NumLayers(st, k) ==>
      t(k, l) == Gathered(st, k, l, d, m)
  }

  /** The table of what every layer has gathered after d passes. */
  lemma TableAfter(st: Store, m: Math, d: int) returns (t: Table)
    requires Valid(st)
    ensures Tabulates(st, m, d, t)
  {
    t := (k: int, l: int) => if Valid(st) && 0 <= k < Keys && 0 <= l < NumLayers(st, k) then Gathered(st, k, l, d, m) else [];
  }

  /** What layer l of key k has gathered when a pass has reached toKey:
      `after` for the keys it has visited, `before` for the others. */
  function Pick(before: Table, after: Table, k: int, l: int, toKey: int): seq<Sample> {
    if k < toKey then after(k, l) else before(k, l)
  }

  /** Borrowing so far: the keys below toKey have gathered what `after`
      says, the others what `before` says. */
  ghost predicate BorrowedUpTo(st: Store, r: Store, toKey: int, before: Table, after: Table)
    requires Valid(st)
  {
    forall k, l :: 0 <= k < Keys && 0 <= l < NumLayers(st, k) ==> LayerBorrowed(st, r, k, l, Pick(before, after, k, l, toKey))
  }

  /** Pass `dist` turns what layer l of key k has gathered from `before`
      into `after`: it appends what the keys dist below and above lend. */
  ghost predicate LendsAt(st: Store, m: Math, dist: int, before: Table, after: Table, k: int, l: int)
    requires Valid(st) && 0 <= k < Keys && 0 <= l < NumLayers(st, k)
  {
    after(k, l) == before(k, l) + Lent(st, k, k - dist, l, m) + Lent(st, k, k + dist, l, m)
  }

  ghost predicate PassLends(st: Store, m: Math, dist: int, before: Table, after: Table)
    requires Valid(st)
  {
    forall k, l :: 0 <= k < Keys && 0 <= l < NumLayers(st, k) ==> LendsAt(st, m, dist, before, after, k, l)
  }

  /** Pass `dist` appends to what dist - 1 passes gathered. */
  lemma GatheredStep(st: Store, to: int, l: int, done: int, dist: int, m: Math)
    requires Valid(st) && 0 <= to < Keys && 0 <= l < NumLayers(st, to) && dist >= 1 && done == dist - 1
    ensures Gathered(st, to, l, dist, m) == Gathered(st, to, l, done, m) + Lent(st, to, to - dist, l, m) + Lent(st, to, to + dist, l, m)
  {
    var below, above := Lent(st, to, to - dist, l, m), Lent(st, to, to + dist, l, m);
    assert Gathered(st, to, l, dist, m) == Gathered(st, to, l, dist - 1, m) + below + above;
  }

  /** Pass `dist` takes every layer from dist - 1 passes to dist. */
  lemma TabulatedLends(st: Store, m: Math, done: int, dist: int, before: Table, after: Table)
    requires Valid(st) && dist >= 1 && done == dist - 1
    requires Tabulates(st, m, done, before) && Tabulates(st, m, dist, after)
    ensures PassLends(st, m, dist, before, after)
  {
    forall k, l | 0 <= k < Keys && 0 <= l < NumLayers(st, k)
      ensures LendsAt(st, m, dist, before, after, k, l)
    {
      GatheredStep(st, k, l, done, dist, m);
      assert before(k, l) == Gathered(st, k, l, done, m);
    }
  }

  lemma BorrowedUpToStart(st: Store, m: Math, before: Table, after: Table)
    requires Valid(st) && Tabulates(st, m, 0, before)
    ensures BorrowedUpTo(st, st, 0, before, after)
  {
    forall k, l | 0 <= k < Keys && 0 <= l < NumLayers(st, k)
      ensures LayerBorrowed(st, st, k, l, Pick(before, after, k, l, 0))
    {
      assert before(k, l) == Gathered(st, k, l, 0, m);
      assert st.keys[k][l].vars + [] == st.keys[k][l].vars;
    }
  }

  /** Appending in three steps is appending the three parts at once. */
  lemma AppendThree(a: seq<Sample>, g: seq<Sample>, lo: seq<Sample>, hi: seq<Sample>)
    ensures a + g + lo + hi == a + (g + lo + hi)
  {
  }

  /** Appending what the keys below and above lend to a layer that has
      gathered g leaves it with g and those two gathered. */
  lemma LayerBorrowedStep(st: Store, r: Store, r2: Store, k: int, l: int, g: seq<Sample>, g2: seq<Sample>,
                          mid: seq<Sample>, below: seq<Sample>, above: seq<Sample>)
    requires Valid(st) && 0 <= k < Keys && 0 <= l < NumLayers(st, k)
    requires LayerBorrowed(st, r, k, l, g) && g2 == g + below + above
    requires k < |r2.keys| && l < |r2.keys[k]|
    requires mid == r.keys[k][l].vars + below && r2.keys[k][l].vars == mid + above
    ensures LayerBorrowed(st, r2, k, l, g2)
  {
    AppendThree(st.keys[k][l].vars, g, below, above);
  }

  /** Borrowing into one key, from below and then from above, completes
      that key's pass on each of its layers. */
  lemma KeyBorrowedStep(st: Store, r: Store, r1: Store, r2: Store, toKey: int, dist: int, m: Math,
                        before: Table, after: Table)
    requires Valid(st) && Valid(r) && Valid(r1) && 0 <= toKey < Keys && dist >= 1
    requires Extends(st, r) && Extends(st, r1) && Extends(st, r2)
    requires forall l :: 0 <= l < NumLayers(st, toKey) ==> LayerBorrowed(st, r, toKey, l, before(toKey, l))
    requires forall l :: 0 <= l < NumLayers(st, toKey) ==> LendsAt(st, m, dist, before, after, toKey, l)
    requires forall l :: 0 <= l < NumLayers(r, toKey) ==>
      r1.keys[toKey][l].vars == r.keys[toKey][l].vars + Lent(r, toKey, toKey - dist, l, m)
    requires forall l :: 0 <= l < NumLayers(r1, toKey) ==>
      r2.keys[toKey][l].vars == r1.keys[toKey][l].vars + Lent(r1, toKey, toKey + dist, l, m)
    ensures forall l :: 0 <= l < NumLayers(st, toKey) ==> LayerBorrowed(st, r2, toKey, l, after(toKey, l))
  {
    forall l | 0 <= l < NumLayers(st, toKey)
      ensures LayerBorrowed(st, r2, toKey, l, after(toKey, l))
    {
      assert LendsAt(st, m, dist, before, after, toKey, l);
      LentExtends(st, r, toKey, toKey - dist, l, m);
      LentExtends(st, r1, toKey, toKey + dist, l, m);
      LayerBorrowedStep(st, r, r2, toKey, l, before(toKey, l), after(toKey, l), r1.keys[toKey][l].vars,
                        Lent(st, toKey, toKey - dist, l, m), Lent(st, toKey, toKey + dist, l, m));
    }
  }

  /** The layers of key toKey when the pass reaches it. */
  lemma BorrowedBefore(st: Store, r: Store, toKey: int, before: Table, after: Table)
    requires Valid(st) && 0 <= toKey < Keys && BorrowedUpTo(st, r, toKey, before, after)
    ensures forall l :: 0 <= l < NumLayers(st, toKey) ==> LayerBorrowed(st, r, toKey, l, before(toKey, l))
  {
    forall l | 0 <= l < NumLayers(st, toKey)
      ensures LayerBorrowed(st, r, toKey, l, before(toKey, l))
    {
      assert LayerBorrowed(st, r, toKey, l, Pick(before, after, toKey, l, toKey));
    }
  }

  /** Completing key toKey, with the other keys unchanged, moves the pass on
      by one key. */
  lemma BorrowedUpToStep(st: Store, r: Store, r2: Store, toKey: int, before: Table, after: Table)
    requires Valid(st) && 0 <= toKey < Keys && BorrowedUpTo(st, r, toKey, before, after)
    requires forall k :: 0 <= k < Keys && k != toKey ==> k < |r.keys| && k < |r2.keys| && r2.keys[k] == r.keys[k]
    requires forall l :: 0 <= l < NumLayers(st, toKey) ==> LayerBorrowed(st, r2, toKey, l, after(toKey, l))
    ensures BorrowedUpTo(st, r2, toKey + 1, before, after)
  {
    var next := toKey + 1;
    forall k, l | 0 <= k < Keys && 0 <= l < NumLayers(st, k)
      ensures LayerBorrowed(st, r2, k, l, Pick(before, after, k, l, next))
    {
      if k != toKey {
        assert Pick(before, after, k, l, next) == Pick(before, after, k, l, toKey);
        assert LayerBorrowed(st, r, k, l, Pick(before, after, k, l, toKey));
        assert r2.keys[k] == r.keys[k];
      } else {
        assert Pick(before, after, k, l, next) == after(k, l);
      }
    }
  }

  /** A key without layers has nothing to borrow into. */
  lemma BorrowedUpToEmpty(st: Store, r: Store, toKey: int, before: Table, after: Table)
    requires Valid(st) && Valid(r) && Extends(st, r) && 0 <= toKey < Keys && NumLayers(r, toKey) == 0
    requires BorrowedUpTo(st, r, toKey, before, after)
    ensures BorrowedUpTo(st, r, toKey + 1, before, after)
  {
    var next := toKey + 1;
    forall k, l | 0 <= k < Keys && 0 <= l < NumLayers(st, k)
      ensures LayerBorrowed(st, r, k, l, Pick(before, after, k, l, next))
    {
      assert LayerBorrowed(st, r, k, l, Pick(before, after, k, l, toKey));
    }
  }

  /** A per-layer size under which `maxDist` borrowing passes stay within
      MAX_VARS: each pass adds at most two donors' owners to a layer. */
  function Budget(maxDist: int): int
    requires maxDist >= 1
  {
    MaxVars / (2 * maxDist + 1)
  }

  /** The size bound on a layer at the start of pass `dist`. */
  function Cap(maxDist: int, dist: int): int
    requires maxDist >= 1
  {
    Budget(maxDist) * (2 * dist - 1)
  }

  lemma CapFacts(maxDist: int, dist: int)
    requires 1 <= dist <= maxDist
    ensures 0 <= Budget(maxDist)
    ensures Cap(maxDist, dist) + 2 * Budget(maxDist) == Cap(maxDist, dist + 1)
    ensures Cap(maxDist, dist + 1) <= MaxVars
  {
    var b := Budget(maxDist);
    assert b * (2 * maxDist + 1) <= MaxVars;
    assert b * (2 * dist + 1) <= b * (2 * maxDist + 1) by {
      MulMonotone(b, 2 * dist + 1, 2 * maxDist + 1);
    }
    assert b * (2 * dist - 1) + 2 * b == b * (2 * (dist + 1) - 1);
  }

  lemma MulMonotone(a: int, x: int, y: int)
    requires 0 <= a && x <= y
    ensures a * x <= a * y
  {
  }

  /** The precondition the source leaves to its caller: borrowing with
      maxDist >= 1 must not overflow a layer. Stated as a bound on every
      layer before borrowing. */
  predicate BorrowFits(st: Store, maxDist: int)
    requires Valid(st)
  {
    maxDist >= 1 ==>
      forall k, l :: 0 <= k < Keys && 0 <= l < NumLayers(st, k) ==> NumSamples(st, k, l) <= Budget(maxDist)
  }

  /** Every layer has at most b owners. */
  ghost predicate OwnersWithin(st: Store, b: int)
    requires Valid(st)
  {
    forall k, l :: 0 <= k < Keys && 0 <= l < NumLayers(st, k) ==> OwnedCount(st.keys[k][l].vars) <= b
  }

  /** Before key toKey of a pass: every layer has at most b owners and at
      most `cap` variations, 2b more for keys the pass has visited. */
  ghost predicate WithinBudget(st: Store, b: int, cap: int, toKey: int)
    requires Valid(st)
  {
    && OwnersWithin(st, b)
    && forall k, l :: 0 <= k < Keys && 0 <= l < NumLayers(st, k) ==>
         NumSamples(st, k, l) <= cap + (if k < toKey then 2 * b else 0)
  }

  /** One round-robin borrow into `to` from the owners of the same layer of
      `from`. */
  function BorrowStep(st: Store, to: int, from: int, ghost b: int, m: Math): (r: Store)
    requires Valid(st) && 0 <= to < Keys && NumLayers(st, to) > 0 && 0 <= b
    requires OwnersWithin(st, b)
    requires forall l :: 0 <= l < NumLayers(st, to) ==> NumSamples(st, to, l) + b <= MaxVars
    ensures Valid(r) && Extends(st, r) && OwnersWithin(r, b)
    ensures forall k :: 0 <= k < Keys && k != to ==> r.keys[k] == st.keys[k]
    ensures NumLayers(r, to) == NumLayers(st, to)
    ensures forall l :: 0 <= l < NumLayers(st, to) ==> NumSamples(r, to, l) <= NumSamples(st, to, l) + b
    ensures forall l :: 0 <= l < NumLayers(st, to) ==> r.keys[to][l].vars == st.keys[to][l].vars + Lent(st, to, from, l, m)
  {
    assert CopyFits(st, to, from, true);
    var r := Copy(st, to, from, true, m).0;
    assert Extends(st, r) by {
      ExtendsRefl(st);
      if Copies(st, to, from) {
        forall l | 0 <= l < NumLayers(st, to)
          ensures LayerExtends(st.keys[to][l], r.keys[to][l])
        {
          var ly := st.keys[to][l];
          assert r.keys[to][l].vars[..|ly.vars|] == ly.vars;
        }
      }
    }
    OwnersStayWithin(st, r, b);
    r
  }

  lemma OwnersStayWithin(st: Store, st': Store, b: int)
    requires Valid(st) && Valid(st') && Extends(st, st') && OwnersWithin(st, b)
    ensures OwnersWithin(st', b)
  {
    forall k, l | 0 <= k < Keys && 0 <= l < NumLayers(st', k)
      ensures OwnedCount(st'.keys[k][l].vars) <= b
    {
      ExtendsKeepsOwned(st.keys[k][l], st'.keys[k][l]);
    }
  }

  /** Borrowing into key toKey during pass `dist`: from toKey - dist and
      then from toKey + dist, when the key has layers. */
  method BorrowKey(st: Store, r0: Store, ghost b: int, ghost cap: int, dist: int, toKey: int, m: Math,
                   ghost before: Table, ghost after: Table) returns (r: Store)
    requires Valid(st) && Valid(r0) && Extends(st, r0) && 1 <= dist && 0 <= toKey < Keys
    requires 0 <= b && cap + 2 * b <= MaxVars && PassLends(st, m, dist, before, after)
    requires BorrowedUpTo(st, r0, toKey, before, after) && WithinBudget(r0, b, cap, toKey)
    ensures Valid(r) && Extends(st, r) && BorrowedUpTo(st, r, toKey + 1, before, after)
    ensures WithinBudget(r, b, cap, toKey + 1)
  {
    r := r0;
    if NumLayers(r, toKey) != 0 {
      RoomForTwo(r, toKey, b, cap);
      var r1 := BorrowStep(r, toKey, toKey - dist, b, m);
      var r2 := BorrowStep(r1, toKey, toKey + dist, b, m);
      KeyWithinBudget(r, r1, r2, toKey, b, cap);
      ExtendsTrans(st, r, r1);
      ExtendsTrans(st, r1, r2);
      BorrowedBefore(st, r, toKey, before, after);
      KeyBorrowedStep(st, r, r1, r2, toKey, dist, m, before, after);
      BorrowedUpToStep(st, r, r2, toKey, before, after);
      r := r2;
    } else {
      EmptyKeyWithinBudget(r, toKey, b, cap);
      BorrowedUpToEmpty(st, r, toKey, before, after);
    }
  }

  /** One pass of sstore_borrow_samples, from key toKey on: every key with
      layers borrows from the keys `dist` below and above it. */
  method BorrowPass(st: Store, r0: Store, ghost b: int, ghost cap: int, dist: int, toKey: int, m: Math,
                    ghost before: Table, ghost after: Table) returns (r: Store)
    requires Valid(st) && Valid(r0) && Extends(st, r0) && 1 <= dist && 0 <= toKey <= Keys
    requires 0 <= b && cap + 2 * b <= MaxVars && PassLends(st, m, dist, before, after)
    requires BorrowedUpTo(st, r0, toKey, before, after) && WithinBudget(r0, b, cap, toKey)
    ensures Valid(r) && Extends(st, r) && BorrowedUpTo(st, r, Keys, before, after)
    ensures WithinBudget(r, b, cap, Keys)
    decreases Keys - toKey
  {
    if toKey == Keys {
      r := r0;
    } else {
      var r1 := BorrowKey(st, r0, b, cap, dist, toKey, m, before, after);
      r := BorrowPass(st, r1, b, cap, dist, toKey + 1, m, before, after);
    }
  }

  /** The passes dist = 1 .. maxDist of sstore_borrow_samples; `t` is what
      every layer has gathered by the end. */
  method BorrowPasses(st: Store, maxDist: int, m: Math) returns (r: Store, ghost t: Table, ghost u: Table)
    requires Valid(st) && BorrowFits(st, maxDist) && maxDist >= 1
    ensures Valid(r) && Extends(st, r)
    ensures Tabulates(st, m, maxDist, t) && BorrowedUpTo(st, r, 0, t, u)
  {
    ExtendsRefl(st);
    ghost var lo := TableAfter(st, m, 0);
    ghost var hi := TableAfter(st, m, 1);
    BorrowedUpToStart(st, m, lo, hi);
    BudgetInitially(st, maxDist);
    r, t, u := BorrowPassesFrom(st, st, maxDist, m, lo, hi);
  }

  /** The passes from dist = 1 on, starting from a store that has had none. */
  method BorrowPassesFrom(st: Store, r0: Store, maxDist: int, m: Math, ghost lo0: Table, ghost hi0: Table)
    returns (r: Store, ghost lo: Table, ghost hi: Table)
    requires Valid(st) && Valid(r0) && Extends(st, r0) && maxDist >= 1
    requires Tabulates(st, m, 0, lo0) && Tabulates(st, m, 1, hi0) && BorrowedUpTo(st, r0, 0, lo0, hi0)
    requires WithinBudget(r0, Budget(maxDist), Cap(maxDist, 1), 0)
    ensures Valid(r) && Extends(st, r)
    ensures Tabulates(st, m, maxDist, lo) && BorrowedUpTo(st, r, 0, lo, hi)
  {
    r, lo, hi := r0, lo0, hi0;
    var dist := 1;
    ghost var done, next := 0, hi0;
    while dist < maxDist + 1
      invariant 1 <= dist <= maxDist + 1 && done == dist - 1
      invariant Valid(r) && Extends(st, r)
      invariant Tabulates(st, m, done, lo) && Tabulates(st, m, dist, hi) && BorrowedUpTo(st, r, 0, lo, hi)
      invariant WithinBudget(r, Budget(maxDist), Cap(maxDist, dist), 0)
    {
      r, next := NextPass(st, r, maxDist, dist, m, done, lo, hi);
      lo, hi := hi, next;
      done, dist := dist, dist + 1;
    }
    assert done == maxDist;
  }

  /** Pass `dist`: from what dist - 1 passes gathered (`lo`) to what
      dist passes gather (`hi`); `next` is what pass dist + 1 will reach. */
  method NextPass(st: Store, r0: Store, maxDist: int, dist: int, m: Math, ghost done: int, ghost lo: Table, ghost hi: Table)
    returns (r: Store, ghost next: Table)
    requires Valid(st) && Valid(r0) && Extends(st, r0) && 1 <= dist <= maxDist && done == dist - 1
    requires Tabulates(st, m, done, lo) && Tabulates(st, m, dist, hi) && BorrowedUpTo(st, r0, 0, lo, hi)
    requires WithinBudget(r0, Budget(maxDist), Cap(maxDist, dist), 0)
    ensures Valid(r) && Extends(st, r)
    ensures Tabulates(st, m, dist + 1, next) && BorrowedUpTo(st, r, 0, hi, next)
    ensures WithinBudget(r, Budget(maxDist), Cap(maxDist, dist + 1), 0)
  {
    CapFacts(maxDist, dist);
    TabulatedLends(st, m, done, dist, lo, hi);
    r := BorrowPass(st, r0, Budget(maxDist), Cap(maxDist, dist), dist, 0, m, lo, hi);
    NextPassWithinBudget(r, maxDist, dist);
    next := TableAfter(st, m, dist + 1);
    PassDone(st, r, lo, hi, next);
  }

  /** sstore_borrow_samples(maxDist): for dist = 1 .. maxDist and every
      key `to` that has layers, borrow the owning variations of the same
      layer of to - dist and then of to + dist (when their layer counts
      match). Every layer of a key keeps its variations and cursor and gets
      exactly what its neighbours lend appended; no layer gains an owner. */
  method Borrow(st: Store, maxDist: int, m: Math) returns (r: Store)
    requires Valid(st) && BorrowFits(st, maxDist)
    ensures Valid(r) && Extends(st, r)
    ensures maxDist < 1 ==> r == st
    ensures forall k, l {:trigger r.keys[k][l]} :: 0 <= k < Keys && 0 <= l < NumLayers(st, k) ==>
      r.keys[k][l] == st.keys[k][l].(vars := st.keys[k][l].vars + Gathered(st, k, l, maxDist, m))
    ensures forall k, l {:trigger r.keys[k][l]} :: 0 <= k < Keys && 0 <= l < NumLayers(st, k) ==>
      OwnedCount(r.keys[k][l].vars) == OwnedCount(st.keys[k][l].vars)
  {
    if maxDist >= 1 {
      ghost var t, u;
      r, t, u := BorrowPasses(st, maxDist, m);
      BorrowedAll(st, r, m, maxDist, t, u);
    } else {
      r := st;
      ExtendsRefl(st);
      NothingGathered(st, m, maxDist);
    }
  }

  /** A pass that reached the last key is the next pass at key 0. */
  lemma PassDone(st: Store, r: Store, before: Table, mid: Table, after: Table)
    requires Valid(st) && BorrowedUpTo(st, r, Keys, before, mid)
    ensures BorrowedUpTo(st, r, 0, mid, after)
  {
    forall k, l | 0 <= k < Keys && 0 <= l < NumLayers(st, k)
      ensures LayerBorrowed(st, r, k, l, Pick(mid, after, k, l, 0))
    {
      assert LayerBorrowed(st, r, k, l, Pick(before, mid, k, l, Keys));
    }
  }

  /** After the last pass, every layer holds its own variations followed by
      everything its neighbours lent over d passes. */
  lemma BorrowedAll(st: Store, r: Store, m: Math, d: int, before: Table, after: Table)
    requires Valid(st) && Valid(r) && Extends(st, r)
    requires Tabulates(st, m, d, before) && BorrowedUpTo(st, r, 0, before, after)
    ensures forall k, l {:trigger Gathered(st, k, l, d, m)} :: 0 <= k < Keys && 0 <= l < NumLayers(st, k) ==>
      r.keys[k][l] == st.keys[k][l].(vars := st.keys[k][l].vars + Gathered(st, k, l, d, m))
    ensures forall k, l {:trigger r.keys[k][l]} :: 0 <= k < Keys && 0 <= l < NumLayers(st, k) ==>
      OwnedCount(r.keys[k][l].vars) == OwnedCount(st.keys[k][l].vars)
  {
    forall k, l | 0 <= k < Keys && 0 <= l < NumLayers(st, k)
      ensures r.keys[k][l] == st.keys[k][l].(vars := st.keys[k][l].vars + Gathered(st, k, l, d, m))
      ensures OwnedCount(r.keys[k][l].vars) == OwnedCount(st.keys[k][l].vars)
    {
      assert LayerBorrowed(st, r, k, l, Pick(before, after, k, l, 0));
      assert before(k, l) == Gathered(st, k, l, d, m);
      ExtendsKeepsOwned(st.keys[k][l], r.keys[k][l]);
    }
  }

  /** With no pass to run, nothing is lent. */
  lemma NothingGathered(st: Store, m: Math, d: int)
    requires Valid(st) && d < 1
    ensures forall k, l {:trigger Gathered(st, k, l, d, m)} :: 0 <= k < Keys && 0 <= l < NumLayers(st, k) ==>
      st.keys[k][l] == st.keys[k][l].(vars := st.keys[k][l].vars + Gathered(st, k, l, d, m))
  {
    forall k, l | 0 <= k < Keys && 0 <= l < NumLayers(st, k)
      ensures st.keys[k][l] == st.keys[k][l].(vars := st.keys[k][l].vars + Gathered(st, k, l, d, m))
    {
      assert st.keys[k][l].vars + [] == st.keys[k][l].vars;
    }
  }


  lemma BudgetInitially(st: Store, maxDist: int)
    requires Valid(st) && maxDist >= 1 && BorrowFits(st, maxDist)
    ensures WithinBudget(st, Budget(maxDist), Cap(maxDist, 1), 0)
  {
    var b := Budget(maxDist);
    assert Cap(maxDist, 1) == b;
    forall k, l | 0 <= k < Keys && 0 <= l < NumLayers(st, k)
      ensures OwnedCount(st.keys[k][l].vars) <= b && NumSamples(st, k, l) <= b
    {
      assert NumSamples(st, k, l) <= b;
    }
  }

  lemma RoomForTwo(st: Store, toKey: int, b: int, cap: int)
    requires Valid(st) && 0 <= toKey < Keys && WithinBudget(st, b, cap, toKey) && cap + 2 * b <= MaxVars
    ensures forall l :: 0 <= l < NumLayers(st, toKey) ==> NumSamples(st, toKey, l) + 2 * b <= MaxVars
  {
  }

  lemma KeyWithinBudget(st: Store, st1: Store, st2: Store, toKey: int, b: int, cap: int)
    requires Valid(st) && Valid(st1) && Valid(st2) && 0 <= toKey < Keys && 0 <= b
    requires WithinBudget(st, b, cap, toKey) && OwnersWithin(st2, b)
    requires forall k :: 0 <= k < Keys && k != toKey ==> st1.keys[k] == st.keys[k] && st2.keys[k] == st1.keys[k]
    requires NumLayers(st1, toKey) == NumLayers(st, toKey) && NumLayers(st2, toKey) == NumLayers(st, toKey)
    requires forall l :: 0 <= l < NumLayers(st, toKey) ==> NumSamples(st1, toKey, l) <= NumSamples(st, toKey, l) + b
    requires forall l :: 0 <= l < NumLayers(st, toKey) ==> NumSamples(st2, toKey, l) <= NumSamples(st1, toKey, l) + b
    ensures WithinBudget(st2, b, cap, toKey + 1)
  {
    forall k, l | 0 <= k < Keys && 0 <= l < NumLayers(st2, k)
      ensures NumSamples(st2, k, l) <= cap + (if k < toKey + 1 then 2 * b else 0)
    {
      if k != toKey {
        assert st2.keys[k] == st.keys[k];
        assert NumSamples(st2, k, l) == NumSamples(st, k, l);
        assert NumSamples(st, k, l) <= cap + (if k < toKey then 2 * b else 0);
      } else {
        assert NumSamples(st, k, l) <= cap;
        assert NumSamples(st1, k, l) <= NumSamples(st, k, l) + b;
      }
    }
  }

  lemma EmptyKeyWithinBudget(st: Store, toKey: int, b: int, cap: int)
    requires Valid(st) && 0 <= toKey < Keys && NumLayers(st, toKey) == 0 && WithinBudget(st, b, cap, toKey)
    ensures WithinBudget(st, b, cap, toKey + 1)
  {
  }

  lemma NextPassWithinBudget(st: Store, maxDist: int, dist: int)
    requires Valid(st) && 1 <= dist <= maxDist
    requires WithinBudget(st, Budget(maxDist), Cap(maxDist, dist), Keys)
    ensures WithinBudget(st, Budget(maxDist), Cap(maxDist, dist + 1), 0)
  {
    CapFacts(maxDist, dist);
  }

  // ---------------------------------------------------------------------
  // sstore_fill_samples
  // ---------------------------------------------------------------------

  /** Keys that had layers are left exactly as they were. */
  ghost predicate KeepsPopulated(st: Store, st': Store)
    requires Valid(st) && Valid(st')
  {
    forall k :: 0 <= k < Keys && NumLayers(st, k) != 0 ==> st'.keys[k] == st.keys[k]
  }

  lemma KeepsPopulatedTrans(a: Store, b: Store, c: Store)
    requires Valid(a) && Valid(b) && Valid(c) && KeepsPopulated(a, b) && KeepsPopulated(b, c)
    ensures KeepsPopulated(a, c)
  {
    forall k | 0 <= k < Keys && NumLayers(a, k) != 0 ensures c.keys[k] == a.keys[k] {
      assert NumLayers(b, k) != 0;
    }
  }

  /** One iteration of either inner loop: an empty `to` takes a full copy
      of a populated `from`. The source also evaluates to == -1, reading
      numLayers[-1]; whatever it reads, _copy_samples refuses that key, so
      nothing happens. */
  function FillStep(st: Store, to: int, from: int, m: Math): (r: Store)
    requires Valid(st) && 0 <= from < Keys
    ensures Valid(r) && KeepsPopulated(st, r)
    ensures forall k :: 0 <= k < Keys && k != to ==> r.keys[k] == st.keys[k]
    ensures 0 <= to < Keys && NumLayers(st, from) != 0 ==> NumLayers(r, to) != 0
    ensures NumLayers(st, from) == 0 ==> r == st
  {
    if !(0 <= to < Keys) then st
    else if NumLayers(st, to) == 0 && NumLayers(st, from) != 0 then
      assert CopyFits(st, to, from, false);
      Copy(st, to, from, false, m).0
    else st
  }

  /** What a fill step writes: the empty key gets every layer of the donor,
      every variation as a borrowed copy retuned to the new key, cursors at
      zero. */
  lemma FillStepCopiesDonor(st: Store, to: int, from: int, m: Math)
    requires Valid(st) && 0 <= from < Keys && 0 <= to < Keys
    requires NumLayers(st, to) == 0 && NumLayers(st, from) != 0
    ensures var r := FillStep(st, to, from, m);
      && NumLayers(r, to) == NumLayers(st, from)
      && forall l :: 0 <= l < NumLayers(st, from) ==>
           r.keys[to][l] == Layer(Borrowed(st.keys[from][l].vars, false, Ratio(m, to, from)), 0)
  {
  }

  /** Key `to` of `st` is exactly what a fill step from `from` writes into
      an empty key: the donor's layers as retuned, non-owning copies with
      cursors at zero. */
  ghost predicate CopiedFrom(st: Store, to: int, from: int, m: Math)
    requires Valid(st) && 0 <= to < Keys
  {
    && 0 <= from < Keys && NumLayers(st, from) != 0
    && NumLayers(st, to) == NumLayers(st, from)
    && forall l :: 0 <= l < NumLayers(st, from) ==>
         st.keys[to][l] == Layer(Borrowed(st.keys[from][l].vars, false, Ratio(m, to, from)), 0)
  }

  /** Every key that was empty in `st` and has layers in `r` is a copy of
      a neighbouring key of `r`. */
  ghost predicate FilledFrom(st: Store, r: Store, m: Math)
    requires Valid(st) && Valid(r)
  {
    forall k :: 0 <= k < Keys && NumLayers(st, k) == 0 && NumLayers(r, k) != 0 ==>
      CopiedFrom(r, k, k - 1, m) || CopiedFrom(r, k, k + 1, m)
  }

  lemma FilledFromNothing(st: Store, m: Math)
    requires Valid(st)
    ensures FilledFrom(st, st, m)
  {
  }

  /** A fill step between neighbours keeps every filled key a copy of its
      donor: the donor has layers, so no later step touches it. */
  lemma FillStepFilledFrom(st: Store, r: Store, to: int, from: int, m: Math)
    requires Valid(st) && Valid(r) && KeepsPopulated(st, r) && FilledFrom(st, r, m)
    requires 0 <= from < Keys && (to == from + 1 || to == from - 1)
    ensures FilledFrom(st, FillStep(r, to, from, m), m)
  {
    var r' := FillStep(r, to, from, m);
    forall k | 0 <= k < Keys && NumLayers(st, k) == 0 && NumLayers(r', k) != 0
      ensures CopiedFrom(r', k, k - 1, m) || CopiedFrom(r', k, k + 1, m)
    {
      if k == to && NumLayers(r, to) == 0 {
        FillStepCopiesDonor(r, to, from, m);
        assert r'.keys[from] == r.keys[from];
        if to == from + 1 {
          assert CopiedFrom(r', k, k - 1, m);
        } else {
          assert CopiedFrom(r', k, k + 1, m);
        }
      } else {
        assert r'.keys[k] == r.keys[k];
        if CopiedFrom(r, k, k - 1, m) {
          assert r'.keys[k - 1] == r.keys[k - 1];
          assert CopiedFrom(r', k, k - 1, m);
        } else {
          assert r'.keys[k + 1] == r.keys[k + 1];
          assert CopiedFrom(r', k, k + 1, m);
        }
      }
    }
  }

  /** Every key from lo to hi has layers. */
  ghost predicate Covered(st: Store, lo: int, hi: int)
    requires Valid(st)
  {
    forall k :: lo <= k <= hi && 0 <= k < Keys ==> NumLayers(st, k) != 0
  }

  lemma CoveredKept(st: Store, st': Store, lo: int, hi: int)
    requires Valid(st) && Valid(st') && KeepsPopulated(st, st') && Covered(st, lo, hi)
    ensures Covered(st', lo, hi)
  {
    forall k | lo <= k <= hi && 0 <= k < Keys ensures NumLayers(st', k) != 0 {
      assert st'.keys[k] == st.keys[k];
    }
  }

  /** No key other than 0 and 127 has layers. */
  ghost predicate EdgesOnly(st: Store)
    requires Valid(st)
  {
    forall k :: 1 <= k <= Keys - 2 ==> NumLayers(st, k) == 0
  }

  /** What every fill step keeps: populated keys are untouched, filled
      keys are copies of a neighbour, and a store with samples only at the
      edges does not change. */
  ghost predicate Filling(st: Store, r: Store, m: Math)
    requires Valid(st)
  {
    Valid(r) && KeepsPopulated(st, r) && FilledFrom(st, r, m) && (EdgesOnly(st) ==> r == st)
  }

  /** One step of the first inner loop keeps its invariant. */
  lemma BelowStep(st: Store, r: Store, m: Math, fromKey: int, seed: int, lo: int, hi: int)
    requires Valid(st) && Valid(r) && Filling(st, r, m) && 1 <= fromKey <= Keys - 2
    requires seed >= 1 ==> 0 <= lo <= hi <= Keys - 1 && Covered(r, lo, hi)
    requires seed >= 1 && fromKey < hi ==> Covered(r, lo, Min(hi + 1, Keys - 1))
    ensures var r' := FillStep(r, fromKey + 1, fromKey, m);
      && Valid(r') && Filling(st, r', m)
      && (seed >= 1 ==> Covered(r', lo, hi))
      && (seed >= 1 && fromKey - 1 < hi ==> Covered(r', lo, Min(hi + 1, Keys - 1)))
  {
    var r' := FillStep(r, fromKey + 1, fromKey, m);
    FillStepFilledFrom(st, r, fromKey + 1, fromKey, m);
    KeepsPopulatedTrans(st, r, r');
    if seed >= 1 {
      CoveredKept(r, r', lo, hi);
      if fromKey < hi {
        CoveredKept(r, r', lo, Min(hi + 1, Keys - 1));
      }
    }
  }

  /** One step of the second inner loop keeps its invariant. */
  lemma AboveStep(st: Store, r: Store, m: Math, fromKey: int, seed: int, lo: int, hi: int)
    requires Valid(st) && Valid(r) && Filling(st, r, m) && 0 <= fromKey <= Keys - 2
    requires seed >= 1 ==> 0 <= lo <= hi <= Keys - 1 && Covered(r, lo, hi)
    requires seed >= 1 && fromKey > lo ==> Covered(r, Max(lo - 1, 0), hi)
    ensures var r' := FillStep(r, fromKey - 1, fromKey, m);
      && Valid(r') && Filling(st, r', m)
      && (seed >= 1 ==> Covered(r', lo, hi))
      && (seed >= 1 && fromKey + 1 > lo ==> Covered(r', Max(lo - 1, 0), hi))
  {
    var r' := FillStep(r, fromKey - 1, fromKey, m);
    FillStepFilledFrom(st, r, fromKey - 1, fromKey, m);
    KeepsPopulatedTrans(st, r, r');
    if seed >= 1 {
      CoveredKept(r, r', lo, hi);
      if fromKey > lo {
        CoveredKept(r, r', Max(lo - 1, 0), hi);
      }
    }
  }

  /** The first inner loop of a pass: fill fromKey + 1 for fromKey = 126
      down to 1. A run of keys lo..hi with layers grows by one key up. */
  method FillFromBelow(st: Store, r0: Store, m: Math, ghost seed: int, ghost lo: int, ghost hi: int)
    returns (r: Store)
    requires Valid(st) && Valid(r0) && Filling(st, r0, m)
    requires seed >= 1 ==> 0 <= lo <= hi <= Keys - 1 && 1 <= hi && Covered(r0, lo, hi)
    ensures Valid(r) && Filling(st, r, m)
    ensures seed >= 1 ==> Covered(r, lo, Min(hi + 1, Keys - 1))
  {
    r := r0;
    var fromKey := Keys - 1;
    fromKey := fromKey - 1;
    while fromKey != 0
      invariant 0 <= fromKey <= Keys - 2
      invariant Valid(r) && Filling(st, r, m)
      invariant seed >= 1 ==> Covered(r, lo, hi)
      invariant seed >= 1 && fromKey < hi ==> Covered(r, lo, Min(hi + 1, Keys - 1))
    {
      BelowStep(st, r, m, fromKey, seed, lo, hi);
      r := FillStep(r, fromKey + 1, fromKey, m);
      fromKey := fromKey - 1;
    }
  }

  /** The second inner loop of a pass: fill fromKey - 1 for fromKey = 0 up
      to 126. A run of keys lo..hi with layers grows by one key down. */
  method FillFromAbove(st: Store, r0: Store, m: Math, ghost seed: int, ghost lo: int, ghost hi: int)
    returns (r: Store)
    requires Valid(st) && Valid(r0) && Filling(st, r0, m)
    requires seed >= 1 ==> 0 <= lo <= hi <= Keys - 1 && lo <= Keys - 2 && Covered(r0, lo, hi)
    ensures Valid(r) && Filling(st, r, m)
    ensures seed >= 1 ==> Covered(r, Max(lo - 1, 0), hi)
  {
    r := r0;
    var fromKey := 0;
    while fromKey < Keys - 1
      invariant 0 <= fromKey <= Keys - 1
      invariant Valid(r) && Filling(st, r, m)
      invariant seed >= 1 ==> Covered(r, lo, hi)
      invariant seed >= 1 && fromKey > lo ==> Covered(r, Max(lo - 1, 0), hi)
    {
      AboveStep(st, r, m, fromKey, seed, lo, hi);
      r := FillStep(r, fromKey - 1, fromKey, m);
      fromKey := fromKey + 1;
    }
  }

  /** sstore_fill_samples: 126 passes, each first filling fromKey + 1 for
      fromKey = 126 down to 1, then fromKey - 1 for fromKey = 0 up to 126.
      Keys that have layers are never touched, and a key that gets layers
      gets a copy of a neighbour that has them. One pass spreads samples one
      key up and one key down, so any populated key from 1 to 126 reaches
      the whole keyboard. Keys 0 and 127 never donate: samples there alone
      are not spread at all. */
  method Fill(st: Store, m: Math) returns (r: Store)
    requires Valid(st)
    ensures Valid(r) && KeepsPopulated(st, r)
    ensures (exists k :: 1 <= k <= Keys - 2 && NumLayers(st, k) != 0) ==>
      forall j :: 0 <= j < Keys ==> NumLayers(r, j) != 0
    ensures EdgesOnly(st) ==> r == st
    ensures FilledFrom(st, r, m)
  {
    r := st;
    FilledFromNothing(st, m);
    // A populated inner key whose neighbourhood the passes grow, or -1.
    ghost var seed := -1;
    if k :| 1 <= k <= Keys - 2 && NumLayers(st, k) != 0 {
      seed := k;
    }
    assert seed >= 1 ==> Covered(r, seed, seed);
    var i := 1;
    while i < Keys - 1
      invariant 1 <= i <= Keys - 1
      invariant Valid(r) && Filling(st, r, m)
      invariant seed >= 1 ==>
        1 <= seed <= Keys - 2 && Covered(r, Max(seed - (i - 1), 0), Min(seed + (i - 1), Keys - 1))
    {
      ghost var lo, hi := Max(seed - (i - 1), 0), Min(seed + (i - 1), Keys - 1);
      r := FillFromBelow(st, r, m, seed, lo, hi);
      r := FillFromAbove(st, r, m, seed, lo, Min(hi + 1, Keys - 1));
      i := i + 1;
    }
  }
}
