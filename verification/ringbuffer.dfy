/** The bounded FIFO of opaque handles (ringbuffer.c / ringbuffer.h).

    The queue sits on a byte ring buffer of the JACK library that is not part
    of this model; how many handles it actually holds is therefore a separate,
    abstract `limit` fixed at creation, distinct from the `size` the caller asked
    for and `ringbuf_size` reports. A stored handle may be NULL (`None`). */
module RingBuffer {
  import opened Global

  datatype Ring<T> = Ring(size: int, limit: nat, items: seq<Option<T>>)

  /** The queue never holds more handles than the underlying buffer has room for. */
  ghost predicate Valid<T>(r: Ring<T>) {
    |r.items| <= r.limit
  }

  /** ringbuf_new: an empty queue of the requested capacity. */
  function New<T>(size: int, limit: nat): (r: Ring<T>)
    ensures Valid(r)
    ensures Size(r) == size && Count(r) == 0 && r.limit == limit
  {
    Ring(size, limit, [])
  }

  /** ringbuf_size: the capacity given at creation. */
  function Size<T>(r: Ring<T>): int { r.size }

  /** ringbuf_count: read space divided by the size of one handle, which is
      the number of handles stored. */
  function Count<T>(r: Ring<T>): nat { |r.items| }

  /** True when the buffer has write space for one more handle. */
  predicate HasRoom<T>(r: Ring<T>) { |r.items| < r.limit }

  /** ringbuf_put: append `x` when there is room for one handle; otherwise
      report failure and leave the queue as it was. */
  function Put<T>(r: Ring<T>, x: Option<T>): (res: (Ring<T>, bool))
    requires Valid(r)
    ensures Valid(res.0)
    ensures res.1 <==> Count(r) < r.limit
    ensures res.1 ==> res.0.items == r.items + [x] && Count(res.0) == Count(r) + 1
    ensures !res.1 ==> res.0 == r
    ensures Size(res.0) == Size(r) && res.0.limit == r.limit
    ensures res.0 == r.(items := res.0.items)
  {
    if !HasRoom(r) then (r, false)
    else (r.(items := r.items + [x]), true)
  }

  /** ringbuf_get: remove and return the oldest handle, or NULL when the queue
      is empty. */
  function Get<T>(r: Ring<T>): (res: (Ring<T>, Option<T>))
    requires Valid(r)
    ensures Valid(res.0)
    ensures Count(r) == 0 ==> res == (r, None)
    ensures Count(r) > 0 ==> res.1 == r.items[0] && res.0.items == r.items[1..]
    ensures Count(r) > 0 ==> Count(res.0) == Count(r) - 1
    ensures Size(res.0) == Size(r) && res.0.limit == r.limit
    ensures res.0 == r.(items := res.0.items)
  {
    if Count(r) == 0 then (r, None)
    else (r.(items := r.items[1..]), r.items[0])
  }

  /** Putting every element of `xs` in turn; the second component says
      whether all the puts succeeded. */
  function PutAll<T>(r: Ring<T>, xs: seq<Option<T>>): (res: (Ring<T>, bool))
    requires Valid(r)
    ensures Valid(res.0) && Size(res.0) == Size(r) && res.0.limit == r.limit
    decreases |xs|
  {
    if xs == [] then (r, true)
    else
      var (r1, ok) := Put(r, xs[0]);
      var (r2, ok2) := PutAll(r1, xs[1..]);
      (r2, ok && ok2)
  }

  /** Getting `n` handles in turn, collecting what each get returned. */
  function GetN<T>(r: Ring<T>, n: nat): (res: (Ring<T>, seq<Option<T>>))
    requires Valid(r)
    ensures Valid(res.0) && |res.1| == n
    decreases n
  {
    if n == 0 then (r, [])
    else
      var (r1, x) := Get(r);
      var (r2, xs) := GetN(r1, n - 1);
      (r2, [x] + xs)
  }

  /** Puts succeed exactly while there is room: into a queue with room for
      all of `xs`, every put succeeds and the items are appended in order. */
  lemma {:induction false} PutAllAppends<T>(r: Ring<T>, xs: seq<Option<T>>)
    requires Valid(r) && Count(r) + |xs| <= r.limit
    ensures PutAll(r, xs).1
    ensures PutAll(r, xs).0.items == r.items + xs
    decreases |xs|
  {
    if xs != [] {
      var r1 := Put(r, xs[0]).0;
      PutAllAppends(r1, xs[1..]);
      assert r.items + [xs[0]] + xs[1..] == r.items + xs;
    }
  }

  /** FIFO order: gets return the stored handles oldest first. */
  lemma {:induction false} GetNReturnsOldest<T>(r: Ring<T>, n: nat)
    requires Valid(r) && n <= Count(r)
    ensures GetN(r, n).1 == r.items[..n]
    ensures GetN(r, n).0.items == r.items[n..]
    decreases n
  {
    if n > 0 {
      var r1 := Get(r).0;
      GetNReturnsOldest(r1, n - 1);
      assert r.items[..n] == [r.items[0]] + r1.items[..n - 1];
      assert r1.items[n - 1..] == r.items[n..];
    }
  }

  /** A buffer of limit N takes N handles and then refuses the next one;
      getting N handles back returns them in the order they were put. */
  lemma FillThenDrain<T>(size: int, limit: nat, xs: seq<Option<T>>, y: Option<T>)
    requires |xs| == limit
    ensures var full := PutAll(New<T>(size, limit), xs);
      && full.1 && Count(full.0) == limit
      && !Put(full.0, y).1
      && GetN(full.0, limit).1 == xs
      && Count(GetN(full.0, limit).0) == 0
  {
    var e := New<T>(size, limit);
    PutAllAppends(e, xs);
    var full := PutAll(e, xs).0;
    assert full.items == xs;
    GetNReturnsOldest(full, limit);
    assert xs[..limit] == xs;
  }

  /** A get returns NULL exactly when the queue is empty or its oldest item
      is a NULL that was put in. The caller cannot tell the two apart, though
      the second get consumed an item and the first left the queue as it was. */
  lemma NullIsIndistinguishableFromEmpty<T>(r: Ring<T>)
    requires Valid(r)
    ensures Get(r).1 == None <==> Count(r) == 0 || r.items[0] == None
    ensures Count(r) == 0 ==> Get(r).0 == r
    ensures Count(r) > 0 ==> Count(Get(r).0) == Count(r) - 1
  {
  }

  /** The case of a fresh queue: a NULL put into it and the empty queue
      itself both answer NULL. */
  lemma NullIntoFreshQueue<T>(size: int, limit: nat)
    requires limit >= 1
    ensures var e := New<T>(size, limit);
      var withNull := Put(e, None).0;
      && Get(withNull).1 == Get(e).1 == None
      && Count(withNull) == 1 && Count(e) == 0
  {
    var e := New<T>(size, limit);
    NullIsIndistinguishableFromEmpty(e);
    NullIsIndistinguishableFromEmpty(Put(e, None).0);
  }
}
