/** Engine-wide constants (global.h) and the few C primitives the model needs
    spelled out: the truncating double-to-int cast, a NULL-able handle, and
    the math library as an explicit parameter. */
module Global {

  /** Number of MIDI keys the sample table is indexed by. */
  const Keys: int := 128
  /** Fixed extents of the sample table (global.h). */
  const MaxLayers: int := 128
  const MaxVars: int := 128
  /** Capacity, in handles, asked of every voice ring buffer. */
  const RingBufSize: int := 2048
  const JackBufSize: int := 16384
  /** The only sample rate accepted. */
  const SampleRate: int := 48000
  /** Scale from int16 to [-1, 1): exactly 2^-15. */
  const Int16Scale: real := 0.000030517578125
  /** Amplitude below which a voice is retired. */
  const MinAmp: real := 0.00001

  /** A C pointer that may be NULL. */
  datatype Option<+T> = None | Some(value: T)

  /** The C cast `(int)x`: truncation toward zero. */
  function Trunc(x: real): (r: int)
    ensures 0.0 <= x ==> 0 <= r && r as real <= x < r as real + 1.0
    ensures x < 0.0 ==> r <= 0 && r as real - 1.0 < x <= r as real
  {
    if x >= 0.0 then x.Floor else -((-x).Floor)
  }

  /** Scaling by a factor in [0, 1] stays within [0, a]. */
  lemma ScaleWithinRange(a: real, x: real)
    requires 0.0 <= a && 0.0 <= x <= 1.0
    ensures 0.0 <= a * x <= a
    ensures 0.0 < a && x < 1.0 ==> a * x < a
    ensures x == 1.0 ==> a * x == a
    ensures x == 0.0 ==> a * x == 0.0
  {
    if 0.0 < a && x < 1.0 {
      assert a - a * x == a * (1.0 - x);
    }
  }

  /** The libm functions the engine calls. Their values are not modelled:
      every operation that needs them takes the record as a parameter. */
  datatype Math = Math(exp: real -> real, pow: (real, real) -> real, sqrt: real -> real)

  function Min(a: int, b: int): int { if a <= b then a else b }
  function Max(a: int, b: int): int { if a >= b then a else b }
}
