/**
 * Numeric helpers shared by every component: the C++ conversions and integer
 * widths the library relies on, written out over Dafny's unbounded `int` and
 * `real`.
 */
module Numerics {

  type uint8 = x: int | 0 <= x < 0x100
  type uint16 = x: int | 0 <= x < 0x1_0000
  type uint32 = x: int | 0 <= x < 0x1_0000_0000

  /** Writes `s` into entry `i` of a buffer whose first `i` entries are
      `outputs`; the later entries keep their values. */
  method StoreAfter(buffer: array<real>, i: nat, s: real, ghost outputs: seq<real>)
    requires i < buffer.Length && buffer[..i] == outputs
    modifies buffer
    ensures buffer[..i + 1] == outputs + [s]
    ensures forall k :: i < k < buffer.Length ==> buffer[k] == old(buffer[k])
  {
    buffer[i] := s;
    assert buffer[..i + 1] == outputs + [s];
  }

  /** `static_cast<int>(x)` for a float: truncation toward zero. */
  function Trunc(x: real): (r: int)
    ensures x >= 0.0 ==> r == x.Floor
    ensures x < 0.0 ==> r == -((-x).Floor)
    ensures (r as real) <= x < (r as real) + 1.0 || (r as real) - 1.0 < x <= (r as real)
    ensures x >= 0.0 ==> 0 <= r && (r as real) <= x < (r as real) + 1.0
    ensures x < 0.0 ==> r <= 0 && (r as real) - 1.0 < x <= (r as real)
  {
    if x >= 0.0 then x.Floor else -((-x).Floor)
  }

  function Abs(x: real): (r: real)
    ensures r >= 0.0
    ensures r == x || r == -x
  {
    if x < 0.0 then -x else x
  }

  function Max(a: real, b: real): (r: real)
    ensures r >= a && r >= b
    ensures r == a || r == b
  {
    if a >= b then a else b
  }

  /** Storing an integer into a `uint16_t` keeps it modulo 2^16. */
  function ToUint16(x: int): (r: uint16)
    ensures 0 <= x < 0x1_0000 ==> r == x
    ensures (r - x) % 0x1_0000 == 0
  {
    x % 0x1_0000
  }

  /** Storing an integer into an `int8_t` wraps it into [-128, 128). */
  function ToInt8(x: int): (r: int)
    ensures -128 <= r < 128
    ensures -128 <= x < 128 ==> r == x
    ensures (r - x) % 0x100 == 0
  {
    (x + 128) % 0x100 - 128
  }

  // Euclidean remainder facts used where an index wraps once.

  lemma ModSmall(a: int, n: int)
    requires 0 <= a < n
    ensures a % n == a
  {
  }

  lemma ModMinusOne(n: int)
    requires n > 0
    ensures (-1) % n == n - 1
  {
  }

  lemma ModWrapOnce(a: int, n: int)
    requires n <= a < 2 * n
    ensures a % n == a - n
  {
  }

  /** C's `%` on signed integers: the remainder takes the sign of the dividend. */
  function CRem(a: int, b: int): (r: int)
    requires b > 0
    ensures a >= 0 ==> 0 <= r < b && r == a % b
    ensures a < 0 ==> -b < r <= 0 && r == -((-a) % b)
  {
    if a >= 0 then a % b else -((-a) % b)
  }
}

/**
 * Named constants of the library's shared header, which is not part of this
 * model. Their values here are the ones assumed by the model; every property
 * proved depends only on their being distinct (waveforms, noise types,
 * interpolation modes) or on the signal range being [-1, 1].
 */
module KlangWellen {

  const PI: real := 3.14159265358979323846
  const TWO_PI: real := 2.0 * PI

  const SIGNAL_MIN: real := -1.0
  const SIGNAL_MAX: real := 1.0

  const DEFAULT_SAMPLE_RATE: nat := 48000
  const DEFAULT_WAVETABLE_SIZE: nat := 512

  const DEFAULT_ATTACK: real := 0.005
  const DEFAULT_DECAY: real := 0.01
  const DEFAULT_SUSTAIN: real := 0.5
  const DEFAULT_RELEASE: real := 0.075

  const WAVEFORM_SINE: int := 0
  const WAVEFORM_TRIANGLE: int := 1
  const WAVEFORM_SAWTOOTH: int := 2
  const WAVEFORM_SQUARE: int := 3
  const WAVEFORM_NOISE: int := 4

  const WAVESHAPE_INTERPOLATE_NONE: int := 0
  const WAVESHAPE_INTERPOLATE_LINEAR: int := 1
  const WAVESHAPE_INTERPOLATE_CUBIC: int := 2

  const NOISE_WHITE: int := 0
  const NOISE_WHITE_FAST: int := 1
  const NOISE_GAUSSIAN_WHITE: int := 2
  const NOISE_GAUSSIAN_WHITE_FAST: int := 3
  const NOISE_PINK: int := 4
  const NOISE_SIMPLEX: int := 5

  /** `RAND_MAX` of the C library (glibc's value). */
  const RAND_MAX: nat := 2147483647
}

/**
 * The C math library seen as uninterpreted functions. A component receives a
 * `Lib` and uses only the function values in it; the predicates below are the
 * only facts about them, and only the lemmas that need one require it.
 */
module MathLib {

  datatype Lib = Lib(
    sin: real -> real,
    cos: real -> real,
    tanh: real -> real,
    exp: real -> real,
    log: real -> real,
    sqrt: real -> real,
    fastSin: real -> real)

  /** `exp` maps negative arguments into the open interval (0, 1). */
  ghost predicate ExpLaws(lib: Lib)
  {
    forall x: real :: x < 0.0 ==> 0.0 < lib.exp(x) < 1.0
  }

  /** `sin` stays within [-1, 1]. */
  ghost predicate SinBounded(lib: Lib)
  {
    forall x: real :: -1.0 <= lib.sin(x) <= 1.0
  }

  /** `fast_sin` stays within [-1, 1]. */
  ghost predicate FastSinBounded(lib: Lib)
  {
    forall x: real :: -1.0 <= lib.fastSin(x) <= 1.0
  }

  /** `tanh` maps a non-negative argument into [0, 1) without exceeding it. */
  ghost predicate TanhLaws(lib: Lib)
  {
    forall x: real :: x >= 0.0 ==> 0.0 <= lib.tanh(x) <= x && lib.tanh(x) < 1.0
  }

  /** `sqrt` of a non-negative argument is non-negative. */
  ghost predicate SqrtLaws(lib: Lib)
  {
    forall x: real :: x >= 0.0 ==> lib.sqrt(x) >= 0.0
  }
}
