/**
 * The `Wavetable` oscillator of include/Wavetable.h: a fractional read cursor
 * that runs over a single-cycle table at a step size derived from the
 * frequency, with counted glides of amplitude and frequency and three ways
 * of reading the table (nearest entry, linear and cubic interpolation).
 *
 * The per-sample behaviour is first given as pure functions over a snapshot
 * `Osc` of the oscillator's fields; the class `Wavetable` keeps the fields
 * the C++ keeps and each of its methods is proved to change them exactly as
 * the corresponding function says.
 */
module WavetableOscillator {
  import opened Numerics
  import opened MathLib
  import opened KlangWellen
  import opened WavetableShapes

  const DEFAULT_AMPLITUDE: real := 0.75
  const DEFAULT_FREQUENCY: real := 220.0

  /** The two constants of an oscillator: table size and sample rate. */
  datatype Config = Config(size: nat, sampleRate: nat)

  /** The oscillator's mutable fields. */
  datatype Osc = Osc(
    amplitude: real,
    arrayPtr: real,
    desiredAmplitude: real,
    desiredAmplitudeFraction: real,
    desiredAmplitudeSteps: uint16,
    desiredFrequency: real,
    desiredFrequencyFraction: real,
    desiredFrequencySteps: uint16,
    enableJitter: bool,
    frequency: real,
    interpolationType: int,
    jitterRange: real,
    offset: real,
    phaseOffset: real,
    signal: real,
    stepSize: real)

  // ---------------------------------------------------------------------------
  // Frequency and step size

  /** `computeStepSize`: table entries advanced per sample. */
  function StepSize(c: Config, frequency: real): real
    requires c.sampleRate > 0
  {
    frequency * (c.size as real / c.sampleRate as real)
  }

  /** The stored step size belongs to the stored frequency. */
  predicate StepConsistent(c: Config, o: Osc)
    requires c.sampleRate > 0
  {
    o.stepSize == StepSize(c, o.frequency)
  }

  /** What holds of the oscillator between calls: the cursor lies in
      [0, size), the frequency is non-negative and the step size is the one
      of the frequency. */
  predicate Inv(c: Config, o: Osc)
  {
    c.size > 0 && c.sampleRate > 0
    && 0.0 <= o.arrayPtr < c.size as real
    && o.frequency >= 0.0
    && StepConsistent(c, o)
  }

  /** `set_frequency(f)`: stores `|f|` and recomputes the step size only when
      the stored frequency changes; nothing else changes, in particular a
      pending frequency glide is kept. */
  function AfterSetFrequency(c: Config, o: Osc, frequency: real): (r: Osc)
    requires c.sampleRate > 0
    ensures r.frequency == Abs(frequency) && r.frequency >= 0.0
    ensures o.frequency == Abs(frequency) ==> r == o
    ensures o.frequency != Abs(frequency) ==> StepConsistent(c, r)
    ensures StepConsistent(c, o) ==> StepConsistent(c, r)
    ensures r == o.(frequency := r.frequency, stepSize := r.stepSize)
  {
    var f := Abs(frequency);
    if o.frequency != f then o.(frequency := f, stepSize := StepSize(c, f)) else o
  }

  /** `set_frequency(f, n)`: a positive `n` starts a glide of `n` samples
      towards `f`; zero sets the frequency at once. */
  function AfterSetFrequencyGlide(c: Config, o: Osc, frequency: real, n: uint16): (r: Osc)
    requires c.sampleRate > 0
    ensures n > 0 ==> r.desiredFrequencySteps == n && r.desiredFrequency == frequency
                      && r.frequency == o.frequency && r.stepSize == o.stepSize
    ensures n == 0 ==> r == AfterSetFrequency(c, o, frequency)
  {
    if n > 0 then
      o.(desiredFrequency := frequency, desiredFrequencySteps := n,
         desiredFrequencyFraction := (frequency - o.frequency) / n as real)
    else AfterSetFrequency(c, o, frequency)
  }

  // ---------------------------------------------------------------------------
  // Amplitude, offset, phase offset

  /** `set_amplitude(a)`: sets the amplitude and cancels a pending glide. */
  function AfterSetAmplitude(o: Osc, amplitude: real): (r: Osc)
    ensures r.amplitude == amplitude && r.desiredAmplitudeSteps == 0
    ensures r == o.(amplitude := amplitude, desiredAmplitudeSteps := 0)
  {
    o.(amplitude := amplitude, desiredAmplitudeSteps := 0)
  }

  /** `set_amplitude(a, n)`: the glide counter is a `uint16_t`, so it holds
      `n mod 65536`, while the per-sample fraction divides by the full `n`. */
  function AfterSetAmplitudeGlide(o: Osc, amplitude: real, n: uint32): (r: Osc)
    ensures n > 0 ==> r.desiredAmplitude == amplitude && r.desiredAmplitudeSteps == n % 0x1_0000
                      && r.amplitude == o.amplitude
    ensures n == 0 ==> r == AfterSetAmplitude(o, amplitude)
  {
    if n > 0 then
      o.(desiredAmplitude := amplitude, desiredAmplitudeSteps := ToUint16(n),
         desiredAmplitudeFraction := (amplitude - o.amplitude) / n as real)
    else AfterSetAmplitude(o, amplitude)
  }

  /** `set_phase_offset(p)`: a negative offset is taken from the end. */
  function AfterSetPhaseOffset(o: Osc, phaseOffset: real): (r: Osc)
    ensures -1.0 <= phaseOffset < 1.0 ==> 0.0 <= r.phaseOffset < 1.0
    ensures phaseOffset >= 0.0 ==> r.phaseOffset == phaseOffset
    ensures r == o.(phaseOffset := r.phaseOffset)
  {
    o.(phaseOffset := if phaseOffset < 0.0 then 1.0 + phaseOffset else phaseOffset)
  }

  /** `set_oscillation_range(min, max)`: amplitude and offset chosen so that
      a signal in [-1, 1] is mapped onto [min, max]. */
  function AfterSetOscillationRange(o: Osc, min: real, max: real): (r: Osc)
    ensures -r.amplitude + r.offset == min && r.amplitude + r.offset == max
    ensures r.desiredAmplitudeSteps == 0
    ensures r == o.(amplitude := r.amplitude, desiredAmplitudeSteps := 0, offset := r.offset)
  {
    var delta := max - min;
    AfterSetAmplitude(o, delta * 0.5).(offset := delta * 0.5 + min)
  }

  // ---------------------------------------------------------------------------
  // Glides, one sample at a time

  /** The amplitude part of `process()`: count down; the last step lands on
      the target exactly, earlier steps add the fraction. */
  function AmplitudeGlideStep(o: Osc): Osc
  {
    if o.desiredAmplitudeSteps > 0 then
      var steps := o.desiredAmplitudeSteps - 1;
      if steps == 0 then o.(desiredAmplitudeSteps := 0, amplitude := o.desiredAmplitude)
      else o.(desiredAmplitudeSteps := steps, amplitude := o.amplitude + o.desiredAmplitudeFraction)
    else o
  }

  /** The frequency part of `process()`: the same countdown, through
      `set_frequency`; the last step sets the target frequency. */
  function FrequencyGlideStep(c: Config, o: Osc): Osc
    requires c.sampleRate > 0
  {
    if o.desiredFrequencySteps > 0 then
      var steps := o.desiredFrequencySteps - 1;
      var p := o.(desiredFrequencySteps := steps);
      if steps == 0 then AfterSetFrequency(c, p, o.desiredFrequency)
      else AfterSetFrequency(c, p, o.frequency + o.desiredFrequencyFraction)
    else o
  }

  /** `start + j * fraction`, added up one step at a time as the glide does. */
  function Ramp(start: real, fraction: real, j: nat): real
  {
    if j == 0 then start else Ramp(start, fraction, j - 1) + fraction
  }

  // ---------------------------------------------------------------------------
  // The read cursor

  /** The cursor advance: the step size, scaled by `random * range + 1` when
      jitter is enabled (`random` is the library's random draw). */
  function Jittered(o: Osc, random: real): real
  {
    o.stepSize * (if o.enableJitter then random * o.jitterRange + 1.0 else 1.0)
  }

  lemma FloorShift(x: real, n: int)
    ensures (x + n as real).Floor == x.Floor + n
  {
  }

  /** The first loop of `advance_array_ptr`: subtract the table length while
      the cursor is at or past the end. */
  function WrapDown(x: real, n: nat): (r: real)
    requires n > 0
    ensures r < n as real
    decreases x.Floor
  {
    if x >= n as real then
      FloorShift(x, -(n as int));
      WrapDown(x - n as real, n)
    else x
  }

  /** The second loop: add the table length while the cursor is negative. */
  function WrapUp(x: real, n: nat): (r: real)
    requires n > 0
    ensures r >= 0.0
    ensures x < n as real ==> r < n as real
    decreases -x.Floor
  {
    if x < 0.0 then
      FloorShift(x, n);
      WrapUp(x + n as real, n)
    else x
  }

  /** The cursor after `advance_array_ptr`'s two loops. */
  function Wrap(x: real, n: nat): (r: real)
    requires n > 0
    ensures 0.0 <= r < n as real
  {
    WrapUp(WrapDown(x, n), n)
  }

  lemma {:induction false} WrapDownShift(x: real, n: nat) returns (k: int)
    requires n > 0
    ensures WrapDown(x, n) == x + k as real * n as real
    decreases x.Floor
  {
    if x >= n as real {
      FloorShift(x, -(n as int));
      var j := WrapDownShift(x - n as real, n);
      k := j - 1;
      assert (j - 1) as real * n as real == j as real * n as real - n as real;
    } else {
      k := 0;
    }
  }

  lemma {:induction false} WrapUpShift(x: real, n: nat) returns (k: int)
    requires n > 0
    ensures WrapUp(x, n) == x + k as real * n as real
    decreases -x.Floor
  {
    if x < 0.0 {
      FloorShift(x, n);
      var j := WrapUpShift(x + n as real, n);
      k := j + 1;
      assert (j + 1) as real * n as real == j as real * n as real + n as real;
    } else {
      k := 0;
    }
  }

  /** For any step, forward or backward, the wrapped cursor lies in [0, n)
      and differs from `x` by a whole number of table lengths; a cursor
      already in range stays where it is. */
  lemma WrapSpec(x: real, n: nat) returns (k: int)
    requires n > 0
    ensures 0.0 <= Wrap(x, n) < n as real
    ensures Wrap(x, n) == x + k as real * n as real
    ensures 0.0 <= x < n as real ==> Wrap(x, n) == x
  {
    var i := WrapDownShift(x, n);
    var j := WrapUpShift(WrapDown(x, n), n);
    k := i + j;
    assert (i + j) as real * n as real == i as real * n as real + j as real * n as real;
  }

  // ---------------------------------------------------------------------------
  // Reading the table

  /** The phase offset in whole entries:
      `(uint32_t)(phaseOffset * size) % size`. */
  function SampleOffset(c: Config, phaseOffset: real): (r: nat)
    requires c.size > 0
    ensures r < c.size
  {
    (Trunc(phaseOffset * c.size as real) % 0x1_0000_0000) % c.size
  }

  /** `next_sample`: the entry under the cursor. */
  function ReadNearest(c: Config, table: seq<real>, ptr: real): real
    requires 0 < c.size <= |table| && 0.0 <= ptr < c.size as real
  {
    table[Trunc(ptr)]
  }

  /** `a + frac * (b - a)`. */
  function Lerp(a: real, b: real, frac: real): real
  {
    a + frac * (b - a)
  }

  /** Linear interpolation starts at `a` and stays between `a` and `b`. */
  lemma LerpBetween(a: real, b: real, frac: real)
    requires 0.0 <= frac <= 1.0
    ensures Lerp(a, b, 0.0) == a && Lerp(a, b, 1.0) == b
    ensures a <= b ==> a <= Lerp(a, b, frac) <= b
    ensures b <= a ==> b <= Lerp(a, b, frac) <= a
  {
    var d := b - a;
    var p := frac * d;
    if d >= 0.0 {
      ScaledAtMost(d, frac);
    } else {
      ScaledAtMost(-d, frac);
      assert p == -(frac * -d);
    }
    assert Lerp(a, b, frac) == a + p;
  }

  /** The cubic interpolation polynomial through `a, b, c, d` at `frac`. */
  function Cubic(a: real, b: real, c: real, d: real, frac: real): real
  {
    var tmp := d + 3.0 * b;
    var fracsq := frac * frac;
    var fracb := frac * fracsq;
    fracb * (-a - 3.0 * c + tmp) / 6.0 + fracsq * ((a + c) / 2.0 - b) + frac * (c + (-2.0 * a - tmp) / 6.0) + b
  }

  /** The polynomial passes through `b` at 0 and through `c` at 1, so reading
      is continuous from one entry to the next. */
  lemma CubicEndpoints(a: real, b: real, c: real, d: real)
    ensures Cubic(a, b, c, d, 0.0) == b
    ensures Cubic(a, b, c, d, 1.0) == c
  {
  }

  /** The table position read by the interpolating readers: cursor plus
      phase offset, in [0, 2 size). */
  function OffsetPosition(c: Config, o: Osc): (r: real)
    requires c.size > 0 && 0.0 <= o.arrayPtr < c.size as real
    ensures 0.0 <= r < 2.0 * c.size as real
  {
    o.arrayPtr + SampleOffset(c, o.phaseOffset) as real
  }

  /** The indices `next_sample_interpolate_linear` reads as written: the base
      index `(int) position` is not wrapped, only its successor is, once. */
  function LinearIndicesAsWritten(c: Config, position: real): (int, int)
    requires c.size > 0 && position >= 0.0
  {
    var base := Trunc(position);
    var p1 := (base + 1) % 0x1_0000_0000;
    (base, if p1 >= c.size then p1 - c.size else p1)
  }

  /** The indices `next_sample_interpolate_cubic` reads as written: the entry
      before the base is not wrapped, the base is wrapped, and the two after
      it are wrapped once. */
  function CubicIndicesAsWritten(c: Config, position: real): (int, int, int, int)
    requires c.size > 0 && position >= 0.0
  {
    var base := Trunc(position);
    var p1 := (base + 1) % 0x1_0000_0000;
    var p2 := (base + 2) % 0x1_0000_0000;
    (if base > 0 then base - 1 else c.size - 1,
     base % c.size,
     if p1 >= c.size then p1 - c.size else p1,
     if p2 >= c.size then p2 - c.size else p2)
  }

  /** As written, both interpolating readers index past the end of the table
      once cursor plus phase offset reaches the end: with 4 entries, a phase
      offset of 0.5 (2 entries) and the cursor at 3, the linear reader reads
      entry 5 and the cubic reader entry 4. A one-entry table makes the cubic
      reader read entry 1 even at position 0. */
  lemma InterpolationReadsOutOfBounds()
    ensures SampleOffset(Config(4, 48000), 0.5) == 2
    ensures LinearIndicesAsWritten(Config(4, 48000), 3.0 + 2.0).0 == 5
    ensures CubicIndicesAsWritten(Config(4, 48000), 3.0 + 2.0).0 == 4
    ensures CubicIndicesAsWritten(Config(1, 48000), 0.0).3 == 1
  {
    assert Trunc(0.5 * 4.0) == 2;
    assert Trunc(5.0) == 5;
    assert Trunc(0.0) == 0;
  }

  /** The base index of both interpolating readers, wrapped into the table
      as evidently intended. */
  function BaseIndex(c: Config, position: real): (r: nat)
    requires c.size > 0 && position >= 0.0
    ensures r < c.size
  {
    Trunc(position) % c.size
  }

  /** The neighbour `k` entries after (or, for `k == -1`, before) `base`,
      wrapped around the table. */
  function Neighbour(c: Config, base: nat, k: int): (r: nat)
    requires c.size > 0
    ensures r < c.size
    ensures 0 <= base + k < c.size ==> r == base + k
  {
    (base + k) % c.size
  }

  /** `next_sample_interpolate_linear` with its indices wrapped. */
  function ReadLinear(c: Config, table: seq<real>, o: Osc): real
    requires 0 < c.size <= |table| && 0.0 <= o.arrayPtr < c.size as real
  {
    var position := OffsetPosition(c, o);
    var frac := position - Trunc(position) as real;
    var base := BaseIndex(c, position);
    Lerp(table[base], table[Neighbour(c, base, 1)], frac)
  }

  /** `next_sample_interpolate_cubic` with its indices wrapped. */
  function ReadCubic(c: Config, table: seq<real>, o: Osc): real
    requires 0 < c.size <= |table| && 0.0 <= o.arrayPtr < c.size as real
  {
    var position := OffsetPosition(c, o);
    var frac := position - Trunc(position) as real;
    var base := BaseIndex(c, position);
    Cubic(table[Neighbour(c, base, -1)], table[base], table[Neighbour(c, base, 1)], table[Neighbour(c, base, 2)], frac)
  }

  /** For every table and position: the linear reader's base index is past
      the end exactly when cursor plus offset has reached the table size,
      and the cubic reader's first index exactly when it has reached one
      entry beyond. The successors, wrapped once, are past the end exactly
      from `2 * size - 1` (one ahead) and `2 * size - 2` (two ahead) on, so
      on one- and two-entry tables the cubic reader's last index leaves the
      table before its first does. */
  lemma InterpolationOutOfBoundsExactly(c: Config, position: real)
    requires c.size > 0 && position >= 0.0
    ensures LinearIndicesAsWritten(c, position).0 >= c.size <==> position >= c.size as real
    ensures CubicIndicesAsWritten(c, position).0 >= c.size <==> position >= c.size as real + 1.0
    ensures position < 0x1_0000_0000 as real - 2.0 ==>
              (LinearIndicesAsWritten(c, position).1 >= c.size <==> position >= 2.0 * c.size as real - 1.0)
              && (CubicIndicesAsWritten(c, position).2 >= c.size <==> position >= 2.0 * c.size as real - 1.0)
              && (CubicIndicesAsWritten(c, position).3 >= c.size <==> position >= 2.0 * c.size as real - 2.0)
  {
    var base := Trunc(position);
    assert base as real <= position < base as real + 1.0;
    if position >= c.size as real {
      assert base >= c.size;
    }
    if position >= c.size as real + 1.0 {
      assert base >= c.size + 1;
    }
    if position < 0x1_0000_0000 as real - 2.0 {
      assert base < 0x1_0000_0000 - 2;
      assert (base + 1) % 0x1_0000_0000 == base + 1;
      assert (base + 2) % 0x1_0000_0000 == base + 2;
      assert base >= 2 * c.size - 1 <==> position >= 2.0 * c.size as real - 1.0;
      assert base >= 2 * c.size - 2 <==> position >= 2.0 * c.size as real - 2.0;
    }
  }

  /** Wrapping the indices changes nothing while cursor plus offset stays
      inside the table (and the table has at least three entries for the
      cubic reader): the corrected readers agree with the C++ there. */
  lemma WrappedIndicesAgreeInRange(c: Config, position: real)
    requires 0 < c.size < 0xFFFF_FFFF && 0.0 <= position < c.size as real
    ensures var base := BaseIndex(c, position);
            base == LinearIndicesAsWritten(c, position).0
            && Neighbour(c, base, 1) == LinearIndicesAsWritten(c, position).1
    ensures var base := BaseIndex(c, position);
            var w := CubicIndicesAsWritten(c, position);
            c.size >= 3 ==>
              Neighbour(c, base, -1) == w.0 && base == w.1 && Neighbour(c, base, 1) == w.2 && Neighbour(c, base, 2) == w.3
  {
    var n := c.size;
    var t := Trunc(position);
    assert 0 <= t < n;
    ModSmall(t, n);
    var base := BaseIndex(c, position);
    assert base == t;
    var p1 := (t + 1) % 0x1_0000_0000;
    var p2 := (t + 2) % 0x1_0000_0000;
    assert p1 == t + 1 && p2 == t + 2;
    if t + 1 < n { ModSmall(t + 1, n); } else { ModWrapOnce(t + 1, n); }
    if c.size >= 3 {
      if t + 2 < n { ModSmall(t + 2, n); } else { ModWrapOnce(t + 2, n); }
      if t > 0 { ModSmall(t - 1, n); } else { ModMinusOne(n); }
    }
  }

  /** The interpolation fraction lies in [0, 1). */
  lemma FractionInUnit(position: real)
    requires position >= 0.0
    ensures 0.0 <= position - Trunc(position) as real < 1.0
  {
  }

  /** What the reader selected by `interpolationType` returns; an unknown
      type reads the nearest entry. */
  function Read(c: Config, table: seq<real>, o: Osc): real
    requires 0 < c.size <= |table| && 0.0 <= o.arrayPtr < c.size as real
  {
    if o.interpolationType == WAVESHAPE_INTERPOLATE_LINEAR then ReadLinear(c, table, o)
    else if o.interpolationType == WAVESHAPE_INTERPOLATE_CUBIC then ReadCubic(c, table, o)
    else ReadNearest(c, table, o.arrayPtr)
  }

  /** `x * amplitude`. */
  function Gain(x: real, amplitude: real): real
  {
    x * amplitude
  }

  // ---------------------------------------------------------------------------
  // process()

  /** One `process()` call: both glides advance, the selected reader reads at
      the cursor, the cursor advances by the (possibly jittered) step size,
      and the output is the reading scaled by the amplitude plus the offset.
      It keeps the oscillator's invariant. */
  function ProcessState(c: Config, table: seq<real>, o: Osc, random: real): (r: Osc)
    requires Inv(c, o) && c.size <= |table|
    ensures Inv(c, r)
  {
    Emit(c, table, FrequencyGlideStep(c, AmplitudeGlideStep(o)), random)
  }

  /** The second half of `process()`, after the glides: read, advance the
      cursor, scale and offset. */
  function Emit(c: Config, table: seq<real>, o: Osc, random: real): (r: Osc)
    requires Inv(c, o) && c.size <= |table|
    ensures Inv(c, r)
  {
    var sample := Read(c, table, o);
    o.(arrayPtr := Wrap(o.arrayPtr + Jittered(o, random), c.size), signal := Gain(sample, o.amplitude) + o.offset)
  }

  lemma EmitFields(c: Config, table: seq<real>, o: Osc, random: real, sample: real, ptr: real)
    requires Inv(c, o) && c.size <= |table|
    requires sample == Read(c, table, o) && ptr == Wrap(o.arrayPtr + Jittered(o, random), c.size)
    ensures Emit(c, table, o, random) == o.(arrayPtr := ptr, signal := Gain(sample, o.amplitude) + o.offset)
  {
  }

  /** The state after one `process()` call per draw in `randoms`. */
  function ProcessN(c: Config, table: seq<real>, o: Osc, randoms: seq<real>): (r: Osc)
    requires Inv(c, o) && c.size <= |table|
    ensures Inv(c, r)
    decreases |randoms|
  {
    if randoms == [] then o
    else ProcessState(c, table, ProcessN(c, table, o, randoms[..|randoms| - 1]), randoms[|randoms| - 1])
  }

  /** The fields a new oscillator starts with. The C++ constructor leaves
      the offset, the signal, the frequency glide and the step size unset;
      they are 0 here (the step size is then set by the constructor's
      `set_frequency(220)`). */
  function Initial(c: Config): (r: Osc)
    requires c.sampleRate > 0
    ensures r.frequency == DEFAULT_FREQUENCY && r.amplitude == DEFAULT_AMPLITUDE
    ensures r.arrayPtr == 0.0 && r.desiredAmplitudeSteps == 0 && r.desiredFrequencySteps == 0
    ensures c.size > 0 ==> Inv(c, r)
  {
    var blank := Osc(DEFAULT_AMPLITUDE, 0.0, 0.0, 0.0, 0, 0.0, 0.0, 0, false, 0.0,
                     WAVESHAPE_INTERPOLATE_NONE, 0.0, 0.0, 0.0, 0.0, 0.0);
    AfterSetFrequency(c, blank, DEFAULT_FREQUENCY)
  }

  // ---------------------------------------------------------------------------
  // Properties over several calls

  /** One `process()` call moves the glides exactly as the glide steps do. */
  lemma ProcessStateGlides(c: Config, table: seq<real>, o: Osc, random: real)
    requires Inv(c, o) && c.size <= |table|
    ensures var r := ProcessState(c, table, o, random);
            var a := AmplitudeGlideStep(o);
            var f := FrequencyGlideStep(c, a);
            r.amplitude == a.amplitude && r.desiredAmplitudeSteps == a.desiredAmplitudeSteps
            && r.desiredAmplitude == o.desiredAmplitude && r.desiredAmplitudeFraction == o.desiredAmplitudeFraction
            && r.frequency == f.frequency && r.desiredFrequencySteps == f.desiredFrequencySteps
            && r.desiredFrequency == o.desiredFrequency && r.desiredFrequencyFraction == o.desiredFrequencyFraction
  {
  }

  /** A pending amplitude glide of `s` steps: after `j < s` calls the
      amplitude has moved by `j` fractions and `s - j` steps remain; after
      exactly `s` calls it equals the target and the glide is over. */
  lemma {:induction false} AmplitudeGlideProgress(c: Config, table: seq<real>, o: Osc, randoms: seq<real>)
    requires Inv(c, o) && c.size <= |table|
    requires 0 < o.desiredAmplitudeSteps && |randoms| <= o.desiredAmplitudeSteps
    ensures var r := ProcessN(c, table, o, randoms);
            r.desiredAmplitude == o.desiredAmplitude && r.desiredAmplitudeFraction == o.desiredAmplitudeFraction
            && (|randoms| < o.desiredAmplitudeSteps ==>
               r.amplitude == Ramp(o.amplitude, o.desiredAmplitudeFraction, |randoms|)
               && r.desiredAmplitudeSteps == o.desiredAmplitudeSteps - |randoms|)
            && (|randoms| == o.desiredAmplitudeSteps ==>
               r.amplitude == o.desiredAmplitude && r.desiredAmplitudeSteps == 0)
    decreases |randoms|
  {
    if randoms != [] {
      var prefix := randoms[..|randoms| - 1];
      AmplitudeGlideProgress(c, table, o, prefix);
      var prev := ProcessN(c, table, o, prefix);
      ProcessStateGlides(c, table, prev, randoms[|randoms| - 1]);
      assert ProcessN(c, table, o, randoms) == ProcessState(c, table, prev, randoms[|randoms| - 1]);
    }
  }

  /** Without a pending glide the amplitude does not change. */
  lemma {:induction false} AmplitudeSteady(c: Config, table: seq<real>, o: Osc, randoms: seq<real>)
    requires Inv(c, o) && c.size <= |table|
    requires o.desiredAmplitudeSteps == 0
    ensures ProcessN(c, table, o, randoms).amplitude == o.amplitude
    ensures ProcessN(c, table, o, randoms).desiredAmplitudeSteps == 0
    decreases |randoms|
  {
    if randoms != [] {
      var prefix := randoms[..|randoms| - 1];
      AmplitudeSteady(c, table, o, prefix);
      var prev := ProcessN(c, table, o, prefix);
      ProcessStateGlides(c, table, prev, randoms[|randoms| - 1]);
      assert ProcessN(c, table, o, randoms) == ProcessState(c, table, prev, randoms[|randoms| - 1]);
    }
  }

  /** `set_amplitude(a, n)` with `0 < n < 65536` followed by exactly `n`
      calls ends on `a` with the glide over; a multiple of 65536 stores a
      zero counter, so the amplitude never moves towards `a`. */
  lemma SetAmplitudeGlideReachesTarget(c: Config, table: seq<real>, o: Osc, amplitude: real, n: uint32,
                                       randoms: seq<real>)
    requires Inv(c, o) && c.size <= |table|
    ensures 0 < n < 0x1_0000 && |randoms| == n ==>
              ProcessN(c, table, AfterSetAmplitudeGlide(o, amplitude, n), randoms).amplitude == amplitude
              && ProcessN(c, table, AfterSetAmplitudeGlide(o, amplitude, n), randoms).desiredAmplitudeSteps == 0
    ensures n > 0 && n % 0x1_0000 == 0 ==>
              ProcessN(c, table, AfterSetAmplitudeGlide(o, amplitude, n), randoms).amplitude == o.amplitude
  {
    var g := AfterSetAmplitudeGlide(o, amplitude, n);
    if 0 < n < 0x1_0000 && |randoms| == n {
      AmplitudeGlideProgress(c, table, g, randoms);
    }
    if n > 0 && n % 0x1_0000 == 0 {
      AmplitudeSteady(c, table, g, randoms);
    }
  }

  /** A pending frequency glide of `s` steps ends after exactly `s` calls on
      the magnitude of its target, with the step size to match. */
  lemma {:induction false} FrequencyGlideProgress(c: Config, table: seq<real>, o: Osc, randoms: seq<real>)
    requires Inv(c, o) && c.size <= |table|
    requires |randoms| <= o.desiredFrequencySteps
    ensures var r := ProcessN(c, table, o, randoms);
            r.desiredFrequencySteps == o.desiredFrequencySteps - |randoms|
            && r.desiredFrequency == o.desiredFrequency
            && (|randoms| == o.desiredFrequencySteps > 0 ==> r.frequency == Abs(o.desiredFrequency))
    decreases |randoms|
  {
    if randoms != [] {
      var prefix := randoms[..|randoms| - 1];
      FrequencyGlideProgress(c, table, o, prefix);
      var prev := ProcessN(c, table, o, prefix);
      ProcessStateGlides(c, table, prev, randoms[|randoms| - 1]);
      assert ProcessN(c, table, o, randoms) == ProcessState(c, table, prev, randoms[|randoms| - 1]);
    }
  }

  /** `set_frequency(f, n)` with `n > 0` followed by `n` calls ends on `|f|`;
      an immediate `set_frequency` in between leaves the glide pending. */
  lemma SetFrequencyGlideReachesTarget(c: Config, table: seq<real>, o: Osc, frequency: real, n: uint16,
                                       randoms: seq<real>)
    requires Inv(c, o) && c.size <= |table|
    requires n > 0 && |randoms| == n
    ensures ProcessN(c, table, AfterSetFrequencyGlide(c, o, frequency, n), randoms).frequency == Abs(frequency)
    ensures ProcessN(c, table, AfterSetFrequencyGlide(c, o, frequency, n), randoms).desiredFrequencySteps == 0
    ensures forall f: real :: AfterSetFrequency(c, AfterSetFrequencyGlide(c, o, frequency, n), f).desiredFrequencySteps == n
  {
    FrequencyGlideProgress(c, table, AfterSetFrequencyGlide(c, o, frequency, n), randoms);
  }

  // ---------------------------------------------------------------------------
  // The class

  class Wavetable {
    const fWavetableSize: uint32
    const fSampleRate: uint32
    const fWavetable: array<real>
    var fAmplitude: real
    var fArrayPtr: real
    var fDesiredAmplitude: real
    var fDesiredAmplitudeFraction: real
    var fDesiredAmplitudeSteps: uint16
    var fDesiredFrequency: real
    var fDesiredFrequencyFraction: real
    var fDesiredFrequencySteps: uint16
    var fEnableJitter: bool
    var fFrequency: real
    var fInterpolationType: int
    var fJitterRange: real
    var fOffset: real
    var fPhaseOffset: real
    var fSignal: real
    var fStepSize: real

    function Cfg(): Config
    {
      Config(fWavetableSize, fSampleRate)
    }

    function State(): Osc
      reads this
    {
      Osc(fAmplitude, fArrayPtr, fDesiredAmplitude, fDesiredAmplitudeFraction, fDesiredAmplitudeSteps,
          fDesiredFrequency, fDesiredFrequencyFraction, fDesiredFrequencySteps, fEnableJitter, fFrequency,
          fInterpolationType, fJitterRange, fOffset, fPhaseOffset, fSignal, fStepSize)
    }

    ghost predicate Valid()
      reads this
    {
      fWavetableSize <= fWavetable.Length && Inv(Cfg(), State())
    }

    /** `Wavetable(wavetable, size, sampleRate)` over a caller's table. A zero
        size or sample rate makes the C++ divide by zero. */
    constructor (wavetable: array<real>, wavetableSize: uint32, sampleRate: uint32)
      requires 0 < wavetableSize <= wavetable.Length && sampleRate > 0
      ensures Valid() && fWavetable == wavetable
      ensures fWavetableSize == wavetableSize && fSampleRate == sampleRate
      ensures State() == Initial(Cfg())
    {
      fWavetableSize := wavetableSize;
      fSampleRate := sampleRate;
      fWavetable := wavetable;
      fArrayPtr := 0.0;
      fJitterRange := 0.0;
      fEnableJitter := false;
      fAmplitude := DEFAULT_AMPLITUDE;
      fPhaseOffset := 0.0;
      fInterpolationType := WAVESHAPE_INTERPOLATE_NONE;
      fDesiredAmplitude := 0.0;
      fDesiredAmplitudeFraction := 0.0;
      fDesiredAmplitudeSteps := 0;
      fDesiredFrequency := 0.0;
      fDesiredFrequencyFraction := 0.0;
      fDesiredFrequencySteps := 0;
      fFrequency := 0.0;
      fOffset := 0.0;
      fSignal := 0.0;
      fStepSize := 0.0;
      new;
      SetFrequency(DEFAULT_FREQUENCY);
    }

    /** `Wavetable(size, sampleRate)` over a table of its own (whose entries
        the C++ leaves unset; they are 0 here). */
    constructor Create(wavetableSize: uint32, sampleRate: uint32)
      requires 0 < wavetableSize && sampleRate > 0
      ensures Valid() && fresh(fWavetable) && fWavetable.Length == wavetableSize
      ensures fWavetableSize == wavetableSize && fSampleRate == sampleRate
      ensures State() == Initial(Cfg())
    {
      fWavetableSize := wavetableSize;
      fSampleRate := sampleRate;
      fWavetable := new real[wavetableSize];
      fArrayPtr := 0.0;
      fJitterRange := 0.0;
      fEnableJitter := false;
      fAmplitude := DEFAULT_AMPLITUDE;
      fPhaseOffset := 0.0;
      fInterpolationType := WAVESHAPE_INTERPOLATE_NONE;
      fDesiredAmplitude := 0.0;
      fDesiredAmplitudeFraction := 0.0;
      fDesiredAmplitudeSteps := 0;
      fDesiredFrequency := 0.0;
      fDesiredFrequencyFraction := 0.0;
      fDesiredFrequencySteps := 0;
      fFrequency := 0.0;
      fOffset := 0.0;
      fSignal := 0.0;
      fStepSize := 0.0;
      new;
      SetFrequency(DEFAULT_FREQUENCY);
    }

    /** `set_waveform(waveform)`: fills the whole table as `fill` does,
        including the unsigned-negation triangle and the one-partial sawtooth. */
    method SetWaveform(lib: Lib, waveform: uint8, randoms: seq<real>)
      requires Valid()
      requires waveform == WAVEFORM_NOISE ==> fWavetableSize <= |randoms|
      modifies fWavetable
      ensures Valid()
      ensures fWavetable[..] == FilledTableAsWritten(lib, old(fWavetable[..]), fWavetableSize, waveform, randoms)
    {
      FillAsWritten(lib, fWavetable, fWavetableSize, waveform, randoms);
    }

    /** `set_waveform(waveform, harmonics)`. */
    method SetWaveformHarmonics(lib: Lib, waveform: uint8, harmonics: uint8, unset: seq<real>)
      requires Valid()
      requires waveform == WAVEFORM_TRIANGLE || waveform == WAVEFORM_SQUARE ==> harmonics <= 254 && harmonics <= |unset|
      modifies fWavetable
      ensures Valid()
      ensures waveform == WAVEFORM_SAWTOOTH ==>
                fWavetable[..] == HarmonicTable(lib, old(fWavetable[..]), fWavetableSize, SawtoothAmps(harmonics), -0.25)
      ensures waveform == WAVEFORM_SQUARE ==>
                fWavetable[..] == HarmonicTable(lib, old(fWavetable[..]), fWavetableSize,
                                                OddHarmonicAmps(harmonics, unset, false), -0.25)
      ensures waveform == WAVEFORM_TRIANGLE ==>
                fWavetable[..] == HarmonicTable(lib, old(fWavetable[..]), fWavetableSize,
                                                OddHarmonicAmps(harmonics, unset, true), 0.0)
      ensures waveform != WAVEFORM_TRIANGLE && waveform != WAVEFORM_SAWTOOTH && waveform != WAVEFORM_SQUARE ==>
                fWavetable[..] == SineTable(lib, old(fWavetable[..]), fWavetableSize)
    {
      FillHarmonics(lib, fWavetable, fWavetableSize, harmonics, waveform, unset);
    }

    method GetFrequency() returns (r: real)
      ensures r == fFrequency
    {
      r := fFrequency;
    }

    method SetFrequency(frequency: real)
      requires fSampleRate > 0
      modifies this
      ensures State() == AfterSetFrequency(Cfg(), old(State()), frequency)
    {
      var newFrequency := if frequency < 0.0 then -frequency else frequency;
      if fFrequency != newFrequency {
        fFrequency := newFrequency;
        fStepSize := ComputeStepSize();
      }
    }

    method SetFrequencyGlide(frequency: real, interpolationDuration: uint16)
      requires Valid()
      modifies this
      ensures Valid()
      ensures State() == AfterSetFrequencyGlide(Cfg(), old(State()), frequency, interpolationDuration)
    {
      if interpolationDuration > 0 {
        fDesiredFrequency := frequency;
        fDesiredFrequencySteps := interpolationDuration;
        var delta := fDesiredFrequency - fFrequency;
        fDesiredFrequencyFraction := delta / interpolationDuration as real;
      } else {
        SetFrequency(frequency);
      }
    }

    method GetOffset() returns (r: real)
      ensures r == fOffset
    {
      r := fOffset;
    }

    method SetOffset(offset: real)
      modifies this
      ensures State() == old(State()).(offset := offset)
    {
      fOffset := offset;
    }

    method GetAmplitude() returns (r: real)
      ensures r == fAmplitude
    {
      r := fAmplitude;
    }

    method SetAmplitude(amplitude: real)
      modifies this
      ensures State() == AfterSetAmplitude(old(State()), amplitude)
    {
      fAmplitude := amplitude;
      fDesiredAmplitudeSteps := 0;
    }

    method SetAmplitudeGlide(amplitude: real, interpolationDuration: uint32)
      modifies this
      ensures State() == AfterSetAmplitudeGlide(old(State()), amplitude, interpolationDuration)
    {
      if interpolationDuration > 0 {
        fDesiredAmplitude := amplitude;
        fDesiredAmplitudeSteps := ToUint16(interpolationDuration);
        var delta := fDesiredAmplitude - fAmplitude;
        fDesiredAmplitudeFraction := delta / interpolationDuration as real;
      } else {
        SetAmplitude(amplitude);
      }
    }

    method GetWavetableSize() returns (r: uint32)
      ensures r == fWavetableSize
    {
      r := fWavetableSize;
    }

    method EnableJitter(enableJitter: bool)
      modifies this
      ensures State() == old(State()).(enableJitter := enableJitter)
    {
      fEnableJitter := enableJitter;
    }

    method GetPhaseOffset() returns (r: real)
      ensures r == fPhaseOffset
    {
      r := fPhaseOffset;
    }

    method SetPhaseOffset(phaseOffset: real)
      modifies this
      ensures State() == AfterSetPhaseOffset(old(State()), phaseOffset)
    {
      fPhaseOffset := if phaseOffset < 0.0 then 1.0 + phaseOffset else phaseOffset;
    }

    method GetJitterRange() returns (r: real)
      ensures r == fJitterRange
    {
      r := fJitterRange;
    }

    method SetJitterRange(jitterRange: real)
      modifies this
      ensures State() == old(State()).(jitterRange := jitterRange)
    {
      fJitterRange := jitterRange;
    }

    /** `reset()`: silence and the cursor back at the start. */
    method Reset()
      modifies this
      ensures State() == old(State()).(signal := 0.0, arrayPtr := 0.0)
    {
      fSignal := 0.0;
      fArrayPtr := 0.0;
    }

    method Current() returns (r: real)
      ensures r == fSignal
    {
      r := fSignal;
    }

    method SetInterpolation(interpolationType: int)
      modifies this
      ensures State() == old(State()).(interpolationType := interpolationType)
    {
      fInterpolationType := interpolationType;
    }

    /** `set_oscillation_speed(seconds)`: the frequency `1 / seconds`. */
    method SetOscillationSpeed(frequency: real)
      requires fSampleRate > 0 && frequency != 0.0
      modifies this
      ensures State() == AfterSetFrequency(Cfg(), old(State()), 1.0 / frequency)
    {
      SetFrequency(1.0 / frequency);
    }

    method SetOscillationRange(min: real, max: real)
      modifies this
      ensures State() == AfterSetOscillationRange(old(State()), min, max)
    {
      var delta := max - min;
      SetAmplitude(delta * 0.5);
      SetOffset(delta * 0.5 + min);
    }

    /** The amplitude glide at the head of `process()`. */
    method StepAmplitudeGlide()
      requires Valid()
      modifies this
      ensures Valid()
      ensures State() == AmplitudeGlideStep(old(State()))
    {
      if fDesiredAmplitudeSteps > 0 {
        fDesiredAmplitudeSteps := fDesiredAmplitudeSteps - 1;
        if fDesiredAmplitudeSteps == 0 {
          fAmplitude := fDesiredAmplitude;
        } else {
          fAmplitude := fAmplitude + fDesiredAmplitudeFraction;
        }
      }
    }

    /** The frequency glide that follows it. */
    method StepFrequencyGlide()
      requires Valid()
      modifies this
      ensures Valid()
      ensures State() == FrequencyGlideStep(Cfg(), old(State()))
    {
      if fDesiredFrequencySteps > 0 {
        fDesiredFrequencySteps := fDesiredFrequencySteps - 1;
        if fDesiredFrequencySteps == 0 {
          SetFrequency(fDesiredFrequency);
        } else {
          SetFrequency(fFrequency + fDesiredFrequencyFraction);
        }
      }
    }

    /** `process()`: one output sample. */
    method Process(random: real) returns (r: real)
      requires Valid()
      modifies this
      ensures Valid()
      ensures State() == ProcessState(Cfg(), fWavetable[..], old(State()), random)
      ensures r == fSignal
    {
      StepAmplitudeGlide();
      StepFrequencyGlide();
      ghost var afterGlides := State();
      ghost var advanced := Wrap(fArrayPtr + Jittered(afterGlides, random), fWavetableSize);

      var sample;
      if fInterpolationType == WAVESHAPE_INTERPOLATE_LINEAR {
        sample := NextSampleInterpolateLinear(random);
      } else if fInterpolationType == WAVESHAPE_INTERPOLATE_CUBIC {
        sample := NextSampleInterpolateCubic(random);
      } else {
        sample := NextSample(random);
      }
      assert sample == Read(Cfg(), fWavetable[..], afterGlides);
      assert State() == afterGlides.(arrayPtr := advanced);
      fSignal := sample;
      fSignal := Gain(fSignal, fAmplitude);
      fSignal := fSignal + fOffset;
      EmitFields(Cfg(), fWavetable[..], afterGlides, random, sample, advanced);
      assert State() == afterGlides.(arrayPtr := advanced, signal := Gain(sample, afterGlides.amplitude) + afterGlides.offset);
      r := fSignal;
    }

    /** `process(buffer, length)`: `length` calls of `process()` into the
        buffer. The loop counter is a `uint16_t`, so a length of 65536 or
        more never ends. */
    method ProcessBuffer(buffer: array<real>, length: uint32, randoms: seq<real>)
      requires Valid()
      requires length < 0x1_0000 && length <= buffer.Length && length <= |randoms|
      requires buffer != fWavetable
      modifies this, buffer
      ensures Valid()
      ensures State() == ProcessN(Cfg(), fWavetable[..], old(State()), randoms[..length])
      ensures forall i :: 0 <= i < length ==>
                buffer[i] == ProcessN(Cfg(), fWavetable[..], old(State()), randoms[..i + 1]).signal
      ensures forall i :: length <= i < buffer.Length ==> buffer[i] == old(buffer[i])
    {
      ghost var start := State();
      ghost var table := fWavetable[..];
      for i := 0 to length
        invariant Valid() && fWavetable[..] == table
        invariant State() == ProcessN(Cfg(), table, start, randoms[..i])
        invariant forall k :: 0 <= k < i ==> buffer[k] == ProcessN(Cfg(), table, start, randoms[..k + 1]).signal
        invariant forall k :: i <= k < buffer.Length ==> buffer[k] == old(buffer[k])
      {
        ProcessAt(buffer, i, randoms, start, table);
      }
    }

    /** One iteration of `process(buffer, length)`: the oscillator takes its
        `i`-th step and entry `i` receives the signal; no other entry
        changes. */
    method ProcessAt(buffer: array<real>, i: nat, randoms: seq<real>, ghost start: Osc, ghost table: seq<real>)
      requires Valid() && fWavetable[..] == table && Inv(Cfg(), start)
      requires i < buffer.Length && i < |randoms| && buffer != fWavetable
      requires State() == ProcessN(Cfg(), table, start, randoms[..i])
      modifies this, buffer
      ensures Valid() && fWavetable[..] == table
      ensures State() == ProcessN(Cfg(), table, start, randoms[..i + 1])
      ensures buffer[i] == ProcessN(Cfg(), table, start, randoms[..i + 1]).signal
      ensures forall k :: 0 <= k < buffer.Length && k != i ==> buffer[k] == old(buffer[k])
    {
      assert randoms[..i + 1][..i] == randoms[..i];
      var s := Process(randoms[i]);
      buffer[i] := s;
    }

    function ComputeStepSize(): (r: real)
      requires fSampleRate > 0
      reads this
      ensures r == StepSize(Cfg(), fFrequency)
    {
      fFrequency * (fWavetableSize as real / fSampleRate as real)
    }

    /** `advance_array_ptr()`: moves the cursor by the (jittered) step size,
        then brings it back into [0, size) by whole table lengths, downwards
        and then upwards. */
    method AdvanceArrayPtr(random: real)
      requires fWavetableSize > 0
      modifies this
      ensures State() == old(State()).(arrayPtr := Wrap(old(fArrayPtr) + Jittered(old(State()), random), fWavetableSize))
    {
      var ptr := fArrayPtr + fStepSize * (if fEnableJitter then random * fJitterRange + 1.0 else 1.0);
      ghost var x := ptr;
      assert x == old(fArrayPtr) + Jittered(old(State()), random);
      var n := fWavetableSize as real;
      while ptr >= n
        invariant WrapDown(ptr, fWavetableSize) == WrapDown(x, fWavetableSize)
        invariant unchanged(this)
        decreases ptr.Floor
      {
        FloorShift(ptr, -(fWavetableSize as int));
        ptr := ptr - n;
      }
      ghost var y := ptr;
      assert WrapDown(x, fWavetableSize) == y;
      while ptr < 0.0
        invariant WrapUp(ptr, fWavetableSize) == WrapUp(y, fWavetableSize)
        invariant unchanged(this)
        decreases -ptr.Floor
      {
        FloorShift(ptr, fWavetableSize);
        ptr := ptr + n;
      }
      assert WrapUp(y, fWavetableSize) == ptr;
      assert ptr == Wrap(x, fWavetableSize);
      fArrayPtr := ptr;
    }

    /** `next_sample()`. */
    method NextSample(random: real) returns (r: real)
      requires Valid()
      modifies this
      ensures r == ReadNearest(Cfg(), fWavetable[..], old(fArrayPtr))
      ensures State() == old(State()).(arrayPtr := Wrap(old(fArrayPtr) + Jittered(old(State()), random), fWavetableSize))
    {
      r := fWavetable[Trunc(fArrayPtr)];
      AdvanceArrayPtr(random);
    }

    /** `next_sample_interpolate_linear()`, with both indices wrapped. */
    method NextSampleInterpolateLinear(random: real) returns (r: real)
      requires Valid()
      modifies this
      ensures r == ReadLinear(Cfg(), fWavetable[..], old(State()))
      ensures State() == old(State()).(arrayPtr := Wrap(old(fArrayPtr) + Jittered(old(State()), random), fWavetableSize))
    {
      var sampleOffset := SampleOffset(Cfg(), fPhaseOffset);
      var position := fArrayPtr + sampleOffset as real;
      var frac := position - Trunc(position) as real;
      var base := BaseIndex(Cfg(), position);
      var a := fWavetable[base];
      var b := fWavetable[Neighbour(Cfg(), base, 1)];
      r := Lerp(a, b, frac);
      AdvanceArrayPtr(random);
    }

    /** `next_sample_interpolate_cubic()`, with all four indices wrapped. */
    method NextSampleInterpolateCubic(random: real) returns (r: real)
      requires Valid()
      modifies this
      ensures r == ReadCubic(Cfg(), fWavetable[..], old(State()))
      ensures State() == old(State()).(arrayPtr := Wrap(old(fArrayPtr) + Jittered(old(State()), random), fWavetableSize))
    {
      var sampleOffset := SampleOffset(Cfg(), fPhaseOffset);
      var position := fArrayPtr + sampleOffset as real;
      var frac := position - Trunc(position) as real;
      var base := BaseIndex(Cfg(), position);
      var a := fWavetable[Neighbour(Cfg(), base, -1)];
      var b := fWavetable[base];
      var c := fWavetable[Neighbour(Cfg(), base, 1)];
      var d := fWavetable[Neighbour(Cfg(), base, 2)];
      r := Cubic(a, b, c, d, frac);
      AdvanceArrayPtr(random);
    }
  }

}
