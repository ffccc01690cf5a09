/**
 * `OscillatorFunction`: an oscillator that computes its waveform from a phase
 * instead of reading a table. Sine advances its phase by a step in radians
 * and takes 2π off once; triangle, sawtooth and square advance it by the
 * frequency and wrap it into one second's worth of samples with `mod`.
 * `KlangWellen::random()` is a parameter: the value it would return on that
 * call.
 */
module FunctionOscillator {
  import opened Numerics
  import opened KlangWellen
  import opened MathLib

  const DEFAULT_AMPLITUDE: real := 0.75
  const DEFAULT_FREQUENCY: real := 220.0

  // ---------------------------------------------------------------------------
  // mod

  /** Scaling by a positive factor keeps a strict order. */
  lemma ScaleStrict(x: real, y: real, b: real)
    requires b > 0.0 && x < y
    ensures x * b < y * b
  {
    var d := y - x;
    assert d * b > 0.0;
    assert y * b - x * b == d * b;
  }

  /** Scaling by a positive factor keeps an order. */
  lemma Scale(x: real, y: real, b: real)
    requires b > 0.0 && x <= y
    ensures x * b <= y * b
  {
    if x < y {
      ScaleStrict(x, y, b);
    }
  }

  /** With `b > 0`, the integer part `q` of `a / b` puts `a` between `q*b`
      and `q*b + b`. */
  lemma QuotientBounds(a: real, b: real, q: int)
    requires b > 0.0 && q as real <= a / b < q as real + 1.0
    ensures (q as real) * b <= a
    ensures a < (q as real) * b + b
  {
    var x := a / b;
    var qr := q as real;
    assert x * b == a;
    assert qr * b <= a by {
      Scale(qr, x, b);
    }
    assert a < qr * b + b by {
      ScaleStrict(x, qr + 1.0, b);
      assert (qr + 1.0) * b == qr * b + b;
    }
  }

  /** With `b > 0`, `lo * b <= a < hi * b` puts `a / b` in `[lo, hi)`. */
  lemma QuotientIn(a: real, b: real, lo: real, hi: real)
    requires b > 0.0 && lo * b <= a < hi * b
    ensures lo <= a / b < hi
  {
    var x := a / b;
    assert x * b == a;
    if x < lo {
      ScaleStrict(x, lo, b);
    }
    if x >= hi {
      Scale(hi, x, b);
    }
  }

  /** `mod(a, b)`: `a` itself below `b`; otherwise `a` less `b` times the
      truncated quotient, which for `b > 0` lands in `[0, b)`. A negative `a`
      is returned unchanged. */
  function Mod(a: real, b: real): (r: real)
    requires b != 0.0
    ensures a < b ==> r == a
    ensures 0.0 < b <= a ==> 0.0 <= r < b
  {
    if a < b then a
    else
      var q := Trunc(a / b);
      assert b > 0.0 ==> q as real * b <= a < q as real * b + b by {
        if b > 0.0 {
          QuotientBounds(a, b, q);
        }
      }
      a - b * (q as real)
  }

  /** On non-negative arguments, `mod` is the floored remainder:
      `a - b * floor(a / b)`, whether or not `a` reaches `b`. */
  lemma ModIsFlooredRemainder(a: real, b: real)
    requires 0.0 <= a && 0.0 < b
    ensures Mod(a, b) == a - b * ((a / b).Floor as real)
  {
    if a < b {
      QuotientIn(a, b, 0.0, 1.0);
      assert (a / b).Floor == 0;
    }
  }

  // ---------------------------------------------------------------------------
  // The shapes

  /** `process_sine`'s phase: advance by the step, then take 2π off once if
      past 2π. A phase in [0, 2π] stays there for a step in [0, 2π]. */
  function SinePhase(phase: real, stepSize: real): (r: real)
    ensures r == phase + stepSize || r == phase + stepSize - TWO_PI
    ensures phase + stepSize <= 2.0 * TWO_PI ==> r <= TWO_PI
    ensures 0.0 <= phase <= TWO_PI && 0.0 <= stepSize <= TWO_PI ==> 0.0 <= r <= TWO_PI
  {
    var p := phase + stepSize;
    if p > TWO_PI then p - TWO_PI else p
  }

  /** The phase of `process_triangle`, `process_sawtooth` and
      `process_square`: advance by the frequency and `mod` by the sample
      rate. It lands in [0, sr) unless the advanced phase is negative, which
      `mod` leaves alone. */
  function CyclePhase(phase: real, frequency: real, sampleRate: real): (r: real)
    requires sampleRate > 0.0
    ensures 0.0 <= phase + frequency ==> 0.0 <= r < sampleRate
    ensures phase + frequency < 0.0 ==> r == phase + frequency
  {
    Mod(phase + frequency, sampleRate)
  }

  /** `(n - q) / q` for `0 <= n <= 2q` lies in [-1, 1]. */
  lemma CenteredRatioBounds(n: real, q: real)
    requires q > 0.0 && 0.0 <= n <= 2.0 * q
    ensures -1.0 <= (n - q) / q <= 1.0
  {
    var x := (n - q) / q;
    assert x * q == n - q;
  }

  /** `process_triangle`'s output: the distance of the phase from the middle
      of the cycle, rescaled from [0, sr/2] to [-1, 1]. */
  function TriangleOf(phase: real, sampleRate: real): (r: real)
    requires sampleRate > 0.0
    ensures 0.0 <= phase <= sampleRate ==> -1.0 <= r <= 1.0
  {
    var shifted := phase - sampleRate / 2.0;
    var shiftedAbs := if shifted > 0.0 then shifted else -shifted;
    var quarter := sampleRate / 4.0;
    assert 0.0 <= phase <= sampleRate ==> -1.0 <= (shiftedAbs - quarter) / quarter <= 1.0 by {
      if 0.0 <= phase <= sampleRate {
        CenteredRatioBounds(shiftedAbs, quarter);
      }
    }
    (shiftedAbs - quarter) / quarter
  }

  /** The triangle is symmetric about the middle of the cycle, peaks at 1
      at the start of the cycle and bottoms out at -1 in the middle. */
  lemma TriangleShape(sampleRate: real, d: real)
    requires sampleRate > 0.0
    ensures TriangleOf(sampleRate / 2.0 + d, sampleRate) == TriangleOf(sampleRate / 2.0 - d, sampleRate)
    ensures TriangleOf(0.0, sampleRate) == SIGNAL_MAX
    ensures TriangleOf(sampleRate / 2.0, sampleRate) == SIGNAL_MIN
  {
    var quarter := sampleRate / 4.0;
    assert (quarter - quarter) / quarter == 0.0;
    assert (2.0 * quarter - quarter) / quarter == 1.0;
    assert (0.0 - quarter) / quarter == -1.0;
  }

  /** `process_sawtooth`'s output: the phase rescaled from [0, sr) to
      [-1, 1). */
  function SawtoothOf(phase: real, sampleRate: real): (r: real)
    requires sampleRate > 0.0
    ensures 0.0 <= phase < sampleRate ==> SIGNAL_MIN <= r < SIGNAL_MAX
  {
    var half := sampleRate / 2.0;
    assert 0.0 <= phase < sampleRate ==> 0.0 <= phase / half < 2.0 by {
      if 0.0 <= phase < sampleRate {
        QuotientIn(phase, half, 0.0, 2.0);
      }
    }
    phase / half + SIGNAL_MIN
  }

  /** The sawtooth rises strictly with the phase and starts at -1. */
  lemma SawtoothRises(p: real, q: real, sampleRate: real)
    requires sampleRate > 0.0 && p < q
    ensures SawtoothOf(p, sampleRate) < SawtoothOf(q, sampleRate)
    ensures SawtoothOf(0.0, sampleRate) == SIGNAL_MIN
  {
    var half := sampleRate / 2.0;
    var d := q / half - p / half;
    assert d * half == q - p;
    if d <= 0.0 {
      Scale(d, 0.0, half);
    }
  }

  /** `process_square`'s output: high exactly in the second half of the
      cycle, low otherwise; never anything else. */
  function SquareOf(phase: real, sampleRate: real): (r: real)
    ensures r == SIGNAL_MAX || r == SIGNAL_MIN
    ensures r == SIGNAL_MAX <==> phase > sampleRate / 2.0
  {
    if phase > sampleRate / 2.0 then SIGNAL_MAX else SIGNAL_MIN
  }

  // ---------------------------------------------------------------------------
  // The oscillator as a value

  /** The fields of an `OscillatorFunction`, other than the sample rate. */
  datatype Osc = Osc(amplitude: real, frequency: real, offset: real, phase: real,
                     stepSize: real, waveform: int)

  /** The step size is the frequency in radians per sample. */
  predicate StepCoherent(o: Osc, sampleRate: real)
    requires sampleRate > 0.0
  {
    o.stepSize == o.frequency * TWO_PI / sampleRate
  }

  /** `set_frequency`: store the frequency and recompute the step, but only
      when the frequency differs from the stored one. */
  function FrequencySet(o: Osc, frequency: real, sampleRate: real): (r: Osc)
    requires sampleRate > 0.0
    ensures r.frequency == frequency
    ensures r == o.(frequency := r.frequency, stepSize := r.stepSize)
    ensures o.frequency == frequency ==> r == o
  {
    if o.frequency != frequency then
      o.(frequency := frequency, stepSize := frequency * TWO_PI / sampleRate)
    else o
  }

  /** `set_frequency` keeps the step coherent with the frequency, and makes
      it coherent whenever the frequency actually changes. */
  lemma FrequencySetCoherent(o: Osc, frequency: real, sampleRate: real)
    requires sampleRate > 0.0
    ensures StepCoherent(o, sampleRate) ==> StepCoherent(FrequencySet(o, frequency, sampleRate), sampleRate)
    ensures o.frequency != frequency ==> StepCoherent(FrequencySet(o, frequency, sampleRate), sampleRate)
  {
  }

  /** The new phase and the raw shape value `s` of one `process()`. */
  datatype Shaped = Shaped(phase: real, s: real)

  /** The `switch` of `process()`. An unknown waveform leaves the phase alone
      and gives 0; noise leaves it alone and gives the random value. */
  function Shape(lib: Lib, o: Osc, sampleRate: real, random: real): (r: Shaped)
    requires sampleRate > 0.0
    ensures o.waveform == WAVEFORM_SQUARE ==> r.s == SIGNAL_MAX || r.s == SIGNAL_MIN
    ensures o.waveform !in {WAVEFORM_SINE, WAVEFORM_TRIANGLE, WAVEFORM_SAWTOOTH, WAVEFORM_SQUARE}
            ==> r.phase == o.phase
    ensures o.waveform !in {WAVEFORM_SINE, WAVEFORM_TRIANGLE, WAVEFORM_SAWTOOTH, WAVEFORM_SQUARE, WAVEFORM_NOISE}
            ==> r.s == 0.0
  {
    if o.waveform == WAVEFORM_SINE then
      var p := SinePhase(o.phase, o.stepSize);
      Shaped(p, lib.sin(p))
    else if o.waveform == WAVEFORM_TRIANGLE then
      var p := CyclePhase(o.phase, o.frequency, sampleRate);
      Shaped(p, TriangleOf(p, sampleRate))
    else if o.waveform == WAVEFORM_SAWTOOTH then
      var p := CyclePhase(o.phase, o.frequency, sampleRate);
      Shaped(p, SawtoothOf(p, sampleRate))
    else if o.waveform == WAVEFORM_SQUARE then
      var p := CyclePhase(o.phase, o.frequency, sampleRate);
      Shaped(p, SquareOf(p, sampleRate))
    else if o.waveform == WAVEFORM_NOISE then
      Shaped(o.phase, random)
    else
      Shaped(o.phase, 0.0)
  }

  /** The shape value stays in [-1, 1] for every waveform, given a bounded
      `sin`, a `random()` value in [0, 1), and, for the shapes that wrap with
      `mod`, an advanced phase that is not negative. */
  lemma ShapeBounded(lib: Lib, o: Osc, sampleRate: real, random: real)
    requires sampleRate > 0.0 && SinBounded(lib) && 0.0 <= random < 1.0
    requires 0.0 <= o.phase + o.frequency
    ensures -1.0 <= Shape(lib, o, sampleRate, random).s <= 1.0
  {
  }

  /** The phase keeps to its range: [0, 2π] for the sine with a step in
      [0, 2π], [0, sr) for the other shapes with a non-negative frequency. */
  lemma ShapePhaseInRange(lib: Lib, o: Osc, sampleRate: real, random: real)
    requires sampleRate > 0.0
    ensures o.waveform == WAVEFORM_SINE && 0.0 <= o.phase <= TWO_PI && 0.0 <= o.stepSize <= TWO_PI
            ==> 0.0 <= Shape(lib, o, sampleRate, random).phase <= TWO_PI
    ensures o.waveform in {WAVEFORM_TRIANGLE, WAVEFORM_SAWTOOTH, WAVEFORM_SQUARE}
            && 0.0 <= o.phase < sampleRate && 0.0 <= o.frequency
            ==> 0.0 <= Shape(lib, o, sampleRate, random).phase < sampleRate
  {
  }

  /** `s *= mAmplitude; s += mOffset`. */
  function Emit(s: real, amplitude: real, offset: real): (r: real)
    ensures -1.0 <= s <= 1.0 && amplitude >= 0.0 ==> offset - amplitude <= r <= offset + amplitude
  {
    assert -1.0 <= s <= 1.0 && amplitude >= 0.0 ==> -amplitude <= s * amplitude <= amplitude by {
      if -1.0 <= s <= 1.0 && amplitude >= 0.0 {
        assert (s + 1.0) * amplitude >= 0.0;
        assert (1.0 - s) * amplitude >= 0.0;
      }
    }
    s * amplitude + offset
  }

  datatype Ticked = Ticked(osc: Osc, output: real)

  /** One `process()`: only the phase changes, and the output is the shape
      value scaled by the amplitude and moved by the offset. */
  function OscStep(lib: Lib, o: Osc, sampleRate: real, random: real): (r: Ticked)
    requires sampleRate > 0.0
    ensures r.osc == o.(phase := r.osc.phase)
    ensures o.waveform !in {WAVEFORM_SINE, WAVEFORM_TRIANGLE, WAVEFORM_SAWTOOTH, WAVEFORM_SQUARE, WAVEFORM_NOISE}
            ==> r.osc == o && r.output == o.offset
    ensures o.waveform == WAVEFORM_SQUARE
            ==> r.output == o.amplitude + o.offset || r.output == -o.amplitude + o.offset
  {
    var sh := Shape(lib, o, sampleRate, random);
    Ticked(o.(phase := sh.phase), Emit(sh.s, o.amplitude, o.offset))
  }

  /** The output of one `process()` stays within the amplitude around the
      offset, under the conditions of `ShapeBounded`. */
  lemma OscStepBounded(lib: Lib, o: Osc, sampleRate: real, random: real)
    requires sampleRate > 0.0 && SinBounded(lib) && 0.0 <= random < 1.0
    requires 0.0 <= o.phase + o.frequency && o.amplitude >= 0.0
    ensures o.offset - o.amplitude <= OscStep(lib, o, sampleRate, random).output <= o.offset + o.amplitude
  {
    ShapeBounded(lib, o, sampleRate, random);
  }

  /** The oscillator after one `process()` per value of `randoms`. */
  function OscRun(lib: Lib, o: Osc, sampleRate: real, randoms: seq<real>): (r: Osc)
    requires sampleRate > 0.0
    ensures r == o.(phase := r.phase)
    decreases |randoms|
  {
    if randoms == [] then o
    else OscStep(lib, OscRun(lib, o, sampleRate, randoms[..|randoms| - 1]), sampleRate, randoms[|randoms| - 1]).osc
  }

  /** The outputs of those `process()` calls, in order. */
  function OscOutputs(lib: Lib, o: Osc, sampleRate: real, randoms: seq<real>): (r: seq<real>)
    requires sampleRate > 0.0
    ensures |r| == |randoms|
    decreases |randoms|
  {
    if randoms == [] then []
    else
      var n := |randoms| - 1;
      OscOutputs(lib, o, sampleRate, randoms[..n]) + [OscStep(lib, OscRun(lib, o, sampleRate, randoms[..n]), sampleRate, randoms[n]).output]
  }

  lemma OscRunSnoc(lib: Lib, o: Osc, sampleRate: real, randoms: seq<real>, i: nat)
    requires sampleRate > 0.0 && i < |randoms|
    ensures OscRun(lib, o, sampleRate, randoms[..i + 1])
            == OscStep(lib, OscRun(lib, o, sampleRate, randoms[..i]), sampleRate, randoms[i]).osc
    ensures OscOutputs(lib, o, sampleRate, randoms[..i + 1])
            == OscOutputs(lib, o, sampleRate, randoms[..i]) + [OscStep(lib, OscRun(lib, o, sampleRate, randoms[..i]), sampleRate, randoms[i]).output]
  {
    assert randoms[..i + 1][..i] == randoms[..i];
  }

  /** Over any number of calls, a triangle, sawtooth or square oscillator
      with a non-negative frequency keeps its phase in [0, sr), and a sine
      oscillator with a step in [0, 2π] keeps it in [0, 2π]. */
  lemma {:induction false} OscRunPhaseInRange(lib: Lib, o: Osc, sampleRate: real, randoms: seq<real>)
    requires sampleRate > 0.0
    ensures o.waveform in {WAVEFORM_TRIANGLE, WAVEFORM_SAWTOOTH, WAVEFORM_SQUARE}
            && 0.0 <= o.phase < sampleRate && 0.0 <= o.frequency
            ==> 0.0 <= OscRun(lib, o, sampleRate, randoms).phase < sampleRate
    ensures o.waveform == WAVEFORM_SINE && 0.0 <= o.phase <= TWO_PI && 0.0 <= o.stepSize <= TWO_PI
            ==> 0.0 <= OscRun(lib, o, sampleRate, randoms).phase <= TWO_PI
    decreases |randoms|
  {
    if randoms != [] {
      var n := |randoms| - 1;
      OscRunPhaseInRange(lib, o, sampleRate, randoms[..n]);
      ShapePhaseInRange(lib, OscRun(lib, o, sampleRate, randoms[..n]), sampleRate, randoms[n]);
    }
  }

  // ---------------------------------------------------------------------------
  // The oscillator object

  class OscillatorFunction {
    var mAmplitude: real
    var mFrequency: real
    var mOffset: real
    var mPhase: real
    const mSamplingRate: real
    var mStepSize: real
    var mWaveform: int

    ghost predicate Valid()
      reads this
    {
      mSamplingRate > 0.0
    }

    function Snapshot(): Osc
      reads this
    {
      Osc(mAmplitude, mFrequency, mOffset, mPhase, mStepSize, mWaveform)
    }

    /** A sine at 220 Hz with amplitude 0.75. The source reads `mFrequency`
        before it is set and never sets `mPhase`, `mOffset` or `mStepSize`
        itself; here they start at 0. */
    constructor(sampleRate: uint32)
      requires sampleRate > 0
      ensures Valid() && mSamplingRate == sampleRate as real
      ensures Snapshot() == Osc(DEFAULT_AMPLITUDE, DEFAULT_FREQUENCY, 0.0, 0.0,
                                DEFAULT_FREQUENCY * TWO_PI / (sampleRate as real), WAVEFORM_SINE)
      ensures StepCoherent(Snapshot(), mSamplingRate)
    {
      mSamplingRate := sampleRate as real;
      mWaveform := WAVEFORM_SINE;
      mFrequency := 0.0;
      mPhase := 0.0;
      mOffset := 0.0;
      mStepSize := 0.0;
      mAmplitude := 0.0;
      new;
      SetFrequency(DEFAULT_FREQUENCY);
      SetAmplitude(DEFAULT_AMPLITUDE);
    }

    function GetWaveform(): int
      reads this
    {
      mWaveform
    }

    method SetWaveform(waveform: int)
      modifies this
      ensures Snapshot() == old(Snapshot()).(waveform := waveform)
    {
      mWaveform := waveform;
    }

    function GetAmplitude(): real
      reads this
    {
      mAmplitude
    }

    method SetAmplitude(amplitude: real)
      modifies this
      ensures Snapshot() == old(Snapshot()).(amplitude := amplitude)
    {
      mAmplitude := amplitude;
    }

    function GetOffset(): real
      reads this
    {
      mOffset
    }

    method SetOffset(offset: real)
      modifies this
      ensures Snapshot() == old(Snapshot()).(offset := offset)
    {
      mOffset := offset;
    }

    function GetFrequency(): real
      reads this
    {
      mFrequency
    }

    /** `set_frequency`. */
    method SetFrequency(frequency: real)
      requires Valid()
      modifies this
      ensures Valid() && Snapshot() == FrequencySet(old(Snapshot()), frequency, mSamplingRate)
    {
      if mFrequency != frequency {
        mFrequency := frequency;
        mStepSize := mFrequency * TWO_PI / mSamplingRate;
      }
    }

    /** `process_sine`. */
    method ProcessSine(lib: Lib) returns (s: real)
      modifies this
      ensures Snapshot() == old(Snapshot()).(phase := SinePhase(old(mPhase), mStepSize))
      ensures s == lib.sin(mPhase)
    {
      mPhase := mPhase + mStepSize;
      if mPhase > TWO_PI {
        mPhase := mPhase - TWO_PI;
      }
      s := lib.sin(mPhase);
    }

    /** `process_triangle`. */
    method ProcessTriangle() returns (s: real)
      requires Valid()
      modifies this
      ensures Snapshot() == old(Snapshot()).(phase := CyclePhase(old(mPhase), mFrequency, mSamplingRate))
      ensures s == TriangleOf(mPhase, mSamplingRate)
    {
      mPhase := mPhase + mFrequency;
      mPhase := Mod(mPhase, mSamplingRate);
      var phaseShifted := mPhase - mSamplingRate / 2.0;
      var phaseShiftedAbs := if phaseShifted > 0.0 then phaseShifted else -phaseShifted;
      s := (phaseShiftedAbs - mSamplingRate / 4.0) / (mSamplingRate / 4.0);
    }

    /** `process_sawtooth`. */
    method ProcessSawtooth() returns (s: real)
      requires Valid()
      modifies this
      ensures Snapshot() == old(Snapshot()).(phase := CyclePhase(old(mPhase), mFrequency, mSamplingRate))
      ensures s == SawtoothOf(mPhase, mSamplingRate)
    {
      mPhase := mPhase + mFrequency;
      mPhase := Mod(mPhase, mSamplingRate);
      s := mPhase / (mSamplingRate / 2.0) + SIGNAL_MIN;
    }

    /** `process_square`. */
    method ProcessSquare() returns (s: real)
      requires Valid()
      modifies this
      ensures Snapshot() == old(Snapshot()).(phase := CyclePhase(old(mPhase), mFrequency, mSamplingRate))
      ensures s == SquareOf(mPhase, mSamplingRate)
    {
      mPhase := mPhase + mFrequency;
      mPhase := Mod(mPhase, mSamplingRate);
      s := if mPhase > mSamplingRate / 2.0 then SIGNAL_MAX else SIGNAL_MIN;
    }

    /** `process()`; `random` is what `KlangWellen::random()` returns if the
        waveform is noise. */
    method Process(lib: Lib, random: real) returns (r: real)
      requires Valid()
      modifies this
      ensures Valid()
      ensures Ticked(Snapshot(), r) == OscStep(lib, old(Snapshot()), mSamplingRate, random)
    {
      var s: real;
      if mWaveform == WAVEFORM_SINE {
        s := ProcessSine(lib);
      } else if mWaveform == WAVEFORM_TRIANGLE {
        s := ProcessTriangle();
      } else if mWaveform == WAVEFORM_SAWTOOTH {
        s := ProcessSawtooth();
      } else if mWaveform == WAVEFORM_SQUARE {
        s := ProcessSquare();
      } else if mWaveform == WAVEFORM_NOISE {
        s := random;
      } else {
        s := 0.0;
      }
      s := s * mAmplitude;
      s := s + mOffset;
      r := s;
    }

    /** `process(signal_buffer, length)`: the first `length` entries are
        overwritten with successive outputs, `randoms[i]` standing for the
        `i`-th call's random value. The counter is a `uint16_t`, so the loop
        ends only for lengths below 65536. */
    method ProcessBuffer(lib: Lib, signalBuffer: array<real>, length: uint32, randoms: seq<real>)
      requires Valid() && length < 0x1_0000 && length <= signalBuffer.Length && length <= |randoms|
      modifies this, signalBuffer
      ensures Valid()
      ensures Snapshot() == OscRun(lib, old(Snapshot()), mSamplingRate, randoms[..length])
      ensures signalBuffer[..length] == OscOutputs(lib, old(Snapshot()), mSamplingRate, randoms[..length])
      ensures forall k :: length <= k < signalBuffer.Length ==> signalBuffer[k] == old(signalBuffer[k])
    {
      ghost var start := Snapshot();
      for i := 0 to length
        invariant Valid()
        invariant Snapshot() == OscRun(lib, start, mSamplingRate, randoms[..i])
        invariant signalBuffer[..i] == OscOutputs(lib, start, mSamplingRate, randoms[..i])
        invariant forall k :: i <= k < signalBuffer.Length ==> signalBuffer[k] == old(signalBuffer[k])
      {
        OscRunSnoc(lib, start, mSamplingRate, randoms, i);
        ghost var outputs := signalBuffer[..i];
        var s := Process(lib, randoms[i]);
        signalBuffer[i] := s;
        assert signalBuffer[..i + 1] == outputs + [s];
      }
    }
  }
}
