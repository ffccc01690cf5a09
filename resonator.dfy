/**
 * `Resonator`: a two-pole, two-zero IIR section whose coefficients follow
 * from a resonant frequency and a quality factor. The feed-forward and
 * feedback coefficients are the same numbers (`a1 == b1`, `a2 == b2`) and
 * `a0` keeps the un-normalised value `1 + alpha`, so the output is the input
 * plus an all-pole resonance driven by `alpha` times the input
 * (`ExcessIsResonance`).
 */
module IirResonator {
  import opened Numerics
  import opened KlangWellen
  import opened MathLib

  const DEFAULT_FREQUENCY: real := 440.0
  const DEFAULT_Q: real := 1.0

  // ---------------------------------------------------------------------------
  // calculateCoefficients

  /** `2π f / sr`. */
  function Omega(frequency: real, sampleRate: real): real
    requires sampleRate != 0.0
  {
    TWO_PI * frequency / sampleRate
  }

  /** `sin(omega) / (2 Q)`. */
  function Alpha(lib: Lib, frequency: real, sampleRate: real, q: real): real
    requires sampleRate != 0.0 && q != 0.0
  {
    lib.sin(Omega(frequency, sampleRate)) / (2.0 * q)
  }

  /** The settings `calculateCoefficients` can divide by: a non-zero sample
      rate, Q and `a0`. */
  predicate Computable(lib: Lib, frequency: real, sampleRate: real, q: real)
  {
    sampleRate != 0.0 && q != 0.0 && Alpha(lib, frequency, sampleRate, q) != -1.0
  }

  datatype Coefs = Coefs(a0: real, a1: real, a2: real, b1: real, b2: real)

  /** `calculateCoefficients`: the un-normalised section is
      `(1 + alpha, -2 cos omega, 1 - alpha)` on both sides; every coefficient
      but `a0` is then divided by `a0`. */
  function CoefficientsFor(lib: Lib, frequency: real, sampleRate: real, q: real): (c: Coefs)
    requires Computable(lib, frequency, sampleRate, q)
    ensures c.a1 == c.b1 && c.a2 == c.b2
    ensures c.a0 == 1.0 + Alpha(lib, frequency, sampleRate, q)
    ensures c.a1 * c.a0 == -2.0 * lib.cos(Omega(frequency, sampleRate))
    ensures c.a2 * c.a0 == 1.0 - Alpha(lib, frequency, sampleRate, q)
  {
    var omega := Omega(frequency, sampleRate);
    var alpha := Alpha(lib, frequency, sampleRate, q);
    var a0 := 1.0 + alpha;
    var a1 := -2.0 * lib.cos(omega);
    var a2 := 1.0 - alpha;
    Coefs(a0, a1 / a0, a2 / a0, a1 / a0, a2 / a0)
  }

  // ---------------------------------------------------------------------------
  // process

  /** The last two inputs and outputs. */
  datatype Delays = Delays(x1: real, x2: real, y1: real, y2: real)

  function Zero(): Delays
  {
    Delays(0.0, 0.0, 0.0, 0.0)
  }

  datatype Stepped = Stepped(delays: Delays, output: real)

  /** `a0*in + a1*x1 + a2*x2 - b1*y1 - b2*y2`. */
  function Difference(c: Coefs, d: Delays, input: real): real
  {
    c.a0 * input + c.a1 * d.x1 + c.a2 * d.x2 - c.b1 * d.y1 - c.b2 * d.y2
  }

  /** One `process(input)`: the difference equation, then the delays shift
      by one sample. */
  function ResonatorStep(c: Coefs, d: Delays, input: real): (r: Stepped)
    ensures r.delays.x2 == d.x1 && r.delays.x1 == input
    ensures r.delays.y2 == d.y1 && r.delays.y1 == r.output
  {
    var output := Difference(c, d, input);
    Stepped(Delays(input, d.x1, output, d.y1), output)
  }

  /** With the coefficients `calculateCoefficients` produces, the output
      exceeds the input by `alpha * input` run through the poles alone: the
      excess `y - x` obeys `e = alpha*x - b1*e1 - b2*e2`, where `e1`, `e2`
      are the previous excesses. */
  lemma ExcessIsResonance(lib: Lib, frequency: real, sampleRate: real, q: real, d: Delays, input: real)
    requires Computable(lib, frequency, sampleRate, q)
    ensures var c := CoefficientsFor(lib, frequency, sampleRate, q);
            ResonatorStep(c, d, input).output - input
            == Alpha(lib, frequency, sampleRate, q) * input - c.b1 * (d.y1 - d.x1) - c.b2 * (d.y2 - d.x2)
  {
    var c := CoefficientsFor(lib, frequency, sampleRate, q);
    var alpha := Alpha(lib, frequency, sampleRate, q);
    assert c.a0 * input == input + alpha * input;
    assert c.a1 * d.x1 - c.b1 * d.y1 == -(c.b1 * (d.y1 - d.x1));
    assert c.a2 * d.x2 - c.b2 * d.y2 == -(c.b2 * (d.y2 - d.x2));
  }

  /** Delays added cell by cell. */
  function AddDelays(d: Delays, e: Delays): Delays
  {
    Delays(d.x1 + e.x1, d.x2 + e.x2, d.y1 + e.y1, d.y2 + e.y2)
  }

  /** One step is linear: the response to a sum of inputs from a sum of
      states is the sum of the responses, delays included. */
  lemma StepSuperposition(c: Coefs, d: Delays, e: Delays, u: real, v: real)
    ensures ResonatorStep(c, AddDelays(d, e), u + v).output
            == ResonatorStep(c, d, u).output + ResonatorStep(c, e, v).output
    ensures ResonatorStep(c, AddDelays(d, e), u + v).delays
            == AddDelays(ResonatorStep(c, d, u).delays, ResonatorStep(c, e, v).delays)
  {
    assert c.a0 * (u + v) == c.a0 * u + c.a0 * v;
    assert c.a1 * (d.x1 + e.x1) == c.a1 * d.x1 + c.a1 * e.x1;
    assert c.a2 * (d.x2 + e.x2) == c.a2 * d.x2 + c.a2 * e.x2;
    assert c.b1 * (d.y1 + e.y1) == c.b1 * d.y1 + c.b1 * e.y1;
    assert c.b2 * (d.y2 + e.y2) == c.b2 * d.y2 + c.b2 * e.y2;
  }

  /** The delays after one `process` per input, in order. */
  function ResonatorRun(c: Coefs, d: Delays, inputs: seq<real>): Delays
    decreases |inputs|
  {
    if inputs == [] then d
    else ResonatorStep(c, ResonatorRun(c, d, inputs[..|inputs| - 1]), inputs[|inputs| - 1]).delays
  }

  /** The outputs of those calls. */
  function ResonatorOutputs(c: Coefs, d: Delays, inputs: seq<real>): (r: seq<real>)
    ensures |r| == |inputs|
    decreases |inputs|
  {
    if inputs == [] then []
    else
      var n := |inputs| - 1;
      ResonatorOutputs(c, d, inputs[..n]) + [ResonatorStep(c, ResonatorRun(c, d, inputs[..n]), inputs[n]).output]
  }

  /** Two equally long signals added sample by sample. */
  function AddSignals(u: seq<real>, v: seq<real>): (r: seq<real>)
    requires |u| == |v|
    ensures |r| == |u| && forall i :: 0 <= i < |u| ==> r[i] == u[i] + v[i]
  {
    seq(|u|, i requires 0 <= i < |u| => u[i] + v[i])
  }

  /** Superposition over any number of samples: the resonator, with fixed
      coefficients, is a linear system. */
  lemma {:induction false} RunSuperposition(c: Coefs, d: Delays, e: Delays, u: seq<real>, v: seq<real>)
    requires |u| == |v|
    ensures ResonatorRun(c, AddDelays(d, e), AddSignals(u, v))
            == AddDelays(ResonatorRun(c, d, u), ResonatorRun(c, e, v))
    ensures ResonatorOutputs(c, AddDelays(d, e), AddSignals(u, v))
            == AddSignals(ResonatorOutputs(c, d, u), ResonatorOutputs(c, e, v))
    decreases |u|
  {
    if u != [] {
      var n := |u| - 1;
      var w := AddSignals(u, v);
      assert w[..n] == AddSignals(u[..n], v[..n]);
      RunSuperposition(c, d, e, u[..n], v[..n]);
      StepSuperposition(c, ResonatorRun(c, d, u[..n]), ResonatorRun(c, e, v[..n]), u[n], v[n]);
      assert w[n] == u[n] + v[n];
    }
  }

  /** From the zeroed delays, zero input gives zero output and keeps the
      delays zero, for any coefficients. */
  lemma {:induction false} SilenceStaysSilent(c: Coefs, inputs: seq<real>)
    requires forall i :: 0 <= i < |inputs| ==> inputs[i] == 0.0
    ensures ResonatorRun(c, Zero(), inputs) == Zero()
    ensures forall i :: 0 <= i < |inputs| ==> ResonatorOutputs(c, Zero(), inputs)[i] == 0.0
    decreases |inputs|
  {
    if inputs != [] {
      var n := |inputs| - 1;
      SilenceStaysSilent(c, inputs[..n]);
      assert Difference(c, Zero(), 0.0) == 0.0;
    }
  }

  // ---------------------------------------------------------------------------
  // The resonator object

  class Resonator {
    const fSampleRate: real
    var fFrequency: real
    var fQFactor: real
    var a0: real
    var a1: real
    var a2: real
    var b1: real
    var b2: real
    var x1: real
    var x2: real
    var y1: real
    var y2: real

    function Settings(): (real, real)
      reads this
    {
      (fFrequency, fQFactor)
    }

    function Coefficients(): Coefs
      reads this
    {
      Coefs(a0, a1, a2, b1, b2)
    }

    function State(): Delays
      reads this
    {
      Delays(x1, x2, y1, y2)
    }

    /** The coefficients are the ones the current settings give. */
    ghost predicate Valid(lib: Lib)
      reads this
    {
      Computable(lib, fFrequency, fSampleRate, fQFactor)
      && Coefficients() == CoefficientsFor(lib, fFrequency, fSampleRate, fQFactor)
    }

    /** `Resonator(frequency, sampleRate, qFactor)`: zeroed delays. */
    constructor(lib: Lib, frequency: real, sampleRate: real, qFactor: real)
      requires Computable(lib, frequency, sampleRate, qFactor)
      ensures Valid(lib) && fSampleRate == sampleRate && Settings() == (frequency, qFactor)
      ensures State() == Zero()
    {
      fFrequency := frequency;
      fSampleRate := sampleRate;
      fQFactor := qFactor;
      x1, x2, y1, y2 := 0.0, 0.0, 0.0, 0.0;
      new;
      CalculateCoefficients(lib);
    }

    /** `Resonator()`: 440 Hz, Q 1, at the default sample rate. */
    constructor Default(lib: Lib)
      requires Computable(lib, DEFAULT_FREQUENCY, DEFAULT_SAMPLE_RATE as real, DEFAULT_Q)
      ensures Valid(lib) && fSampleRate == DEFAULT_SAMPLE_RATE as real
      ensures Settings() == (DEFAULT_FREQUENCY, DEFAULT_Q) && State() == Zero()
    {
      fFrequency := DEFAULT_FREQUENCY;
      fSampleRate := DEFAULT_SAMPLE_RATE as real;
      fQFactor := DEFAULT_Q;
      x1, x2, y1, y2 := 0.0, 0.0, 0.0, 0.0;
      new;
      CalculateCoefficients(lib);
    }

    /** `calculateCoefficients`: only the coefficients change. */
    method CalculateCoefficients(lib: Lib)
      requires Computable(lib, fFrequency, fSampleRate, fQFactor)
      modifies this
      ensures Valid(lib) && Settings() == old(Settings()) && State() == old(State())
    {
      var omega := TWO_PI * fFrequency / fSampleRate;
      var alpha := lib.sin(omega) / (2.0 * fQFactor);
      a0 := 1.0 + alpha;
      a1 := -2.0 * lib.cos(omega);
      a2 := 1.0 - alpha;
      b1 := -2.0 * lib.cos(omega);
      b2 := 1.0 - alpha;
      a1 := a1 / a0;
      a2 := a2 / a0;
      b1 := b1 / a0;
      b2 := b2 / a0;
    }

    /** `process(input)`. */
    method Process(input: real) returns (output: real)
      modifies this
      ensures Settings() == old(Settings()) && Coefficients() == old(Coefficients())
      ensures Stepped(State(), output) == ResonatorStep(Coefficients(), old(State()), input)
    {
      output := a0 * input + a1 * x1 + a2 * x2 - b1 * y1 - b2 * y2;
      x2 := x1;
      x1 := input;
      y2 := y1;
      y1 := output;
    }

    /** `set_frequency`: new coefficients, same delays. */
    method SetFrequency(lib: Lib, frequency: real)
      requires Computable(lib, frequency, fSampleRate, fQFactor)
      modifies this
      ensures Valid(lib) && Settings() == (frequency, old(fQFactor)) && State() == old(State())
    {
      fFrequency := frequency;
      CalculateCoefficients(lib);
    }

    function GetFrequency(): real
      reads this
    {
      fFrequency
    }

    /** `set_Q`: new coefficients, same delays. */
    method SetQ(lib: Lib, qFactor: real)
      requires Computable(lib, fFrequency, fSampleRate, qFactor)
      modifies this
      ensures Valid(lib) && Settings() == (old(fFrequency), qFactor) && State() == old(State())
    {
      fQFactor := qFactor;
      CalculateCoefficients(lib);
    }

    function GetQ(): real
      reads this
    {
      fQFactor
    }
  }
}
