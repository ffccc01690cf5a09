/**
 * `FilterLowPassMoogLadder`: the four-stage Moog ladder low-pass filter (a
 * port of soundpipe's `moogladder`). Each input sample runs twice through the
 * ladder; the coefficients derived from the cutoff frequency are cached and
 * recomputed only when the cutoff or the clamped resonance differs from the
 * values they were computed for.
 */
module MoogLadder {
  import opened Numerics
  import opened MathLib
  import opened KlangWellen

  const THERMAL: real := 0.000025

  // ---------------------------------------------------------------------------
  // my_tanh

  /** `my_tanh(x)`: the identity on negative inputs and below 0.5, 1 from 4
      upwards, and the library `tanh` in between. */
  function MyTanh(lib: Lib, x: real): (r: real)
    ensures x < 0.0 ==> r == x
    ensures 0.0 <= x < 0.5 ==> r == x
    ensures x >= 4.0 ==> r == 1.0
    ensures 0.5 <= x < 4.0 ==> r == lib.tanh(x)
  {
    if x < 0.0 then (-x) * -1.0
    else if x >= 4.0 then 1.0
    else if x < 0.5 then x
    else lib.tanh(x)
  }

  /** On non-negative inputs the approximation saturates: it stays within
      [0, 1] and never exceeds its argument. On negative inputs there is no
      saturation at all. */
  lemma MyTanhBounds(lib: Lib, x: real)
    requires TanhLaws(lib)
    ensures x >= 0.0 ==> 0.0 <= MyTanh(lib, x) <= 1.0 && MyTanh(lib, x) <= x
    ensures x < 0.0 ==> MyTanh(lib, x) == x
  {
    if 0.5 <= x < 4.0 {
      assert 0.0 <= lib.tanh(x) <= x && lib.tanh(x) < 1.0;
    }
  }

  // ---------------------------------------------------------------------------
  // Coefficients and their cache

  /** `std::max(fResonance, 0.0f)`. */
  function Clamped(resonance: real): (r: real)
    ensures r >= 0.0
    ensures resonance >= 0.0 ==> r == resonance
    ensures resonance < 0.0 ==> r == 0.0
  {
    Max(resonance, 0.0)
  }

  datatype Coefs = Coefs(acr: real, tune: real)

  /** The coefficients for a cutoff frequency: `fc = freq / sr`, the
      polynomial corrections `fcr` and `acr`, and
      `tune = (1 - exp(-2 pi * fc / 2 * fcr)) / THERMAL`. The source names
      the fourth power of `fc` `fc3`. */
  function Coefficients(lib: Lib, freq: real, sampleRate: real): Coefs
    requires sampleRate > 0.0
  {
    var fc := freq / sampleRate;
    var f := 0.5 * fc;
    var fc2 := fc * fc;
    var fc3 := fc2 * fc2;
    var fcr := 1.8730 * fc3 + 0.4955 * fc2 - 0.6490 * fc + 0.9988;
    var acr := -3.9364 * fc2 + 1.8409 * fc + 0.9968;
    Coefs(acr, (1.0 - lib.exp(-(TWO_PI * f * fcr))) / THERMAL)
  }

  /** `fOldFreq`, `fOldRes`, `fOldAcr`, `fOldTune`. */
  datatype Cache = Cache(oldFreq: real, oldRes: real, oldAcr: real, oldTune: real)

  /** The cache after the check at the top of `process(float)`: refreshed when
      the cutoff or the clamped resonance differs from the cached ones, kept
      otherwise. Either way it then records the current cutoff and resonance. */
  function CacheAfter(lib: Lib, c: Cache, freq: real, res: real, sampleRate: real): (r: Cache)
    requires sampleRate > 0.0
    ensures r.oldFreq == freq && r.oldRes == res
  {
    if c.oldFreq != freq || c.oldRes != res then
      var k := Coefficients(lib, freq, sampleRate);
      Cache(freq, res, k.acr, k.tune)
    else c
  }

  /** A cache is coherent when it has never been filled (the constructor's
      negative resonance) or holds the coefficients of its cutoff. */
  predicate Coherent(lib: Lib, c: Cache, sampleRate: real)
    requires sampleRate > 0.0
  {
    c.oldRes < 0.0 || Coefs(c.oldAcr, c.oldTune) == Coefficients(lib, c.oldFreq, sampleRate)
  }

  /** The cache is only an optimisation: from a coherent cache, the
      coefficients `process` uses are those of the current cutoff, and the
      cache stays coherent. This relies on the resonance being clamped: a
      cached negative resonance could never match. */
  lemma CacheAfterIsFresh(lib: Lib, c: Cache, freq: real, resonance: real, sampleRate: real)
    requires sampleRate > 0.0 && Coherent(lib, c, sampleRate)
    ensures Coefs(CacheAfter(lib, c, freq, Clamped(resonance), sampleRate).oldAcr,
                  CacheAfter(lib, c, freq, Clamped(resonance), sampleRate).oldTune)
            == Coefficients(lib, freq, sampleRate)
    ensures Coherent(lib, CacheAfter(lib, c, freq, Clamped(resonance), sampleRate), sampleRate)
  {
    var res := Clamped(resonance);
    if c.oldFreq == freq && c.oldRes == res {
      assert c.oldRes >= 0.0;
    }
  }

  // ---------------------------------------------------------------------------
  // The ladder

  /** `fDelay[0..5]` and `fTanhstg[0..2]`, cell by cell. */
  datatype Ladder = Ladder(d0: real, d1: real, d2: real, d3: real, d4: real, d5: real,
                           t0: real, t1: real, t2: real)

  /** `fDelay[k]`. */
  function Delay(s: Ladder, k: nat): real
    requires k < 6
  {
    match k
    case 0 => s.d0
    case 1 => s.d1
    case 2 => s.d2
    case 3 => s.d3
    case 4 => s.d4
    case 5 => s.d5
  }

  /** `fTanhstg[k]`. */
  function Tanhstg(s: Ladder, k: nat): real
    requires k < 3
  {
    match k
    case 0 => s.t0
    case 1 => s.t1
    case 2 => s.t2
  }

  /** The ladder with `fDelay[k]` replaced by `v`. */
  function WithDelay(s: Ladder, k: nat, v: real): (r: Ladder)
    requires k < 6
    ensures Delay(r, k) == v
    ensures forall m :: 0 <= m < 6 && m != k ==> Delay(r, m) == Delay(s, m)
    ensures forall m :: 0 <= m < 3 ==> Tanhstg(r, m) == Tanhstg(s, m)
  {
    match k
    case 0 => s.(d0 := v)
    case 1 => s.(d1 := v)
    case 2 => s.(d2 := v)
    case 3 => s.(d3 := v)
    case 4 => s.(d4 := v)
    case 5 => s.(d5 := v)
  }

  /** The ladder with `fTanhstg[k]` replaced by `v`. */
  function WithTanhstg(s: Ladder, k: nat, v: real): (r: Ladder)
    requires k < 3
    ensures Tanhstg(r, k) == v
    ensures forall m :: 0 <= m < 3 && m != k ==> Tanhstg(r, m) == Tanhstg(s, m)
    ensures forall m :: 0 <= m < 6 ==> Delay(r, m) == Delay(s, m)
  {
    match k
    case 0 => s.(t0 := v)
    case 1 => s.(t1 := v)
    case 2 => s.(t2 := v)
  }

  function Thermal(x: real): real
  {
    x * THERMAL
  }

  /** `signal - res4 * fDelay[5]`: the resonance feedback. */
  function Feedback(signal: real, res4: real, last: real): real
  {
    signal - res4 * last
  }

  /** `fDelay[k] + tune * (a - b)`: one stage's update. */
  function Stage(delay: real, tune: real, a: real, b: real): real
  {
    delay + tune * (a - b)
  }

  /** `(a + b) * 0.5`. */
  function Mean(a: real, b: real): (r: real)
    ensures a <= b ==> a <= r <= b
    ensures b <= a ==> b <= r <= a
  {
    (a + b) * 0.5
  }

  /** `4 * res * acr`. */
  function Res4(res: real, acr: real): real
  {
    4.0 * res * acr
  }

  /** Stage `k` (1, 2 or 3) of the inner loop: its input is stage `k - 1`,
      just stored in `fDelay[k - 1]`; `fTanhstg[k - 1]` takes the input's
      `my_tanh`, and the stage subtracts `fTanhstg[k]` (for the last stage, the
      `my_tanh` of its own old value). */
  function StageStep(lib: Lib, s: Ladder, tune: real, k: nat): Ladder
    requires 1 <= k <= 3
  {
    var t := MyTanh(lib, Thermal(Delay(s, k - 1)));
    var other := if k != 3 then Tanhstg(s, k) else MyTanh(lib, Thermal(Delay(s, k)));
    WithDelay(WithTanhstg(s, k - 1, t), k, Stage(Delay(s, k), tune, t, other))
  }

  /** The ladder after the inner loop has run for stages 1 .. k - 1. Cells 0,
      4 and 5 of the delay line are left alone. */
  function InnerRun(lib: Lib, s: Ladder, tune: real, k: nat): (r: Ladder)
    requires 1 <= k <= 4
    ensures r.d0 == s.d0 && r.d4 == s.d4 && r.d5 == s.d5
    decreases k
  {
    if k == 1 then s
    else
      var before := InnerRun(lib, s, tune, k - 1);
      var after := StageStep(lib, before, tune, k - 1);
      assert Delay(after, 0) == Delay(before, 0) && Delay(after, 4) == Delay(before, 4)
             && Delay(after, 5) == Delay(before, 5);
      after
  }

  datatype PassResult = PassResult(ladder: Ladder, signal: real)

  /** One pass of the outer loop: feedback, the first stage, stages 1 to 3,
      then `fDelay[5]` becomes the mean of the last stage and the old
      `fDelay[4]`, and `fDelay[4]` the last stage. The signal carried to the
      next pass is stage 2. */
  function Pass(lib: Lib, s: Ladder, tune: real, res4: real, input: real): PassResult
  {
    var signal := Feedback(input, res4, s.d5);
    var first := s.(d0 := Stage(s.d0, tune, MyTanh(lib, Thermal(signal)), s.t0));
    var inner := InnerRun(lib, first, tune, 4);
    PassResult(inner.(d5 := Mean(inner.d3, inner.d4), d4 := inner.d3), inner.d2)
  }

  /** After a pass, cell 4 holds the last stage and cell 5, the output, the
      mean of the last stage and the cell 4 the pass started with. */
  lemma PassOutputIsMean(lib: Lib, s: Ladder, tune: real, res4: real, input: real)
    ensures Pass(lib, s, tune, res4, input).ladder.d4 == Pass(lib, s, tune, res4, input).ladder.d3
    ensures Pass(lib, s, tune, res4, input).ladder.d5 == Mean(Pass(lib, s, tune, res4, input).ladder.d3, s.d4)
  {
  }

  /** The passes `0 .. j - 1` of the outer loop. */
  function OuterRun(lib: Lib, s: Ladder, tune: real, res4: real, input: real, j: nat): PassResult
    decreases j
  {
    if j == 0 then PassResult(s, input)
    else
      var p := OuterRun(lib, s, tune, res4, input, j - 1);
      Pass(lib, p.ladder, tune, res4, p.signal)
  }

  // ---------------------------------------------------------------------------
  // process(float)

  /** The settings `process` reads. */
  datatype Settings = Settings(sampleRate: real, cutoff: real, resonance: real)

  datatype Filter = Filter(cache: Cache, ladder: Ladder)

  datatype Filtered = Filtered(filter: Filter, output: real)

  /** One `process(signal)`: refresh the cache, run two passes with the cached
      coefficients, and return `fDelay[5]`. */
  function FilterStep(lib: Lib, p: Settings, f: Filter, input: real): Filtered
    requires p.sampleRate > 0.0
  {
    var res := Clamped(p.resonance);
    var cache := CacheAfter(lib, f.cache, p.cutoff, res, p.sampleRate);
    var run := OuterRun(lib, f.ladder, cache.oldTune, Res4(res, cache.oldAcr), input, 2);
    Filtered(Filter(cache, run.ladder), run.ladder.d5)
  }

  /** The same step computed without a cache: the reference `FilterStep` is
      compared with. */
  function FilterStepFresh(lib: Lib, p: Settings, ladder: Ladder, input: real): PassResult
    requires p.sampleRate > 0.0
  {
    var res := Clamped(p.resonance);
    var k := Coefficients(lib, p.cutoff, p.sampleRate);
    OuterRun(lib, ladder, k.tune, Res4(res, k.acr), input, 2)
  }

  /** From a coherent cache, `process` filters exactly as if it recomputed
      the coefficients every time, and leaves the cache coherent. */
  lemma FilterStepMatchesFresh(lib: Lib, p: Settings, f: Filter, input: real)
    requires p.sampleRate > 0.0 && Coherent(lib, f.cache, p.sampleRate)
    ensures FilterStep(lib, p, f, input).filter.ladder == FilterStepFresh(lib, p, f.ladder, input).ladder
    ensures FilterStep(lib, p, f, input).output == FilterStepFresh(lib, p, f.ladder, input).ladder.d5
    ensures Coherent(lib, FilterStep(lib, p, f, input).filter.cache, p.sampleRate)
  {
    CacheAfterIsFresh(lib, f.cache, p.cutoff, p.resonance, p.sampleRate);
  }

  function Silent(): Ladder
  {
    Ladder(0.0, 0.0, 0.0, 0.0, 0.0, 0.0, 0.0, 0.0, 0.0)
  }

  /** A silent ladder stays silent through the inner stages. */
  lemma {:induction false} InnerRunSilent(lib: Lib, tune: real, k: nat)
    requires 1 <= k <= 4
    ensures InnerRun(lib, Silent(), tune, k) == Silent()
    decreases k
  {
    if k > 1 {
      InnerRunSilent(lib, tune, k - 1);
      assert MyTanh(lib, Thermal(0.0)) == 0.0;
      assert Stage(0.0, tune, 0.0, 0.0) == 0.0;
    }
  }

  /** A pass over a silent ladder with zero input changes nothing. */
  lemma PassSilent(lib: Lib, tune: real, res4: real)
    ensures Pass(lib, Silent(), tune, res4, 0.0) == PassResult(Silent(), 0.0)
  {
    assert Feedback(0.0, res4, 0.0) == 0.0;
    assert MyTanh(lib, Thermal(0.0)) == 0.0;
    assert Stage(0.0, tune, 0.0, 0.0) == 0.0;
    assert Silent().(d0 := 0.0) == Silent();
    InnerRunSilent(lib, tune, 4);
    assert Mean(0.0, 0.0) == 0.0;
  }

  /** Silence in, silence out: from the constructor's zeroed ladder, a zero
      input leaves the ladder zero and returns 0, whatever the cutoff,
      resonance and cache. */
  lemma SilenceStaysSilent(lib: Lib, p: Settings, c: Cache)
    requires p.sampleRate > 0.0
    ensures FilterStep(lib, p, Filter(c, Silent()), 0.0).filter.ladder == Silent()
    ensures FilterStep(lib, p, Filter(c, Silent()), 0.0).output == 0.0
  {
    var res := Clamped(p.resonance);
    var cache := CacheAfter(lib, c, p.cutoff, res, p.sampleRate);
    var tune := cache.oldTune;
    var res4 := Res4(res, cache.oldAcr);
    PassSilent(lib, tune, res4);
    assert OuterRun(lib, Silent(), tune, res4, 0.0, 1) == PassResult(Silent(), 0.0);
    assert OuterRun(lib, Silent(), tune, res4, 0.0, 2) == PassResult(Silent(), 0.0);
  }

  // ---------------------------------------------------------------------------
  // process(float*, length)

  /** The filter after processing `inputs` in order. */
  function FilterRun(lib: Lib, p: Settings, f: Filter, inputs: seq<real>): (r: Filter)
    requires p.sampleRate > 0.0
    decreases |inputs|
  {
    if inputs == [] then f
    else FilterStep(lib, p, FilterRun(lib, p, f, inputs[..|inputs| - 1]), inputs[|inputs| - 1]).filter
  }

  /** The outputs for `inputs`, in order. */
  function FilterOutputs(lib: Lib, p: Settings, f: Filter, inputs: seq<real>): (r: seq<real>)
    requires p.sampleRate > 0.0
    ensures |r| == |inputs|
    decreases |inputs|
  {
    if inputs == [] then []
    else
      var n := |inputs| - 1;
      FilterOutputs(lib, p, f, inputs[..n]) + [FilterStep(lib, p, FilterRun(lib, p, f, inputs[..n]), inputs[n]).output]
  }

  /** Processing one more sample extends the run and appends its output. */
  lemma FilterRunSnoc(lib: Lib, p: Settings, f: Filter, inputs: seq<real>, i: nat, before: Filter, after: Filtered)
    requires p.sampleRate > 0.0 && i < |inputs|
    requires before == FilterRun(lib, p, f, inputs[..i])
    requires after == FilterStep(lib, p, before, inputs[i])
    ensures FilterRun(lib, p, f, inputs[..i + 1]) == after.filter
    ensures FilterOutputs(lib, p, f, inputs[..i + 1]) == FilterOutputs(lib, p, f, inputs[..i]) + [after.output]
  {
    assert inputs[..i + 1][..i] == inputs[..i];
  }

  // ---------------------------------------------------------------------------
  // The filter object

  class FilterLowPassMoogLadder {
    const fSampleRate: real
    var fCutoffFrequency: real
    const fDelay: array<real>
    var fOldAcr: real
    var fOldFreq: real
    var fOldRes: real
    var fOldTune: real
    var fResonance: real
    const fTanhstg: array<real>

    ghost predicate Valid()
      reads this
    {
      fSampleRate > 0.0 && fDelay.Length == 6 && fTanhstg.Length == 3 && fDelay != fTanhstg
    }

    function Config(): Settings
      reads this
    {
      Settings(fSampleRate, fCutoffFrequency, fResonance)
    }

    function LadderState(): Ladder
      requires Valid()
      reads this, fDelay, fTanhstg
    {
      Ladder(fDelay[0], fDelay[1], fDelay[2], fDelay[3], fDelay[4], fDelay[5],
             fTanhstg[0], fTanhstg[1], fTanhstg[2])
    }

    function State(): Filter
      requires Valid()
      reads this, fDelay, fTanhstg
    {
      Filter(Cache(fOldFreq, fOldRes, fOldAcr, fOldTune), LadderState())
    }

    /** Resonance 0.4, cutoff 1000 Hz, a zeroed ladder, and a cache that the
        first `process` must refresh (`fOldRes == -1`). The source leaves
        `fOldAcr` and `fOldTune` unset; here they start at 0. */
    constructor(sampleRate: uint32)
      requires sampleRate > 0
      ensures Valid() && fresh(fDelay) && fresh(fTanhstg)
      ensures Config() == Settings(sampleRate as real, 1000.0, 0.4)
      ensures State() == Filter(Cache(0.0, -1.0, 0.0, 0.0), Silent())
    {
      fSampleRate := sampleRate as real;
      fResonance := 0.4;
      fCutoffFrequency := 1000.0;
      var delay := new real[6];
      var tanhstg := new real[3];
      for i := 0 to 6
        invariant forall m :: 0 <= m < i ==> delay[m] == 0.0
        invariant forall m :: 0 <= m < 3 && m < i ==> tanhstg[m] == 0.0
      {
        delay[i] := 0.0;
        tanhstg[i % 3] := 0.0;
      }
      fDelay := delay;
      fTanhstg := tanhstg;
      fOldFreq := 0.0;
      fOldRes := -1.0;
      fOldAcr := 0.0;
      fOldTune := 0.0;
    }

    /** One pass of the outer loop of `process(float)`, with its inner loop
        over stages 1 to 3. `stg[k]` of the source is kept in the delay cell it
        is copied into. */
    method RunPass(lib: Lib, tune: real, res4: real, input: real) returns (signal: real)
      requires Valid()
      modifies fDelay, fTanhstg
      ensures PassResult(LadderState(), signal) == Pass(lib, old(LadderState()), tune, res4, input)
    {
      signal := Feedback(input, res4, fDelay[5]);
      var stg := Stage(fDelay[0], tune, MyTanh(lib, Thermal(signal)), fTanhstg[0]);
      fDelay[0] := stg;
      ghost var first := LadderState();
      for k := 1 to 4
        invariant LadderState() == InnerRun(lib, first, tune, k)
        invariant stg == fDelay[k - 1] && fDelay[0] == first.d0
        invariant fDelay[4] == first.d4 && fDelay[5] == first.d5
        invariant k > 1 ==> signal == fDelay[k - 2]
      {
        signal := stg;
        var t := MyTanh(lib, Thermal(signal));
        fTanhstg[k - 1] := t;
        var other := if k != 3 then fTanhstg[k] else MyTanh(lib, Thermal(fDelay[k]));
        stg := Stage(fDelay[k], tune, t, other);
        fDelay[k] := stg;
      }
      fDelay[5] := Mean(stg, fDelay[4]);
      fDelay[4] := stg;
    }

    /** The check at the top of `process(float)`: recompute and cache the
        coefficients when the cutoff or the clamped resonance changed, and
        return the coefficients to use. */
    method RefreshCache(lib: Lib) returns (acr: real, tune: real)
      requires Valid()
      modifies this
      ensures Config() == old(Config()) && LadderState() == old(LadderState())
      ensures State().cache == CacheAfter(lib, old(State().cache), fCutoffFrequency, Clamped(fResonance), fSampleRate)
      ensures acr == fOldAcr && tune == fOldTune
    {
      var freq := fCutoffFrequency;
      var res := Clamped(fResonance);
      if fOldFreq != freq || fOldRes != res {
        var k := Coefficients(lib, freq, fSampleRate);
        fOldFreq := freq;
        acr := k.acr;
        tune := k.tune;
        fOldRes := res;
        fOldAcr := acr;
        fOldTune := tune;
      } else {
        acr := fOldAcr;
        tune := fOldTune;
      }
    }

    /** The two passes of `process(float)`; returns `fDelay[5]`. */
    method RunPasses(lib: Lib, tune: real, res4: real, input: real) returns (r: real)
      requires Valid()
      modifies fDelay, fTanhstg
      ensures LadderState() == OuterRun(lib, old(LadderState()), tune, res4, input, 2).ladder
      ensures r == LadderState().d5
    {
      ghost var start := LadderState();
      var signal := input;
      for j := 0 to 2
        invariant PassResult(LadderState(), signal) == OuterRun(lib, start, tune, res4, input, j)
      {
        signal := RunPass(lib, tune, res4, signal);
      }
      r := fDelay[5];
    }

    /** `process(signal)`. */
    method Process(lib: Lib, input: real) returns (r: real)
      requires Valid()
      modifies this, fDelay, fTanhstg
      ensures Valid() && Config() == old(Config())
      ensures Filtered(State(), r) == FilterStep(lib, Config(), old(State()), input)
    {
      var acr, tune := RefreshCache(lib);
      var res4 := Res4(Clamped(fResonance), acr);
      r := RunPasses(lib, tune, res4, input);
    }

    /** One iteration of `process(signal_buffer, length)`: entry `i`, still
        holding `inputs[i]`, is replaced by the filter's output for it, which
        extends the run over `inputs` by one sample; no later entry changes. */
    method ProcessInto(lib: Lib, signalBuffer: array<real>, i: nat, ghost inputs: seq<real>, ghost start: Filter)
      requires Valid() && i < signalBuffer.Length && i < |inputs| && signalBuffer[i] == inputs[i]
      requires signalBuffer != fDelay && signalBuffer != fTanhstg
      requires State() == FilterRun(lib, Config(), start, inputs[..i])
      requires signalBuffer[..i] == FilterOutputs(lib, Config(), start, inputs[..i])
      modifies this, fDelay, fTanhstg, signalBuffer
      ensures Valid() && Config() == old(Config())
      ensures State() == FilterRun(lib, Config(), start, inputs[..i + 1])
      ensures signalBuffer[..i + 1] == FilterOutputs(lib, Config(), start, inputs[..i + 1])
      ensures forall k :: i < k < signalBuffer.Length ==> signalBuffer[k] == old(signalBuffer[k])
    {
      ghost var cfg := Config();
      ghost var before := State();
      ghost var outputs := signalBuffer[..i];
      var s := Process(lib, signalBuffer[i]);
      FilterRunSnoc(lib, cfg, start, inputs, i, before, Filtered(State(), s));
      StoreAfter(signalBuffer, i, s, outputs);
    }

    /** `process(signal_buffer, length)`: every one of the first `length`
        entries, in order, is replaced by the filter's output for it. */
    method ProcessBuffer(lib: Lib, signalBuffer: array<real>, length: uint32)
      requires Valid() && length <= signalBuffer.Length
      requires signalBuffer != fDelay && signalBuffer != fTanhstg
      modifies this, fDelay, fTanhstg, signalBuffer
      ensures Valid() && Config() == old(Config())
      ensures State() == FilterRun(lib, Config(), old(State()), old(signalBuffer[..length]))
      ensures signalBuffer[..length] == FilterOutputs(lib, Config(), old(State()), old(signalBuffer[..length]))
      ensures forall k :: length <= k < signalBuffer.Length ==> signalBuffer[k] == old(signalBuffer[k])
    {
      ghost var start := State();
      ghost var inputs := signalBuffer[..length];
      for i := 0 to length
        invariant Valid() && Config() == old(Config())
        invariant State() == FilterRun(lib, Config(), start, inputs[..i])
        invariant signalBuffer[..i] == FilterOutputs(lib, Config(), start, inputs[..i])
        invariant forall k :: i <= k < signalBuffer.Length ==> signalBuffer[k] == old(signalBuffer[k])
      {
        ProcessInto(lib, signalBuffer, i, inputs, start);
      }
      assert inputs[..length] == inputs;
    }

    function GetFrequency(): real
      reads this
    {
      fCutoffFrequency
    }

    function GetResonance(): real
      reads this
    {
      fResonance
    }

    /** `set_frequency`: only the cutoff changes; the cache is invalidated
        lazily, by the comparison in the next `process`. */
    method SetFrequency(cutoff: real)
      requires Valid()
      modifies this
      ensures Valid()
      ensures Config() == old(Config()).(cutoff := cutoff)
      ensures State() == old(State())
    {
      fCutoffFrequency := cutoff;
    }

    /** `set_resonance`: only the resonance changes. */
    method SetResonance(resonance: real)
      requires Valid()
      modifies this
      ensures Valid()
      ensures Config() == old(Config()).(resonance := resonance)
      ensures State() == old(State())
    {
      fResonance := resonance;
    }
  }
}
