/**
 * The ADSR envelope of `src/ADSR.h`: a state machine over IDLE, ATTACK, DECAY,
 * SUSTAIN, RELEASE and PRE_ATTACK_FADE_TO_ZERO, driven by `start`, `stop` and
 * one `step` per sample. The pure functions below are the specification; the
 * class `ADSR` keeps the C++ fields and is proved against them.
 */
module Adsr {
  import opened KlangWellen

  datatype EnvelopeState = Idle | Attack | Decay | Sustain | Release | PreAttackFadeToZero

  /** The settings `step`, `start` and `stop` read. */
  datatype Params = Params(sampleRate: nat, attack: real, decay: real, sustain: real, release: real)

  /** The fields `step`, `start` and `stop` write. */
  datatype Envelope = Envelope(amp: real, delta: real, state: EnvelopeState)

  /** A stereo frame, scaled in place by `process(AudioSignal&)`. */
  datatype AudioSignal = AudioSignal(left: real, right: real)

  /** The fade-out time the unused pre-attack state would use. */
  const FADE_TO_ZERO_RATE_SEC: real := 0.01

  /** `compute_delta_fraction`: the per-sample increment that covers `delta`
      in `duration` seconds, or all of `delta` at once when the duration is
      not positive. */
  function ComputeDeltaFraction(sampleRate: nat, delta: real, duration: real): (r: real)
    requires sampleRate > 0
    ensures duration > 0.0 ==> r * duration * sampleRate as real == delta
    ensures duration <= 0.0 ==> r == delta
  {
    if duration > 0.0 then (delta / sampleRate as real) / duration else delta
  }

  /** The increment has the sign of the change it spreads out. */
  lemma DeltaFractionSign(sampleRate: nat, delta: real, duration: real)
    requires sampleRate > 0
    ensures delta >= 0.0 ==> ComputeDeltaFraction(sampleRate, delta, duration) >= 0.0
    ensures delta <= 0.0 ==> ComputeDeltaFraction(sampleRate, delta, duration) <= 0.0
    ensures delta > 0.0 ==> ComputeDeltaFraction(sampleRate, delta, duration) > 0.0
  {
    if duration > 0.0 {
      var q := delta / sampleRate as real;
      assert delta >= 0.0 ==> q >= 0.0;
      assert delta <= 0.0 ==> q <= 0.0;
      assert delta > 0.0 ==> q > 0.0;
      assert ComputeDeltaFraction(sampleRate, delta, duration) == q / duration;
    }
  }

  /** A fresh envelope: IDLE, amplitude and increment 0. */
  const Initial: Envelope := Envelope(0.0, 0.0, Idle)

  /** `step()`: IDLE and SUSTAIN hold; every other state adds the increment
      and, on reaching its target, clamps the amplitude to it and moves on. */
  function StepEnvelope(p: Params, e: Envelope): (r: Envelope)
    requires p.sampleRate > 0
    ensures e.state == Idle || e.state == Sustain ==> r == e
  {
    var a := e.amp + e.delta;
    match e.state
    case Idle => e
    case Sustain => e
    case Attack =>
      if a >= 1.0 then Envelope(1.0, ComputeDeltaFraction(p.sampleRate, -(1.0 - p.sustain), p.decay), Decay)
      else Envelope(a, e.delta, Attack)
    case Decay =>
      if a <= p.sustain then Envelope(p.sustain, e.delta, Sustain)
      else Envelope(a, e.delta, Decay)
    case Release =>
      if a <= 0.0 then Envelope(0.0, e.delta, Idle)
      else Envelope(a, e.delta, Release)
    case PreAttackFadeToZero =>
      if a <= 0.0 then Envelope(0.0, ComputeDeltaFraction(p.sampleRate, 1.0, p.attack), Attack)
      else Envelope(a, e.delta, PreAttackFadeToZero)
  }

  /** `start()` (`check_scheduled_attack_state`). With the fade-to-zero flag
      set, a sounding envelope would first fade out; the class fixes the flag
      to false, so `start` always enters ATTACK with the full-range increment
      `1 / sampleRate / attack`, whatever the current amplitude. */
  function StartEnvelope(useFadeToZero: bool, p: Params, e: Envelope): (r: Envelope)
    requires p.sampleRate > 0
    ensures r.amp == e.amp
    ensures !useFadeToZero ==> r == Envelope(e.amp, ComputeDeltaFraction(p.sampleRate, 1.0, p.attack), Attack)
  {
    if e.amp > 0.0 && useFadeToZero then
      if e.state != PreAttackFadeToZero then
        Envelope(e.amp, ComputeDeltaFraction(p.sampleRate, -e.amp, FADE_TO_ZERO_RATE_SEC), PreAttackFadeToZero)
      else e
    else Envelope(e.amp, ComputeDeltaFraction(p.sampleRate, 1.0, p.attack), Attack)
  }

  /** `stop()` (`check_scheduled_release_state`): outside RELEASE, head for 0
      from the current amplitude over the release time; inside, nothing. */
  function StopEnvelope(p: Params, e: Envelope): (r: Envelope)
    requires p.sampleRate > 0
    ensures e.state == Release ==> r == e
    ensures r.state == Release && r.amp == e.amp
  {
    if e.state != Release then Envelope(e.amp, ComputeDeltaFraction(p.sampleRate, -e.amp, p.release), Release)
    else e
  }

  /** `stop()` is idempotent. */
  lemma StopIdempotent(p: Params, e: Envelope)
    requires p.sampleRate > 0
    ensures StopEnvelope(p, StopEnvelope(p, e)) == StopEnvelope(p, e)
  {
  }

  /** The envelope after `n` steps. */
  function StepN(p: Params, e: Envelope, n: nat): Envelope
    requires p.sampleRate > 0
  {
    if n == 0 then e else StepEnvelope(p, StepN(p, e, n - 1))
  }

  /** With zero-length attack and decay, the first step after `start` from a
      non-negative amplitude reaches 1 and the second reaches the sustain
      level: a zero-duration phase still costs one call. */
  lemma ZeroDurationPhases(p: Params, e: Envelope)
    requires p.sampleRate > 0 && p.attack <= 0.0 && p.decay <= 0.0
    requires e.amp >= 0.0
    ensures var s := StartEnvelope(false, p, e);
            StepN(p, s, 1) == Envelope(1.0, -(1.0 - p.sustain), Decay)
            && StepN(p, s, 2).amp == p.sustain && StepN(p, s, 2).state == Sustain
  {
    var s := StartEnvelope(false, p, e);
    assert StepN(p, s, 1) == StepEnvelope(p, s);
    assert StepN(p, s, 2) == StepEnvelope(p, StepN(p, s, 1));
  }

  /** The operations a caller can apply between samples. */
  datatype Op =
    | StartOp
    | StopOp
    | StepOp
    | SetAttack(attack: real)
    | SetDecay(decay: real)
    | SetSustain(sustain: real)
    | SetRelease(release: real)

  /** The settings after a setter (other operations leave them). */
  function ApplyToParams(p: Params, op: Op): Params
  {
    match op
    case SetAttack(x) => p.(attack := x)
    case SetDecay(x) => p.(decay := x)
    case SetSustain(x) => p.(sustain := x)
    case SetRelease(x) => p.(release := x)
    case _ => p
  }

  /** The envelope after an operation, with the fade-to-zero flag off. */
  function ApplyToEnvelope(p: Params, e: Envelope, op: Op): Envelope
    requires p.sampleRate > 0
  {
    match op
    case StartOp => StartEnvelope(false, p, e)
    case StopOp => StopEnvelope(p, e)
    case StepOp => StepEnvelope(p, e)
    case _ => e
  }

  /** Settings and envelope after a sequence of operations. */
  function Run(p: Params, e: Envelope, ops: seq<Op>): (Params, Envelope)
    requires p.sampleRate > 0
    decreases |ops|
  {
    if ops == [] then (p, e)
    else Run(ApplyToParams(p, ops[0]), ApplyToEnvelope(p, e, ops[0]), ops[1..])
  }

  predicate SustainInUnit(p: Params)
  {
    0.0 <= p.sustain <= 1.0
  }

  /** Every sustain level the operations set lies in [0, 1]. */
  predicate SustainsInUnit(ops: seq<Op>)
  {
    forall i :: 0 <= i < |ops| && ops[i].SetSustain? ==> 0.0 <= ops[i].sustain <= 1.0
  }

  /** What every reachable envelope satisfies: amplitude in [0, 1], the
      increment rising in ATTACK and falling in DECAY and RELEASE, and never
      the pre-attack state. */
  predicate Reachable(e: Envelope)
  {
    0.0 <= e.amp <= 1.0
    && (e.state == Attack ==> e.delta >= 0.0)
    && (e.state == Decay || e.state == Release ==> e.delta <= 0.0)
    && e.state != PreAttackFadeToZero
  }

  /** One operation keeps `Reachable` when the sustain level is in [0, 1]. */
  lemma ApplyKeepsReachable(p: Params, e: Envelope, op: Op)
    requires p.sampleRate > 0 && SustainInUnit(p) && Reachable(e)
    ensures Reachable(ApplyToEnvelope(p, e, op))
  {
    match op
    case StartOp =>
      DeltaFractionSign(p.sampleRate, 1.0, p.attack);
    case StopOp =>
      DeltaFractionSign(p.sampleRate, -e.amp, p.release);
    case StepOp =>
      if e.state == Attack {
        DeltaFractionSign(p.sampleRate, -(1.0 - p.sustain), p.decay);
      }
    case _ =>
  }

  /** Starting from a fresh envelope and keeping every sustain level in
      [0, 1], the amplitude stays in [0, 1] across any sequence of
      operations, and PRE_ATTACK_FADE_TO_ZERO is never entered. */
  lemma {:induction false} RunKeepsReachable(p: Params, e: Envelope, ops: seq<Op>)
    requires p.sampleRate > 0 && SustainInUnit(p) && SustainsInUnit(ops) && Reachable(e)
    ensures Reachable(Run(p, e, ops).1)
    ensures 0.0 <= Run(p, e, ops).1.amp <= 1.0 && Run(p, e, ops).1.state != PreAttackFadeToZero
    decreases |ops|
  {
    if ops != [] {
      ApplyKeepsReachable(p, e, ops[0]);
      var p' := ApplyToParams(p, ops[0]);
      assert SustainInUnit(p') by {
        if ops[0].SetSustain? {
          assert 0.0 <= ops[0].sustain <= 1.0;
        }
      }
      assert SustainsInUnit(ops[1..]) by {
        forall i | 0 <= i < |ops[1..]| && ops[1..][i].SetSustain?
          ensures 0.0 <= ops[1..][i].sustain <= 1.0
        {
          assert ops[1..][i] == ops[i + 1];
        }
      }
      RunKeepsReachable(p', ApplyToEnvelope(p, e, ops[0]), ops[1..]);
    }
  }

  lemma InitialReachable()
    ensures Reachable(Initial)
  {
  }

  /** `x *= amp`: a sample scaled by the envelope. */
  function Gain(x: real, amp: real): real
  {
    x * amp
  }

  class ADSR {
    const fSampleRate: nat
    /** Constant false in the C++ constructor: the pre-attack fade is off. */
    const USE_FADE_TO_ZERO_STATE: bool
    var fAmp: real
    var fAttack: real
    var fDecay: real
    var fDelta: real
    var fRelease: real
    var fState: EnvelopeState
    var fSustain: real

    function Settings(): Params
      reads this
    {
      Params(fSampleRate, fAttack, fDecay, fSustain, fRelease)
    }

    function Current(): Envelope
      reads this
    {
      Envelope(fAmp, fDelta, fState)
    }

    /** A new envelope is IDLE at amplitude 0 with the library's default
        attack, decay, sustain and release. A zero sample rate would make
        every increment a division by zero, so it is excluded. */
    constructor(sampleRate: nat)
      requires sampleRate > 0
      ensures fSampleRate == sampleRate && !USE_FADE_TO_ZERO_STATE
      ensures Current() == Initial
      ensures Settings() == Params(sampleRate, DEFAULT_ATTACK, DEFAULT_DECAY, DEFAULT_SUSTAIN, DEFAULT_RELEASE)
    {
      fSampleRate := sampleRate;
      USE_FADE_TO_ZERO_STATE := false;
      fAmp := 0.0;
      fAttack := DEFAULT_ATTACK;
      fDecay := DEFAULT_DECAY;
      fDelta := 0.0;
      fRelease := DEFAULT_RELEASE;
      fSustain := DEFAULT_SUSTAIN;
      fState := Idle;
    }

    method Step()
      requires fSampleRate > 0
      modifies this
      ensures Current() == StepEnvelope(Settings(), old(Current()))
      ensures Settings() == old(Settings())
    {
      match fState {
        case Idle =>
        case Sustain =>
        case Attack =>
          fAmp := fAmp + fDelta;
          if fAmp >= 1.0 {
            fAmp := 1.0;
            fDelta := ComputeDeltaFraction(fSampleRate, -(1.0 - fSustain), fDecay);
            fState := Decay;
          }
        case Decay =>
          fAmp := fAmp + fDelta;
          if fAmp <= fSustain {
            fAmp := fSustain;
            fState := Sustain;
          }
        case Release =>
          fAmp := fAmp + fDelta;
          if fAmp <= 0.0 {
            fAmp := 0.0;
            fState := Idle;
          }
        case PreAttackFadeToZero =>
          fAmp := fAmp + fDelta;
          if fAmp <= 0.0 {
            fAmp := 0.0;
            fDelta := ComputeDeltaFraction(fSampleRate, 1.0, fAttack);
            fState := Attack;
          }
      }
    }

    method Start()
      requires fSampleRate > 0
      modifies this
      ensures Current() == StartEnvelope(USE_FADE_TO_ZERO_STATE, Settings(), old(Current()))
      ensures Settings() == old(Settings())
    {
      if fAmp > 0.0 {
        if USE_FADE_TO_ZERO_STATE {
          if fState != PreAttackFadeToZero {
            fDelta := ComputeDeltaFraction(fSampleRate, -fAmp, FADE_TO_ZERO_RATE_SEC);
            fState := PreAttackFadeToZero;
          }
        } else {
          fDelta := ComputeDeltaFraction(fSampleRate, 1.0, fAttack);
          fState := Attack;
        }
      } else {
        fDelta := ComputeDeltaFraction(fSampleRate, 1.0, fAttack);
        fState := Attack;
      }
    }

    method Stop()
      requires fSampleRate > 0
      modifies this
      ensures Current() == StopEnvelope(Settings(), old(Current()))
      ensures Settings() == old(Settings())
    {
      if fState != Release {
        fDelta := ComputeDeltaFraction(fSampleRate, -fAmp, fRelease);
        fState := Release;
      }
    }

    /** `process()`: one step, then the amplitude. */
    method Process() returns (r: real)
      requires fSampleRate > 0
      modifies this
      ensures Current() == StepEnvelope(Settings(), old(Current())) && Settings() == old(Settings())
      ensures r == fAmp
    {
      Step();
      r := fAmp;
    }

    /** `process(float)`: one step, then the signal scaled by the amplitude. */
    method ProcessSample(signal: real) returns (r: real)
      requires fSampleRate > 0
      modifies this
      ensures Current() == StepEnvelope(Settings(), old(Current())) && Settings() == old(Settings())
      ensures r == signal * fAmp
    {
      Step();
      r := signal * fAmp;
    }

    /** `process(AudioSignal&)`: one step, then both channels scaled. The
        frame is passed by reference in C++; here it comes back as the result. */
    method ProcessSignal(signal: AudioSignal) returns (r: AudioSignal)
      requires fSampleRate > 0
      modifies this
      ensures Current() == StepEnvelope(Settings(), old(Current())) && Settings() == old(Settings())
      ensures r == AudioSignal(signal.left * fAmp, signal.right * fAmp)
    {
      Step();
      r := AudioSignal(signal.left * fAmp, signal.right * fAmp);
    }

    /** `process(float*, len)`: entry `i` is scaled once, by the amplitude
        after `i + 1` steps; entries from `len` on are untouched. */
    method ProcessBuffer(buffer: array<real>, len: nat)
      requires fSampleRate > 0 && len <= buffer.Length
      modifies this, buffer
      ensures Settings() == old(Settings())
      ensures Current() == StepN(Settings(), old(Current()), len)
      ensures forall i :: 0 <= i < len ==> buffer[i] == Gain(old(buffer[i]), StepN(Settings(), old(Current()), i + 1).amp)
      ensures forall i :: len <= i < buffer.Length ==> buffer[i] == old(buffer[i])
    {
      ghost var start := Current();
      ghost var orig := buffer[..];
      ghost var amps: seq<real> := [];
      for i := 0 to len
        invariant Settings() == old(Settings())
        invariant Current() == StepN(Settings(), start, i)
        invariant |amps| == i
        invariant forall k :: 0 <= k < i ==> amps[k] == StepN(Settings(), start, k + 1).amp
        invariant forall k :: 0 <= k < i ==> buffer[k] == Gain(orig[k], amps[k])
        invariant forall k :: i <= k < buffer.Length ==> buffer[k] == orig[k]
      {
        Step();
        buffer[i] := Gain(buffer[i], fAmp);
        amps := amps + [fAmp];
      }
    }

    /** `process(float*, float*, len)`: both channels scaled once per entry
        by the amplitude after `i + 1` steps; when both arguments name the same
        buffer, each entry is scaled twice. */
    method ProcessStereo(left: array<real>, right: array<real>, len: nat)
      requires fSampleRate > 0 && len <= left.Length && len <= right.Length
      modifies this, left, right
      ensures Settings() == old(Settings())
      ensures Current() == StepN(Settings(), old(Current()), len)
      ensures left != right ==> forall i :: 0 <= i < len ==>
                left[i] == Gain(old(left[i]), StepN(Settings(), old(Current()), i + 1).amp)
                && right[i] == Gain(old(right[i]), StepN(Settings(), old(Current()), i + 1).amp)
      ensures left == right ==> forall i :: 0 <= i < len ==>
                left[i] == Gain(Gain(old(left[i]), StepN(Settings(), old(Current()), i + 1).amp),
                                StepN(Settings(), old(Current()), i + 1).amp)
      ensures forall i :: len <= i < left.Length ==> left[i] == old(left[i])
      ensures forall i :: len <= i < right.Length ==> right[i] == old(right[i])
    {
      ghost var start := Current();
      ghost var origL := left[..];
      ghost var origR := right[..];
      ghost var amps: seq<real> := [];
      for i := 0 to len
        invariant Settings() == old(Settings())
        invariant Current() == StepN(Settings(), start, i)
        invariant |amps| == i
        invariant forall k :: 0 <= k < i ==> amps[k] == StepN(Settings(), start, k + 1).amp
        invariant left != right ==> forall k :: 0 <= k < i ==> left[k] == Gain(origL[k], amps[k])
        invariant left != right ==> forall k :: 0 <= k < i ==> right[k] == Gain(origR[k], amps[k])
        invariant left == right ==> forall k :: 0 <= k < i ==> left[k] == Gain(Gain(origL[k], amps[k]), amps[k])
        invariant forall k :: i <= k < left.Length ==> left[k] == origL[k]
        invariant forall k :: i <= k < right.Length ==> right[k] == origR[k]
      {
        Step();
        left[i] := Gain(left[i], fAmp);
        right[i] := Gain(right[i], fAmp);
        amps := amps + [fAmp];
      }
    }

    method SetAttack(attack: real)
      modifies this
      ensures Settings() == old(Settings()).(attack := attack) && Current() == old(Current())
    {
      fAttack := attack;
    }

    method SetDecay(decay: real)
      modifies this
      ensures Settings() == old(Settings()).(decay := decay) && Current() == old(Current())
    {
      fDecay := decay;
    }

    method SetSustain(sustain: real)
      modifies this
      ensures Settings() == old(Settings()).(sustain := sustain) && Current() == old(Current())
    {
      fSustain := sustain;
    }

    method SetRelease(release: real)
      modifies this
      ensures Settings() == old(Settings()).(release := release) && Current() == old(Current())
    {
      fRelease := release;
    }

    /** `set_adsr`: the four setters in order. */
    method SetAdsr(attack: real, decay: real, sustain: real, release: real)
      modifies this
      ensures Settings() == Params(fSampleRate, attack, decay, sustain, release)
      ensures Current() == old(Current())
    {
      SetAttack(attack);
      SetDecay(decay);
      SetSustain(sustain);
      SetRelease(release);
    }

    method GetAttack() returns (r: real)
      ensures r == fAttack
    {
      r := fAttack;
    }

    method GetDecay() returns (r: real)
      ensures r == fDecay
    {
      r := fDecay;
    }

    method GetSustain() returns (r: real)
      ensures r == fSustain
    {
      r := fSustain;
    }

    method GetRelease() returns (r: real)
      ensures r == fRelease
    {
      r := fRelease;
    }
  }
}
