/**
 * The envelope follower, in its two copies: `src/EnvelopeFollower.h` and
 * `include/EnvelopeFollower.h`. They differ only in field names (and in the
 * name of the default sample-rate constant). Both copies update their state
 * with `Smoothing.FollowStep` and compute their coefficients with
 * `Smoothing.FollowerCoef`.
 */
module SrcEnvelopeFollower {
  import opened Numerics
  import opened MathLib
  import opened Smoothing

  class EnvelopeFollower {
    /** The C math library the follower calls `exp` from. */
    const lib: Lib
    const fSampleRate: real
    var fAttackTime: real
    var fReleaseTime: real
    var fAttackCoef: real
    var fReleaseCoef: real
    var fEnvelope: real

    /** The constructor stores both times through the setters and starts the
        envelope at 0. The C++ defaults are 0.01 s, 0.1 s and the library's
        default sample rate. */
    constructor(lib: Lib, attackTime: real, releaseTime: real, sampleRate: real)
      ensures this.lib == lib && fSampleRate == sampleRate
      ensures fAttackTime == attackTime && fReleaseTime == releaseTime
      ensures fAttackCoef == FollowerCoef(lib, attackTime, sampleRate)
      ensures fReleaseCoef == FollowerCoef(lib, releaseTime, sampleRate)
      ensures fEnvelope == 0.0
    {
      this.lib := lib;
      fSampleRate := sampleRate;
      fAttackTime := attackTime;
      fAttackCoef := FollowerCoef(lib, attackTime, sampleRate);
      fReleaseTime := releaseTime;
      fReleaseCoef := FollowerCoef(lib, releaseTime, sampleRate);
      fEnvelope := 0.0;
    }

    /** Coefficients in [0, 1]: what positive times and sample rate give. */
    predicate CoefsInUnit()
      reads this
    {
      0.0 <= fAttackCoef <= 1.0 && 0.0 <= fReleaseCoef <= 1.0
    }

    method SetAttackTime(attackTime: real)
      modifies this
      ensures fAttackTime == attackTime
      ensures fAttackCoef == FollowerCoef(lib, attackTime, fSampleRate)
      ensures ExpLaws(lib) && attackTime > 0.0 && fSampleRate > 0.0 ==> 0.0 < fAttackCoef < 1.0
      ensures fReleaseTime == old(fReleaseTime) && fReleaseCoef == old(fReleaseCoef)
      ensures fEnvelope == old(fEnvelope)
    {
      fAttackTime := attackTime;
      fAttackCoef := FollowerCoef(lib, attackTime, fSampleRate);
      if ExpLaws(lib) && attackTime > 0.0 && fSampleRate > 0.0 {
        FollowerCoefInUnit(lib, attackTime, fSampleRate);
      }
    }

    method SetReleaseTime(releaseTime: real)
      modifies this
      ensures fReleaseTime == releaseTime
      ensures fReleaseCoef == FollowerCoef(lib, releaseTime, fSampleRate)
      ensures ExpLaws(lib) && releaseTime > 0.0 && fSampleRate > 0.0 ==> 0.0 < fReleaseCoef < 1.0
      ensures fAttackTime == old(fAttackTime) && fAttackCoef == old(fAttackCoef)
      ensures fEnvelope == old(fEnvelope)
    {
      fReleaseTime := releaseTime;
      fReleaseCoef := FollowerCoef(lib, releaseTime, fSampleRate);
      if ExpLaws(lib) && releaseTime > 0.0 && fSampleRate > 0.0 {
        FollowerCoefInUnit(lib, releaseTime, fSampleRate);
      }
    }

    /** One sample: the new envelope is `FollowStep` of the old one, and with
        coefficients in [0, 1] it lies between the old envelope and `|input|`,
        so a non-negative envelope stays non-negative. */
    method Process(input: real) returns (r: real)
      modifies this
      ensures fEnvelope == FollowStep(old(fEnvelope), fAttackCoef, fReleaseCoef, input)
      ensures r == fEnvelope
      ensures CoefsInUnit() && Abs(input) > old(fEnvelope) ==> old(fEnvelope) <= r <= Abs(input)
      ensures CoefsInUnit() && Abs(input) <= old(fEnvelope) ==> Abs(input) <= r <= old(fEnvelope)
      ensures fAttackTime == old(fAttackTime) && fReleaseTime == old(fReleaseTime)
      ensures fAttackCoef == old(fAttackCoef) && fReleaseCoef == old(fReleaseCoef)
    {
      if CoefsInUnit() {
        FollowStepBetween(fEnvelope, fAttackCoef, fReleaseCoef, input);
      }
      var absInput := Abs(input);
      if absInput > fEnvelope {
        fEnvelope := Follow(fEnvelope, fAttackCoef, absInput);
      } else {
        fEnvelope := Follow(fEnvelope, fReleaseCoef, absInput);
      }
      r := fEnvelope;
    }

    /** The last `Process` result; changes nothing. */
    method GetCurrent() returns (r: real)
      ensures r == fEnvelope
    {
      r := fEnvelope;
    }
  }
}

module IncludeEnvelopeFollower {
  import opened Numerics
  import opened MathLib
  import opened Smoothing

  class EnvelopeFollower {
    /** The C math library the follower calls `exp` from. */
    const lib: Lib
    var attackTime: real
    var releaseTime: real
    var sampleRate: real
    var attackCoef: real
    var releaseCoef: real
    var envelope: real

    constructor(lib: Lib, attackTime: real, releaseTime: real, sampleRate: real)
      ensures this.lib == lib && this.sampleRate == sampleRate
      ensures this.attackTime == attackTime && this.releaseTime == releaseTime
      ensures attackCoef == FollowerCoef(lib, attackTime, sampleRate)
      ensures releaseCoef == FollowerCoef(lib, releaseTime, sampleRate)
      ensures envelope == 0.0
    {
      this.lib := lib;
      this.sampleRate := sampleRate;
      this.attackTime := attackTime;
      attackCoef := FollowerCoef(lib, attackTime, sampleRate);
      this.releaseTime := releaseTime;
      releaseCoef := FollowerCoef(lib, releaseTime, sampleRate);
      envelope := 0.0;
    }

    predicate CoefsInUnit()
      reads this
    {
      0.0 <= attackCoef <= 1.0 && 0.0 <= releaseCoef <= 1.0
    }

    method SetAttackTime(attackTime: real)
      modifies this
      ensures this.attackTime == attackTime
      ensures attackCoef == FollowerCoef(lib, attackTime, sampleRate)
      ensures ExpLaws(lib) && attackTime > 0.0 && sampleRate > 0.0 ==> 0.0 < attackCoef < 1.0
      ensures releaseTime == old(releaseTime) && releaseCoef == old(releaseCoef)
      ensures sampleRate == old(sampleRate) && envelope == old(envelope)
    {
      this.attackTime := attackTime;
      attackCoef := FollowerCoef(lib, attackTime, sampleRate);
      if ExpLaws(lib) && attackTime > 0.0 && sampleRate > 0.0 {
        FollowerCoefInUnit(lib, attackTime, sampleRate);
      }
    }

    method SetReleaseTime(releaseTime: real)
      modifies this
      ensures this.releaseTime == releaseTime
      ensures releaseCoef == FollowerCoef(lib, releaseTime, sampleRate)
      ensures ExpLaws(lib) && releaseTime > 0.0 && sampleRate > 0.0 ==> 0.0 < releaseCoef < 1.0
      ensures attackTime == old(attackTime) && attackCoef == old(attackCoef)
      ensures sampleRate == old(sampleRate) && envelope == old(envelope)
    {
      this.releaseTime := releaseTime;
      releaseCoef := FollowerCoef(lib, releaseTime, sampleRate);
      if ExpLaws(lib) && releaseTime > 0.0 && sampleRate > 0.0 {
        FollowerCoefInUnit(lib, releaseTime, sampleRate);
      }
    }

    method Process(input: real) returns (r: real)
      modifies this
      ensures envelope == FollowStep(old(envelope), attackCoef, releaseCoef, input)
      ensures r == envelope
      ensures CoefsInUnit() && Abs(input) > old(envelope) ==> old(envelope) <= r <= Abs(input)
      ensures CoefsInUnit() && Abs(input) <= old(envelope) ==> Abs(input) <= r <= old(envelope)
      ensures attackTime == old(attackTime) && releaseTime == old(releaseTime)
      ensures attackCoef == old(attackCoef) && releaseCoef == old(releaseCoef)
      ensures sampleRate == old(sampleRate)
    {
      if CoefsInUnit() {
        FollowStepBetween(envelope, attackCoef, releaseCoef, input);
      }
      var absInput := Abs(input);
      if absInput > envelope {
        envelope := Follow(envelope, attackCoef, absInput);
      } else {
        envelope := Follow(envelope, releaseCoef, absInput);
      }
      r := envelope;
    }

    method GetCurrent() returns (r: real)
      ensures r == envelope
    {
      r := envelope;
    }
  }
}
