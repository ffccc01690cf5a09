/**
 * Update rules shared by the two copies of the envelope follower, the
 * root-mean-square meter and the exponential moving average (one copy under
 * `src/`, one under `include/`; they differ only in field names). Each rule is
 * a pure function of the old state and the input, with the lemmas the
 * smoothers rely on.
 */
module Smoothing {
  import opened Numerics
  import opened MathLib

  /** The product of two non-negative reals is non-negative. */
  lemma ProductNonNegative(c: real, d: real, p: real)
    requires c >= 0.0 && d >= 0.0 && p == c * d
    ensures p >= 0.0
  {
  }

  /** Scaling a non-negative value by a factor in [0, 1] keeps it within
      [0, value]. */
  lemma ScaleNonNegative(c: real, d: real, p: real)
    requires 0.0 <= c <= 1.0 && d >= 0.0 && p == c * d
    ensures 0.0 <= p <= d
  {
    ProductNonNegative(c, d, p);
    var e := 1.0 - c;
    var q := e * d;
    ProductNonNegative(e, d, q);
    assert p + q == d;
  }

  // ---------------------------------------------------------------------------
  // Envelope follower

  /** `exp(-1 / (time * sampleRate))`; a zero product divides -1 by +0, giving
      exp(-infinity) == 0 under IEEE arithmetic. */
  function FollowerCoef(lib: Lib, time: real, sampleRate: real): real
  {
    if time * sampleRate == 0.0 then 0.0 else lib.exp(-1.0 / (time * sampleRate))
  }

  /** A coefficient computed from a positive time and sample rate lies in (0, 1). */
  lemma FollowerCoefInUnit(lib: Lib, time: real, sampleRate: real)
    requires ExpLaws(lib)
    requires time > 0.0 && sampleRate > 0.0
    ensures 0.0 < FollowerCoef(lib, time, sampleRate) < 1.0
  {
    var p := time * sampleRate;
    assert p > 0.0;
    assert -1.0 / p < 0.0;
  }

  /** `coef * (envelope - magnitude) + magnitude`: the follower's blend of its
      old value and the rectified input. */
  function Follow(envelope: real, coef: real, magnitude: real): real
  {
    coef * (envelope - magnitude) + magnitude
  }

  lemma FollowBetween(envelope: real, coef: real, magnitude: real)
    requires 0.0 <= coef <= 1.0
    ensures magnitude <= envelope ==> magnitude <= Follow(envelope, coef, magnitude) <= envelope
    ensures envelope <= magnitude ==> envelope <= Follow(envelope, coef, magnitude) <= magnitude
  {
    var d := envelope - magnitude;
    var p := coef * d;
    if d >= 0.0 {
      ScaleNonNegative(coef, d, p);
    } else {
      var m := -d;
      var q := coef * m;
      ScaleNonNegative(coef, m, q);
      assert p == -q;
    }
    assert Follow(envelope, coef, magnitude) == p + magnitude;
  }

  /** One follower update: the attack coefficient when the rectified input
      exceeds the envelope, the release coefficient otherwise. */
  function FollowStep(envelope: real, attackCoef: real, releaseCoef: real, input: real): real
  {
    var x := Abs(input);
    if x > envelope then Follow(envelope, attackCoef, x) else Follow(envelope, releaseCoef, x)
  }

  /** With both coefficients in [0, 1] the new envelope lies between the old
      envelope and the rectified input. */
  lemma FollowStepBetween(envelope: real, attackCoef: real, releaseCoef: real, input: real)
    requires 0.0 <= attackCoef <= 1.0 && 0.0 <= releaseCoef <= 1.0
    ensures var e := FollowStep(envelope, attackCoef, releaseCoef, input);
            (Abs(input) > envelope ==> envelope <= e <= Abs(input))
            && (Abs(input) <= envelope ==> Abs(input) <= e <= envelope)
  {
    var x := Abs(input);
    FollowBetween(envelope, attackCoef, x);
    FollowBetween(envelope, releaseCoef, x);
  }

  /** The envelope after following `inputs` from `envelope`. */
  function FollowAll(envelope: real, attackCoef: real, releaseCoef: real, inputs: seq<real>): real
    decreases |inputs|
  {
    if inputs == [] then envelope
    else FollowAll(FollowStep(envelope, attackCoef, releaseCoef, inputs[0]), attackCoef, releaseCoef, inputs[1..])
  }

  /** Starting from a non-negative envelope (the constructor's 0), the envelope
      stays non-negative and never exceeds the larger of its start and the
      loudest rectified input. */
  lemma {:induction false} FollowAllBounded(envelope: real, attackCoef: real, releaseCoef: real,
                                            inputs: seq<real>, bound: real)
    requires 0.0 <= attackCoef <= 1.0 && 0.0 <= releaseCoef <= 1.0
    requires 0.0 <= envelope <= bound
    requires forall i :: 0 <= i < |inputs| ==> Abs(inputs[i]) <= bound
    ensures 0.0 <= FollowAll(envelope, attackCoef, releaseCoef, inputs) <= bound
    decreases |inputs|
  {
    if inputs != [] {
      FollowStepBetween(envelope, attackCoef, releaseCoef, inputs[0]);
      var e := FollowStep(envelope, attackCoef, releaseCoef, inputs[0]);
      assert Abs(inputs[0]) <= bound;
      FollowAllBounded(e, attackCoef, releaseCoef, inputs[1..], bound);
    }
  }

  // ---------------------------------------------------------------------------
  // Root mean square over a ring buffer

  function SumSquares(s: seq<real>): real
    decreases |s|
  {
    if s == [] then 0.0 else SumSquares(s[..|s| - 1]) + s[|s| - 1] * s[|s| - 1]
  }

  lemma {:induction false} SumSquaresNonNegative(s: seq<real>)
    ensures SumSquares(s) >= 0.0
    decreases |s|
  {
    if s != [] {
      SumSquaresNonNegative(s[..|s| - 1]);
    }
  }

  /** A window of zeros has a zero sum of squares: the meter's initial state. */
  lemma {:induction false} SumSquaresOfZeros(s: seq<real>)
    requires forall i :: 0 <= i < |s| ==> s[i] == 0.0
    ensures SumSquares(s) == 0.0
    decreases |s|
  {
    if s != [] {
      SumSquaresOfZeros(s[..|s| - 1]);
    }
  }

  /** Overwriting one slot changes the sum of squares by exactly the new
      square minus the old one: what the meter's running sum does. */
  lemma {:induction false} SumSquaresUpdate(s: seq<real>, i: int, v: real)
    requires 0 <= i < |s|
    ensures SumSquares(s[i := v]) == SumSquares(s) - s[i] * s[i] + v * v
    decreases |s|
  {
    var n := |s| - 1;
    var t := s[i := v];
    assert t[..n] == if i == n then s[..n] else s[..n][i := v];
    if i < n {
      SumSquaresUpdate(s[..n], i, v);
    }
  }

  /** The meter's output: `sqrt(sum / windowSize)` when the sum is positive,
      and 0 otherwise. */
  function RmsOf(lib: Lib, sum: real, windowSize: nat): real
    requires windowSize > 0
  {
    if sum > 0.0 then lib.sqrt(sum / windowSize as real) else 0.0
  }

  lemma RmsNonNegative(lib: Lib, sum: real, windowSize: nat)
    requires windowSize > 0 && SqrtLaws(lib)
    ensures RmsOf(lib, sum, windowSize) >= 0.0
  {
    if sum > 0.0 {
      assert sum / windowSize as real >= 0.0;
    }
  }

  // ---------------------------------------------------------------------------
  // Exponential moving average

  /** `alpha * magnitude + (1 - alpha) * ema`. */
  function EmaStep(alpha: real, ema: real, magnitude: real): real
  {
    alpha * magnitude + (1.0 - alpha) * ema
  }

  /** One step of the average lies between the old average and the new
      magnitude. */
  lemma EmaStepBetween(alpha: real, ema: real, magnitude: real)
    requires 0.0 <= alpha <= 1.0
    ensures magnitude <= ema ==> magnitude <= EmaStep(alpha, ema, magnitude) <= ema
    ensures ema <= magnitude ==> ema <= EmaStep(alpha, ema, magnitude) <= magnitude
  {
    var d := magnitude - ema;
    var p := alpha * d;
    if d >= 0.0 {
      ScaleNonNegative(alpha, d, p);
    } else {
      var m := -d;
      var q := alpha * m;
      ScaleNonNegative(alpha, m, q);
      assert p == -q;
    }
    assert EmaStep(alpha, ema, magnitude) == ema + p;
  }

  /** The average of a non-empty history: the first sample's magnitude, then
      one `EmaStep` per later sample. */
  function EmaOf(alpha: real, samples: seq<real>): real
    requires |samples| > 0
    decreases |samples|
  {
    if |samples| == 1 then Abs(samples[0])
    else EmaStep(alpha, EmaOf(alpha, samples[..|samples| - 1]), Abs(samples[|samples| - 1]))
  }

  /** The average stays within the smallest and largest magnitudes seen: with
      `alpha` in [0, 1] each step is a convex combination. */
  lemma {:induction false} EmaWithinRange(alpha: real, samples: seq<real>, lo: real, hi: real)
    requires 0.0 <= alpha <= 1.0 && |samples| > 0
    requires forall i :: 0 <= i < |samples| ==> lo <= Abs(samples[i]) <= hi
    ensures lo <= EmaOf(alpha, samples) <= hi
    decreases |samples|
  {
    if |samples| > 1 {
      var n := |samples| - 1;
      var prefix := samples[..n];
      assert forall i :: 0 <= i < |prefix| ==> prefix[i] == samples[i];
      EmaWithinRange(alpha, prefix, lo, hi);
      var e := EmaOf(alpha, prefix);
      EmaStepBetween(alpha, e, Abs(samples[n]));
    }
  }
}
