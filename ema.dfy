/**
 * The exponential moving average of the rectified input, in its two copies:
 * `src/ExponentialMovingAverage.h` and `include/ExponentialMovingAverage.h`
 * (field names differ). A ghost history of the samples seen ties the state
 * to `Smoothing.EmaOf`.
 */
module SrcExponentialMovingAverage {
  import opened Numerics
  import opened Smoothing

  class ExponentialMovingAverage {
    const fAlpha: real
    var fEMA: real
    var fInitialized: bool
    /** Every sample passed to `Process`, oldest first. */
    ghost var seen: seq<real>

    /** Uninitialised exactly while nothing has been seen; afterwards the
        average is `EmaOf` the history. */
    ghost predicate Valid()
      reads this
    {
      (fInitialized <==> |seen| > 0)
      && (!fInitialized ==> fEMA == 0.0)
      && (fInitialized ==> fEMA == EmaOf(fAlpha, seen))
    }

    constructor(alpha: real)
      ensures Valid() && fAlpha == alpha && seen == []
      ensures fEMA == 0.0 && !fInitialized
    {
      fAlpha := alpha;
      fEMA := 0.0;
      fInitialized := false;
      seen := [];
    }

    /** The first sample sets the average to its magnitude; each later one
        blends in with weight `alpha`. Once set, the flag stays set. */
    method Process(sample: real) returns (r: real)
      requires Valid()
      modifies this
      ensures Valid() && seen == old(seen) + [sample] && fInitialized
      ensures r == fEMA == EmaOf(fAlpha, seen)
      ensures !old(fInitialized) ==> r == Abs(sample)
      ensures old(fInitialized) ==> r == EmaStep(fAlpha, old(fEMA), Abs(sample))
    {
      var absSample := Abs(sample);
      if !fInitialized {
        fEMA := absSample;
        fInitialized := true;
      } else {
        fEMA := EmaStep(fAlpha, fEMA, absSample);
      }
      ghost var prev := seen;
      seen := seen + [sample];
      assert seen[..|seen| - 1] == prev;
      r := fEMA;
    }

    method GetCurrent() returns (r: real)
      ensures r == fEMA
    {
      r := fEMA;
    }
  }
}

module IncludeExponentialMovingAverage {
  import opened Numerics
  import opened Smoothing

  class ExponentialMovingAverage {
    const alpha: real
    var ema: real
    var initialized: bool
    ghost var seen: seq<real>

    ghost predicate Valid()
      reads this
    {
      (initialized <==> |seen| > 0)
      && (!initialized ==> ema == 0.0)
      && (initialized ==> ema == EmaOf(alpha, seen))
    }

    constructor(alpha: real)
      ensures Valid() && this.alpha == alpha && seen == []
      ensures ema == 0.0 && !initialized
    {
      this.alpha := alpha;
      ema := 0.0;
      initialized := false;
      seen := [];
    }

    method Process(sample: real) returns (r: real)
      requires Valid()
      modifies this
      ensures Valid() && seen == old(seen) + [sample] && initialized
      ensures r == ema == EmaOf(alpha, seen)
      ensures !old(initialized) ==> r == Abs(sample)
      ensures old(initialized) ==> r == EmaStep(alpha, old(ema), Abs(sample))
    {
      var absSample := Abs(sample);
      if !initialized {
        ema := absSample;
        initialized := true;
      } else {
        ema := EmaStep(alpha, ema, absSample);
      }
      ghost var prev := seen;
      seen := seen + [sample];
      assert seen[..|seen| - 1] == prev;
      r := ema;
    }

    method GetCurrent() returns (r: real)
      ensures r == ema
    {
      r := ema;
    }
  }
}
