/**
 * The root-mean-square meter, in its two copies: `src/RootMeanSquare.h` and
 * `include/RootMeanSquare.h` (field names differ). The window is a ring
 * buffer of `windowSize` samples; a running sum of squares is kept in step
 * with it.
 */
module SrcRootMeanSquare {
  import opened MathLib
  import opened Smoothing

  class RootMeanSquare {
    /** The C math library the meter calls `sqrt` from. */
    const lib: Lib
    const fWindowSize: nat
    const fBuffer: array<real>
    var fBufferIndex: nat
    var fSum: real
    var fRMS: real

    /** The buffer has the window's size, the index points into it (or is the
        initial 0 of an empty window), and the running sum is the sum of
        squares of the window. */
    ghost predicate Valid()
      reads this, fBuffer
    {
      fBuffer.Length == fWindowSize
      && (fBufferIndex < fWindowSize || fBufferIndex == 0)
      && fSum == SumSquares(fBuffer[..])
    }

    /** A window of `windowSize` zeros (the C++ default is 16). A zero-sized
        window can be built; only `Process` divides by the size. */
    constructor(lib: Lib, windowSize: nat)
      ensures Valid() && fresh(fBuffer)
      ensures this.lib == lib && fWindowSize == windowSize
      ensures forall i :: 0 <= i < windowSize ==> fBuffer[i] == 0.0
      ensures fBufferIndex == 0 && fSum == 0.0 && fRMS == 0.0
    {
      this.lib := lib;
      fWindowSize := windowSize;
      fBuffer := new real[windowSize](_ => 0.0);
      fBufferIndex := 0;
      fSum := 0.0;
      fRMS := 0.0;
      new;
      SumSquaresOfZeros(fBuffer[..]);
    }

    /** The ring-buffer half of `process`: the sample replaces the oldest
        one, the running sum follows, and the index advances. */
    method Push(sample: real)
      requires Valid() && fWindowSize > 0
      modifies this, fBuffer
      ensures Valid() && fRMS == old(fRMS)
      ensures fBuffer[..] == old(fBuffer[..])[old(fBufferIndex) := sample]
      ensures fBufferIndex == (old(fBufferIndex) + 1) % fWindowSize
    {
      var i := fBufferIndex;
      ghost var before := fBuffer[..];
      var oldest := fBuffer[i];
      fSum := fSum - oldest * oldest;
      fBuffer[i] := sample;
      fBufferIndex := (i + 1) % fWindowSize;
      fSum := fSum + sample * sample;
      SumSquaresUpdate(before, i, sample);
      assert fBuffer[..] == before[i := sample];
    }

    /** One sample: it replaces the slot under the index (and no other), the
        index advances by one modulo the window, and the result is the root
        mean square of the new window. The window must not be empty: the
        C++ code takes the index modulo its size. */
    method Process(sample: real) returns (r: real)
      requires Valid() && fWindowSize > 0
      modifies this, fBuffer
      ensures Valid()
      ensures fBuffer[..] == old(fBuffer[..])[old(fBufferIndex) := sample]
      ensures fBufferIndex == (old(fBufferIndex) + 1) % fWindowSize
      ensures r == fRMS == RmsOf(lib, SumSquares(fBuffer[..]), fWindowSize)
      ensures SqrtLaws(lib) ==> r >= 0.0
    {
      Push(sample);
      if fSum > 0.0 {
        fRMS := lib.sqrt(fSum / fWindowSize as real);
      } else {
        fRMS := 0.0;
      }
      r := fRMS;
      if SqrtLaws(lib) {
        RmsNonNegative(lib, fSum, fWindowSize);
      }
    }

    method GetCurrent() returns (r: real)
      ensures r == fRMS
    {
      r := fRMS;
    }
  }
}

module IncludeRootMeanSquare {
  import opened MathLib
  import opened Smoothing

  class RootMeanSquare {
    const lib: Lib
    const windowSize: nat
    const buffer: array<real>
    var bufferIndex: nat
    var sum: real
    var rms: real

    ghost predicate Valid()
      reads this, buffer
    {
      buffer.Length == windowSize
      && (bufferIndex < windowSize || bufferIndex == 0)
      && sum == SumSquares(buffer[..])
    }

    constructor(lib: Lib, windowSize: nat)
      ensures Valid() && fresh(buffer)
      ensures this.lib == lib && this.windowSize == windowSize
      ensures forall i :: 0 <= i < windowSize ==> buffer[i] == 0.0
      ensures bufferIndex == 0 && sum == 0.0 && rms == 0.0
    {
      this.lib := lib;
      this.windowSize := windowSize;
      buffer := new real[windowSize](_ => 0.0);
      bufferIndex := 0;
      sum := 0.0;
      rms := 0.0;
      new;
      SumSquaresOfZeros(buffer[..]);
    }

    /** The ring-buffer half of `process`: the sample replaces the oldest
        one, the running sum follows, and the index advances. */
    method Push(sample: real)
      requires Valid() && windowSize > 0
      modifies this, buffer
      ensures Valid() && rms == old(rms)
      ensures buffer[..] == old(buffer[..])[old(bufferIndex) := sample]
      ensures bufferIndex == (old(bufferIndex) + 1) % windowSize
    {
      var i := bufferIndex;
      ghost var before := buffer[..];
      var oldest := buffer[i];
      sum := sum - oldest * oldest;
      buffer[i] := sample;
      bufferIndex := (i + 1) % windowSize;
      sum := sum + sample * sample;
      SumSquaresUpdate(before, i, sample);
      assert buffer[..] == before[i := sample];
    }

    method Process(sample: real) returns (r: real)
      requires Valid() && windowSize > 0
      modifies this, buffer
      ensures Valid()
      ensures buffer[..] == old(buffer[..])[old(bufferIndex) := sample]
      ensures bufferIndex == (old(bufferIndex) + 1) % windowSize
      ensures r == rms == RmsOf(lib, SumSquares(buffer[..]), windowSize)
      ensures SqrtLaws(lib) ==> r >= 0.0
    {
      Push(sample);
      if sum > 0.0 {
        rms := lib.sqrt(sum / windowSize as real);
      } else {
        rms := 0.0;
      }
      r := rms;
      if SqrtLaws(lib) {
        RmsNonNegative(lib, sum, windowSize);
      }
    }

    method GetCurrent() returns (r: real)
      ensures r == rms
    {
      r := rms;
    }
  }
}
