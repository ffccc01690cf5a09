/**
 * The static table fills of `Wavetable` (include/Wavetable.h): each writes
 * one single-cycle waveform into the first `size` entries of a table. Every
 * fill is a method that loops over the array as the C++ does, proved against
 * a function on sequences that says what the table holds afterwards.
 */
module WavetableShapes {
  import opened Numerics
  import opened MathLib
  import opened KlangWellen

  // ---------------------------------------------------------------------------
  // Arithmetic helpers

  /** A quotient of a value in [0, d] by a positive d lies in [0, 1]. */
  lemma QuotientInUnit(n: real, d: real)
    requires 0.0 <= n <= d && d > 0.0
    ensures 0.0 <= n / d <= 1.0 && -1.0 <= -n / d <= 0.0
  {
  }

  /** Scaling a non-negative value by a factor in [0, 1] does not enlarge it. */
  lemma ScaledAtMost(d: real, c: real)
    requires d >= 0.0
    ensures 0.0 <= c <= 1.0 ==> 0.0 <= d * c <= d
  {
    if 0.0 <= c <= 1.0 {
      var y := d * (1.0 - c);
      assert y >= 0.0;
      assert d * c + y == d;
    }
  }

  lemma FloorAtMost(x: real, n: nat)
    ensures 0.0 <= x <= n as real ==> 0 <= x.Floor <= n
  {
    if 0.0 <= x <= n as real {
      var f := x.Floor;
      assert f as real <= x < f as real + 1.0;
      assert f as real <= n as real;
      assert f > -1;
    }
  }

  // ---------------------------------------------------------------------------
  // pulse

  /** `(uint32_t)(size * pulseWidth)`: the number of leading high entries
      (truncation toward zero; the caller keeps the product convertible). */
  function PulseThreshold(size: uint32, pulseWidth: real): nat
  {
    var x := size as real * pulseWidth;
    if x >= 0.0 then x.Floor else 0
  }

  /** The table after `pulse`: 1 below the threshold, -1 from it on. */
  function PulseTable(s: seq<real>, size: uint32, threshold: nat): (r: seq<real>)
    requires size <= |s|
    ensures |r| == |s|
  {
    seq(|s|, k requires 0 <= k < |s| => if k < size then (if k < threshold then 1.0 else -1.0) else s[k])
  }

  method Pulse(table: array<real>, size: uint32, pulseWidth: real)
    requires size <= table.Length
    requires -1.0 < size as real * pulseWidth < 4294967296.0
    modifies table
    ensures table[..] == PulseTable(old(table[..]), size, PulseThreshold(size, pulseWidth))
  {
    var threshold := PulseThreshold(size, pulseWidth);
    ghost var orig := table[..];
    for i := 0 to size
      invariant forall k :: 0 <= k < i ==> table[k] == (if k < threshold then 1.0 else -1.0)
      invariant forall k :: i <= k < table.Length ==> table[k] == orig[k]
    {
      if i < threshold {
        table[i] := 1.0;
      } else {
        table[i] := -1.0;
      }
    }
  }

  /** With a width in [0, 1], exactly the first `floor(size * width)` entries
      are high and every other entry of the first `size` is low. */
  lemma PulseHighCount(s: seq<real>, size: uint32, pulseWidth: real)
    requires size <= |s| && 0.0 <= pulseWidth <= 1.0
    ensures var n := PulseThreshold(size, pulseWidth);
            var t := PulseTable(s, size, n);
            n == (size as real * pulseWidth).Floor && n <= size
            && (forall k :: 0 <= k < n ==> t[k] == 1.0)
            && (forall k :: n <= k < size ==> t[k] == -1.0)
  {
    var d := size as real;
    var x := d * pulseWidth;
    ScaledAtMost(d, pulseWidth);
    assert 0.0 <= x <= d;
    FloorAtMost(x, size);
    var n := PulseThreshold(size, pulseWidth);
    assert n == x.Floor;
    var t := PulseTable(s, size, n);
    assert forall k :: 0 <= k < n ==> t[k] == 1.0;
  }

  // ---------------------------------------------------------------------------
  // square

  /** The table after `square`: the first `size / 2` entries 1, the next
      `size / 2` entries -1; for an odd size the last entry keeps its value. */
  function SquareTable(s: seq<real>, size: nat): (r: seq<real>)
    requires size <= |s|
    ensures |r| == |s|
  {
    seq(|s|, k requires 0 <= k < |s| => if k < size / 2 then 1.0 else if k < 2 * (size / 2) then -1.0 else s[k])
  }

  method Square(table: array<real>, size: nat)
    requires size <= table.Length
    modifies table
    ensures table[..] == SquareTable(old(table[..]), size)
  {
    ghost var orig := table[..];
    var half := size / 2;
    for i := 0 to half
      invariant forall k :: 0 <= k < i ==> table[k] == 1.0
      invariant forall k :: half <= k < half + i ==> table[k] == -1.0
      invariant forall k :: i <= k < half ==> table[k] == orig[k]
      invariant forall k :: half + i <= k < table.Length ==> table[k] == orig[k]
    {
      table[i] := 1.0;
      table[i + half] := -1.0;
    }
  }

  /** For an even size the square wave has as many high as low entries, and
      for an odd size the one entry it leaves is the last. */
  lemma SquareHalves(s: seq<real>, size: nat)
    requires size <= |s|
    ensures var t := SquareTable(s, size);
            (forall k :: 0 <= k < size / 2 ==> t[k] == 1.0)
            && (forall k :: size / 2 <= k < 2 * (size / 2) ==> t[k] == -1.0)
            && (size % 2 == 1 ==> t[size - 1] == s[size - 1])
  {
  }

  // ---------------------------------------------------------------------------
  // triangle

  /** The four quarters of the triangle at offset `j` into the quarter,
      with `qf = size * 0.25`. */
  function Rise(qf: real, j: nat): real
    requires qf > 0.0
  {
    j as real / qf
  }

  function Fall(qf: real, j: nat): real
    requires qf > 0.0
  {
    (qf - j as real) / qf
  }

  /** The third quarter, `-i / qf`. With `unsignedNegation` it is what the
      C++ computes: `i` is a `uint32_t`, so `-i` is `2^32 - i` for `i > 0`. */
  function FallNegative(qf: real, j: nat, unsignedNegation: bool): real
    requires qf > 0.0
  {
    if unsignedNegation then UnsignedNegate(j) as real / qf else -(j as real) / qf
  }

  function RiseNegative(qf: real, j: nat): real
    requires qf > 0.0
  {
    -(qf - j as real) / qf
  }

  /** Unary minus on a `uint32_t`. */
  function UnsignedNegate(j: nat): (r: uint32)
    ensures j == 0 ==> r == 0
    ensures 0 < j < 0x1_0000_0000 ==> r + j == 0x1_0000_0000
  {
    (0x1_0000_0000 - j % 0x1_0000_0000) % 0x1_0000_0000
  }

  /** Entry `k` of the triangle over `size` entries (`q = size / 4` per
      quarter): rising from 0, falling to 0, falling to -1 and rising back. */
  function TriangleEntry(size: nat, k: nat, unsignedNegation: bool): real
    requires k < 4 * (size / 4)
  {
    var q := size / 4;
    var qf := size as real * 0.25;
    if k < q then Rise(qf, k)
    else if k < 2 * q then Fall(qf, k - q)
    else if k < 3 * q then FallNegative(qf, k - 2 * q, unsignedNegation)
    else RiseNegative(qf, k - 3 * q)
  }

  /** The table after `triangle`: the first `4 * (size / 4)` entries hold the
      triangle; the rest (up to three when `size` is not a multiple of 4) keep
      their values. */
  function TriangleTable(s: seq<real>, size: nat, unsignedNegation: bool): (r: seq<real>)
    requires size <= |s|
    ensures |r| == |s|
  {
    seq(|s|, k requires 0 <= k < |s| =>
      if k < 4 * (size / 4) then TriangleEntry(size, k, unsignedNegation) else s[k])
  }

  /** Every entry of the (corrected) triangle lies in [-1, 1]. */
  lemma TriangleEntryInRange(size: nat, k: nat)
    requires k < 4 * (size / 4)
    ensures -1.0 <= TriangleEntry(size, k, false) <= 1.0
  {
    var q := size / 4;
    var qf := size as real * 0.25;
    assert q as real <= qf;
    if k < q {
      QuotientInUnit(k as real, qf);
    } else if k < 2 * q {
      QuotientInUnit(qf - (k - q) as real, qf);
    } else if k < 3 * q {
      QuotientInUnit((k - 2 * q) as real, qf);
    } else {
      QuotientInUnit(qf - (k - 3 * q) as real, qf);
    }
  }

  /** As written, the third quarter leaves [-1, 1]: for a table of 8, entry 5
      (offset 1 into the third quarter, `qf == 2`) is `(2^32 - 1) / 2`
      instead of -0.5. */
  lemma TriangleAsWrittenOutOfRange()
    ensures TriangleEntry(8, 5, true) == 2147483647.5
    ensures TriangleEntry(8, 5, false) == -0.5
  {
    assert UnsignedNegate(1) == 4294967295;
  }

  /** The table after the first `i` iterations of the triangle loop: offsets
      below `i` of each quarter written, everything else as before. */
  function TrianglePartial(orig: seq<real>, q: nat, qf: real, i: nat, unsignedNegation: bool): (r: seq<real>)
    requires 4 * q <= |orig| && i <= q && (q > 0 ==> qf > 0.0)
    ensures |r| == |orig|
  {
    seq(|orig|, k requires 0 <= k < |orig| =>
      if k < i then Rise(qf, k)
      else if q <= k < q + i then Fall(qf, k - q)
      else if 2 * q <= k < 2 * q + i then FallNegative(qf, k - 2 * q, unsignedNegation)
      else if 3 * q <= k < 3 * q + i then RiseNegative(qf, k - 3 * q)
      else orig[k])
  }

  /** One iteration writes offset `i` of each quarter. */
  lemma TriangleStep(orig: seq<real>, q: nat, qf: real, i: nat, unsignedNegation: bool)
    requires 4 * q <= |orig| && i < q && qf > 0.0
    ensures TrianglePartial(orig, q, qf, i, unsignedNegation)[i := Rise(qf, i)][i + q := Fall(qf, i)]
              [i + 2 * q := FallNegative(qf, i, unsignedNegation)][i + 3 * q := RiseNegative(qf, i)]
            == TrianglePartial(orig, q, qf, i + 1, unsignedNegation)
  {
    var before := TrianglePartial(orig, q, qf, i, unsignedNegation);
    var after := TrianglePartial(orig, q, qf, i + 1, unsignedNegation);
    var written := before[i := Rise(qf, i)][i + q := Fall(qf, i)]
                   [i + 2 * q := FallNegative(qf, i, unsignedNegation)][i + 3 * q := RiseNegative(qf, i)];
    forall k | 0 <= k < |orig|
      ensures written[k] == after[k]
    {
    }
  }

  /** After all `q` iterations the partial table is the triangle table. */
  lemma TriangleComplete(orig: seq<real>, size: nat, q: nat, qf: real, unsignedNegation: bool)
    requires size <= |orig| && q == size / 4 && qf == size as real * 0.25
    ensures TrianglePartial(orig, q, qf, q, unsignedNegation) == TriangleTable(orig, size, unsignedNegation)
  {
  }

  /** `triangle(table, size)` with the third quarter negated as a real: every
      entry it writes lies in [-1, 1] (`TriangleEntryInRange`). */
  method Triangle(table: array<real>, size: uint32)
    requires size <= table.Length
    modifies table
    ensures table[..] == TriangleTable(old(table[..]), size, false)
  {
    ghost var orig := table[..];
    var q := size / 4;
    var qf := size as real * 0.25;
    for i := 0 to q
      invariant table[..] == TrianglePartial(orig, q, qf, i, false)
    {
      TriangleStep(orig, q, qf, i, false);
      table[i] := i as real / qf;
      table[i + q] := (qf - i as real) / qf;
      table[i + 2 * q] := -(i as real) / qf;
      table[i + 3 * q] := -(qf - i as real) / qf;
    }
    TriangleComplete(orig, size, q, qf, false);
  }

  /** `triangle(table, size)` as written: `-i` negates an unsigned index. */
  method TriangleAsWritten(table: array<real>, size: uint32)
    requires size <= table.Length
    modifies table
    ensures table[..] == TriangleTable(old(table[..]), size, true)
  {
    ghost var orig := table[..];
    var q := size / 4;
    var qf := size as real * 0.25;
    for i := 0 to q
      invariant table[..] == TrianglePartial(orig, q, qf, i, true)
    {
      TriangleStep(orig, q, qf, i, true);
      table[i] := i as real / qf;
      table[i + q] := (qf - i as real) / qf;
      var negated: uint32 := UnsignedNegate(i);
      table[i + 2 * q] := negated as real / qf;
      table[i + 3 * q] := -(qf - i as real) / qf;
    }
    TriangleComplete(orig, size, q, qf, true);
  }

  // ---------------------------------------------------------------------------
  // sawtooth_ramp

  /** Entry `k` of `sawtooth_ramp`: `sign * (2 * k / (size - 1) - 1)` with
      `sign == -1` for `is_ramp_up` and 1 otherwise. */
  function RampEntry(size: nat, isRampUp: bool, k: nat): real
    requires size != 1
  {
    var sign := if isRampUp then -1.0 else 1.0;
    sign * (2.0 * (k as real / (size - 1) as real) - 1.0)
  }

  function RampTable(s: seq<real>, size: nat, isRampUp: bool): (r: seq<real>)
    requires size <= |s| && size != 1
    ensures |r| == |s|
  {
    seq(|s|, k requires 0 <= k < |s| => if k < size then RampEntry(size, isRampUp, k) else s[k])
  }

  /** A ramp over `size >= 2` entries runs linearly between its two ends and
      stays in [-1, 1]; with `is_ramp_up` it starts at 1 and ends at -1. */
  lemma RampShape(size: nat, isRampUp: bool, k: nat)
    requires size >= 2 && k < size
    ensures -1.0 <= RampEntry(size, isRampUp, k) <= 1.0
    ensures RampEntry(size, isRampUp, 0) == (if isRampUp then 1.0 else -1.0)
    ensures RampEntry(size, isRampUp, size - 1) == (if isRampUp then -1.0 else 1.0)
  {
    var d := (size - 1) as real;
    QuotientInUnit(k as real, d);
    var x := k as real / d;
    assert (size - 1) as real / d == 1.0;
  }

  /** `sawtooth_ramp`. A one-entry table divides 0 by 0 in the C++. */
  method SawtoothRamp(table: array<real>, size: uint32, isRampUp: bool)
    requires size <= table.Length && size != 1
    modifies table
    ensures table[..] == RampTable(old(table[..]), size, isRampUp)
  {
    ghost var orig := table[..];
    var sign := if isRampUp then -1.0 else 1.0;
    for i := 0 to size
      invariant forall k :: 0 <= k < i ==> table[k] == RampEntry(size, isRampUp, k)
      invariant forall k :: i <= k < table.Length ==> table[k] == orig[k]
    {
      table[i] := sign * (2.0 * (i as real / (size - 1) as real) - 1.0);
    }
  }

  // ---------------------------------------------------------------------------
  // noise and sine

  /** The table after `noise`: `2 * r - 1` for the `k`-th random draw `r`. */
  function NoiseTable(s: seq<real>, size: nat, randoms: seq<real>): (r: seq<real>)
    requires size <= |s| && size <= |randoms|
    ensures |r| == |s|
  {
    seq(|s|, k requires 0 <= k < |s| => if k < size then randoms[k] * 2.0 - 1.0 else s[k])
  }

  /** Draws in [0, 1] give entries in [-1, 1]. */
  lemma NoiseInRange(s: seq<real>, size: nat, randoms: seq<real>)
    requires size <= |s| && size <= |randoms|
    requires forall k :: 0 <= k < size ==> 0.0 <= randoms[k] <= 1.0
    ensures forall k :: 0 <= k < size ==> -1.0 <= NoiseTable(s, size, randoms)[k] <= 1.0
  {
  }

  /** `noise`: `randoms` are the successive values of the library's random
      source, one per entry. */
  method Noise(table: array<real>, size: uint32, randoms: seq<real>)
    requires size <= table.Length && size <= |randoms|
    modifies table
    ensures table[..] == NoiseTable(old(table[..]), size, randoms)
  {
    ghost var orig := table[..];
    for i := 0 to size
      invariant forall k :: 0 <= k < i ==> table[k] == randoms[k] * 2.0 - 1.0
      invariant forall k :: i <= k < table.Length ==> table[k] == orig[k]
    {
      table[i] := randoms[i] * 2.0 - 1.0;
    }
  }

  /** The table after `sine`: `fast_sin(2 pi k / size)`. */
  function SineTable(lib: Lib, s: seq<real>, size: nat): (r: seq<real>)
    requires size <= |s|
    ensures |r| == |s|
  {
    seq(|s|, k requires 0 <= k < |s| =>
      if k < size then lib.fastSin(2.0 * PI * (k as real / size as real)) else s[k])
  }

  method Sine(lib: Lib, table: array<real>, size: uint32)
    requires size <= table.Length
    modifies table
    ensures table[..] == SineTable(lib, old(table[..]), size)
  {
    ghost var orig := table[..];
    for i := 0 to size
      invariant forall k :: 0 <= k < i ==> table[k] == lib.fastSin(2.0 * PI * (k as real / size as real))
      invariant forall k :: i <= k < table.Length ==> table[k] == orig[k]
    {
      table[i] := lib.fastSin(2.0 * PI * (i as real / size as real));
    }
  }

  // ---------------------------------------------------------------------------
  // normalise_table

  /** The running maximum of `normalise_table`: it starts at 0 and takes
      `std::max(entry, max)` over the entries in order. */
  function PeakOf(s: seq<real>): (r: real)
    ensures r >= 0.0
    decreases |s|
  {
    if s == [] then 0.0
    else
      var m := PeakOf(s[..|s| - 1]);
      var x := s[|s| - 1];
      if x < m then m else x
  }

  /** The peak bounds every entry, and a positive peak is one of the entries. */
  lemma {:induction false} PeakOfIsMaximum(s: seq<real>)
    ensures forall k :: 0 <= k < |s| ==> s[k] <= PeakOf(s)
    ensures PeakOf(s) > 0.0 ==> exists k :: 0 <= k < |s| && s[k] == PeakOf(s)
    decreases |s|
  {
    if s != [] {
      var prefix := s[..|s| - 1];
      PeakOfIsMaximum(prefix);
      assert forall k :: 0 <= k < |prefix| ==> prefix[k] == s[k];
      if PeakOf(s) > 0.0 && PeakOf(s) == PeakOf(prefix) {
        var k :| 0 <= k < |prefix| && prefix[k] == PeakOf(prefix);
        assert s[k] == PeakOf(s);
      }
    }
  }

  lemma QuotientAtMostOne(x: real, m: real)
    requires x <= m && m > 0.0
    ensures x / m <= 1.0 && m / m == 1.0
  {
  }

  /** The table after `normalise_table`: with a positive peak over the first
      `size` entries each of them is divided by it; otherwise nothing changes. */
  function NormalisedTable(s: seq<real>, size: nat): (r: seq<real>)
    requires size <= |s|
    ensures |r| == |s|
  {
    var m := PeakOf(s[..size]);
    if m > 0.0 then seq(|s|, k requires 0 <= k < |s| => if k < size then s[k] / m else s[k])
    else s
  }

  /** After normalising a table with a positive peak, no entry exceeds 1 and
      the entry that held the peak is exactly 1; a table whose entries are all
      at most 0 comes back unchanged. */
  lemma NormalisedPeakIsOne(s: seq<real>, size: nat)
    requires size <= |s|
    ensures var t := NormalisedTable(s, size);
            PeakOf(s[..size]) > 0.0 ==>
              (forall k :: 0 <= k < size ==> t[k] <= 1.0)
              && (exists k :: 0 <= k < size && t[k] == 1.0)
    ensures (forall k :: 0 <= k < size ==> s[k] <= 0.0) ==> NormalisedTable(s, size) == s
  {
    var prefix := s[..size];
    var m := PeakOf(prefix);
    PeakOfIsMaximum(prefix);
    var t := NormalisedTable(s, size);
    if m > 0.0 {
      forall k | 0 <= k < size
        ensures t[k] <= 1.0
      {
        assert prefix[k] == s[k];
        QuotientAtMostOne(s[k], m);
      }
      var j :| 0 <= j < size && prefix[j] == m;
      QuotientAtMostOne(s[j], m);
      assert t[j] == 1.0;
      assert s[j] > 0.0;
    }
  }

  method NormaliseTable(table: array<real>, size: uint32)
    requires size <= table.Length
    modifies table
    ensures table[..] == NormalisedTable(old(table[..]), size)
  {
    ghost var orig := table[..];
    var max := 0.0;
    for n := 0 to size
      invariant max == PeakOf(orig[..n])
    {
      assert orig[..n + 1][..n] == orig[..n];
      if table[n] < max {
      } else {
        max := table[n];
      }
    }
    assert orig[..size] == orig[..size];
    if max > 0.0 {
      for n := 0 to size
        invariant forall k :: 0 <= k < n ==> table[k] == orig[k] / max
        invariant forall k :: n <= k < table.Length ==> table[k] == orig[k]
      {
        table[n] := table[n] / max;
      }
    }
  }

  // ---------------------------------------------------------------------------
  // fourier_table and the harmonic fills

  /** Harmonic `i` (counted from 0) at entry `n`:
      `amp * cos((i + 1) * (n * 2 * pi / size) + phase * 2 pi)`, where
      `n * 2` is computed in `uint32_t`. */
  function Partial(lib: Lib, amp: real, i: nat, n: nat, size: nat, phase: real): real
    requires size > 0
  {
    var w := (i + 1) as real * (((2 * n) % 0x1_0000_0000) as real * PI / size as real);
    amp * lib.cos(w + phase * (PI * 2.0))
  }

  /** Entry `n` after the first `h` harmonics have been added to `base`, in
      the order the outer loop adds them. */
  function Accumulated(lib: Lib, base: real, amps: seq<real>, h: nat, n: nat, size: nat, phase: real): real
    requires h <= |amps| && size > 0
    decreases h
  {
    if h == 0 then base
    else Accumulated(lib, base, amps, h - 1, n, size, phase) + Partial(lib, amps[h - 1], h - 1, n, size, phase)
  }

  /** The first `size` entries with `h` harmonics added, before normalising. */
  function FourierSums(lib: Lib, s: seq<real>, size: nat, amps: seq<real>, h: nat, phase: real): (r: seq<real>)
    requires size <= |s| && h <= |amps|
    ensures |r| == |s|
  {
    seq(|s|, k requires 0 <= k < |s| =>
      if k < size then Accumulated(lib, s[k], amps, h, k, size, phase) else s[k])
  }

  /** `fourier_table`: adds `harmonics` cosine partials with amplitudes
      `amps` to the first `size` entries, then normalises the table. */
  method FourierTable(lib: Lib, table: array<real>, size: uint32, harmonics: uint8, amps: seq<real>, phase: real)
    requires size <= table.Length && harmonics <= |amps|
    modifies table
    ensures table[..] == NormalisedTable(FourierSums(lib, old(table[..]), size, amps, harmonics, phase), size)
  {
    ghost var orig := table[..];
    var phase2 := phase * (PI * 2.0);
    for i := 0 to harmonics
      invariant forall k :: 0 <= k < size ==> table[k] == Accumulated(lib, orig[k], amps, i, k, size, phase)
      invariant forall k :: size <= k < table.Length ==> table[k] == orig[k]
    {
      for n := 0 to size
        invariant forall k :: 0 <= k < n ==> table[k] == Accumulated(lib, orig[k], amps, i + 1, k, size, phase)
        invariant forall k :: n <= k < size ==> table[k] == Accumulated(lib, orig[k], amps, i, k, size, phase)
        invariant forall k :: size <= k < table.Length ==> table[k] == orig[k]
      {
        var a := amps[i];
        var w := (i + 1) as real * (((2 * n) % 0x1_0000_0000) as real * PI / size as real);
        var term := a * lib.cos(w + phase2);
        assert term == Partial(lib, amps[i], i, n, size, phase);
        table[n] := table[n] + term;
      }
    }
    assert table[..] == FourierSums(lib, orig, size, amps, harmonics, phase);
    NormaliseTable(table, size);
  }

  /** The table with its first `size` entries cleared, as every harmonic
      fill starts. */
  function ClearedTable(s: seq<real>, size: nat): (r: seq<real>)
    requires size <= |s|
    ensures |r| == |s|
  {
    seq(|s|, k requires 0 <= k < |s| => if k < size then 0.0 else s[k])
  }

  method Clear(table: array<real>, size: uint32)
    requires size <= table.Length
    modifies table
    ensures table[..] == ClearedTable(old(table[..]), size)
  {
    ghost var orig := table[..];
    for i := 0 to size
      invariant forall k :: 0 <= k < i ==> table[k] == 0.0
      invariant forall k :: i <= k < table.Length ==> table[k] == orig[k]
    {
      table[i] := 0.0;
    }
  }

  /** The table a harmonic fill leaves: `amps` over a cleared table,
      normalised. */
  function HarmonicTable(lib: Lib, s: seq<real>, size: nat, amps: seq<real>, phase: real): (r: seq<real>)
    requires size <= |s|
    ensures |r| == |s|
  {
    NormalisedTable(FourierSums(lib, ClearedTable(s, size), size, amps, |amps|, phase), size)
  }

  /** The sawtooth amplitudes `1 / (i + 1)`. */
  function SawtoothAmps(harmonics: nat): (r: seq<real>)
    ensures |r| == harmonics
  {
    seq(harmonics, i requires 0 <= i < harmonics => 1.0 / (i + 1) as real)
  }

  /** The square (`squared == false`, `1 / (i + 1)`) and triangle
      (`squared == true`, `1 / (i + 1)^2`) amplitudes: only even `i` are
      written; an odd slot of the C++ array is never initialised, and
      `unset` stands for whatever it holds. */
  function OddHarmonicAmps(harmonics: nat, unset: seq<real>, squared: bool): (r: seq<real>)
    requires harmonics <= |unset|
    ensures |r| == harmonics
  {
    seq(harmonics, i requires 0 <= i < harmonics =>
      if i % 2 == 0 then 1.0 / (if squared then (i + 1) * (i + 1) else i + 1) as real else unset[i])
  }

  /** `sawtooth(table, size, harmonics)`. */
  method SawtoothHarmonics(lib: Lib, table: array<real>, size: uint32, harmonics: uint8)
    requires size <= table.Length
    modifies table
    ensures table[..] == HarmonicTable(lib, old(table[..]), size, SawtoothAmps(harmonics), -0.25)
  {
    Clear(table, size);
    var amps: seq<real> := [];
    for i := 0 to harmonics
      invariant amps == SawtoothAmps(i)
    {
      amps := amps + [1.0 / (i + 1) as real];
    }
    FourierTable(lib, table, size, harmonics, amps, -0.25);
  }

  /** The amplitude loop of the square and triangle fills, `i += 2` on a
      `uint8_t`: for 255 harmonics `i` wraps from 254 to 0 and the loop never
      ends, so the count is at most 254. */
  method OddHarmonics(harmonics: uint8, unset: seq<real>, squared: bool) returns (amps: seq<real>)
    requires harmonics <= 254 && harmonics <= |unset|
    ensures amps == OddHarmonicAmps(harmonics, unset, squared)
  {
    amps := unset[..harmonics];
    var i := 0;
    while i < harmonics
      invariant 0 <= i <= harmonics + 1 && i % 2 == 0 && |amps| == harmonics
      invariant forall k :: 0 <= k < harmonics ==>
                  amps[k] == if k % 2 == 0 && k < i then OddHarmonicAmps(harmonics, unset, squared)[k] else unset[k]
      decreases harmonics - i
    {
      amps := amps[i := 1.0 / (if squared then (i + 1) * (i + 1) else i + 1) as real];
      i := i + 2;
    }
  }

  /** `square(table, size, harmonics)`. */
  method SquareHarmonics(lib: Lib, table: array<real>, size: uint32, harmonics: uint8, unset: seq<real>)
    requires size <= table.Length && harmonics <= 254 && harmonics <= |unset|
    modifies table
    ensures table[..] == HarmonicTable(lib, old(table[..]), size, OddHarmonicAmps(harmonics, unset, false), -0.25)
  {
    Clear(table, size);
    var amps := OddHarmonics(harmonics, unset, false);
    FourierTable(lib, table, size, harmonics, amps, -0.25);
  }

  /** `triangle(table, size, harmonics)`. */
  method TriangleHarmonics(lib: Lib, table: array<real>, size: uint32, harmonics: uint8, unset: seq<real>)
    requires size <= table.Length && harmonics <= 254 && harmonics <= |unset|
    modifies table
    ensures table[..] == HarmonicTable(lib, old(table[..]), size, OddHarmonicAmps(harmonics, unset, true), 0.0)
  {
    Clear(table, size);
    var amps := OddHarmonics(harmonics, unset, true);
    FourierTable(lib, table, size, harmonics, amps, 0.0);
  }

  // ---------------------------------------------------------------------------
  // sawtooth(table, size) and the two `fill` dispatchers

  /** `sawtooth(table, size)` as written: the call `sawtooth(table, size, true)`
      resolves to the harmonic overload with `harmonics == (uint8_t) true == 1`,
      so the table receives a single normalised partial, a sine. */
  method SawtoothAsWritten(lib: Lib, table: array<real>, size: uint32)
    requires size <= table.Length
    modifies table
    ensures table[..] == HarmonicTable(lib, old(table[..]), size, SawtoothAmps(1), -0.25)
  {
    SawtoothHarmonics(lib, table, size, 1);
  }

  /** For a two-entry table the as-written fill gives `[0, 0]` wherever cosine
      vanishes at a quarter turn either way, while the ramp that
      `sawtooth_ramp(table, size, true)` writes is `[1, -1]`. */
  lemma SawtoothAsWrittenIsNotARamp(lib: Lib, s: seq<real>)
    requires |s| >= 2
    requires lib.cos(PI / 2.0) == 0.0 && lib.cos(-PI / 2.0) == 0.0
    ensures HarmonicTable(lib, s, 2, SawtoothAmps(1), -0.25)[..2] == [0.0, 0.0]
    ensures RampTable(s, 2, true)[..2] == [1.0, -1.0]
  {
    var amps := SawtoothAmps(1);
    assert amps[0] == 1.0;
    var phase2 := -0.25 * (PI * 2.0);
    assert phase2 == -PI / 2.0;
    assert (2 * 0) % 0x1_0000_0000 == 0 && (2 * 1) % 0x1_0000_0000 == 2;
    assert (0 + 1) as real * (((2 * 0) % 0x1_0000_0000) as real * PI / 2 as real) + phase2 == -PI / 2.0;
    assert (0 + 1) as real * (((2 * 1) % 0x1_0000_0000) as real * PI / 2 as real) + phase2 == PI / 2.0;
    var cleared := ClearedTable(s, 2);
    assert Partial(lib, 1.0, 0, 0, 2, -0.25) == 0.0;
    assert Partial(lib, 1.0, 0, 1, 2, -0.25) == 0.0;
    var sums := FourierSums(lib, cleared, 2, amps, 1, -0.25);
    assert sums[0] == 0.0 && sums[1] == 0.0;
    assert sums[..2] == [0.0, 0.0];
    assert PeakOf([0.0]) == 0.0;
    assert PeakOf(sums[..2]) == 0.0 by {
      assert sums[..2][..1] == [0.0];
    }
    RampShape(2, true, 0);
  }

  /** `sawtooth(table, size)` as evidently intended: the falling ramp that
      `sawtooth_ramp(table, size, true)` writes, from 1 down to -1. */
  method Sawtooth(table: array<real>, size: uint32)
    requires size <= table.Length && size != 1
    modifies table
    ensures table[..] == RampTable(old(table[..]), size, true)
  {
    SawtoothRamp(table, size, true);
  }

  /** The table after `fill(table, size, waveform)` as evidently intended:
      the corrected triangle and the ramp sawtooth of `Triangle` and
      `Sawtooth`. An unknown waveform falls back to the sine. */
  function CorrectedFilledTable(lib: Lib, s: seq<real>, size: nat, waveform: uint8, randoms: seq<real>): (r: seq<real>)
    requires size <= |s|
    requires waveform == WAVEFORM_SAWTOOTH ==> size != 1
    requires waveform == WAVEFORM_NOISE ==> size <= |randoms|
    ensures |r| == |s|
  {
    if waveform == WAVEFORM_TRIANGLE then TriangleTable(s, size, false)
    else if waveform == WAVEFORM_SAWTOOTH then RampTable(s, size, true)
    else if waveform == WAVEFORM_SQUARE then SquareTable(s, size)
    else if waveform == WAVEFORM_NOISE then NoiseTable(s, size, randoms)
    else SineTable(lib, s, size)
  }

  /** How many leading entries `fill` writes: the triangle and the square
      leave the last `size % 4` and `size % 2` entries alone. */
  function FilledCount(size: nat, waveform: uint8): (r: nat)
    ensures r <= size
  {
    if waveform == WAVEFORM_TRIANGLE then 4 * (size / 4)
    else if waveform == WAVEFORM_SQUARE then 2 * (size / 2)
    else size
  }

  /** Every entry the corrected `fill` writes lies within the signal range
      [-1, 1] (given a bounded `fast_sin` and noise draws in [0, 1]), and
      every other entry keeps its value. */
  lemma CorrectedFilledTableInRange(lib: Lib, s: seq<real>, size: nat, waveform: uint8, randoms: seq<real>)
    requires size <= |s|
    requires waveform == WAVEFORM_SAWTOOTH ==> size != 1
    requires waveform == WAVEFORM_NOISE ==> size <= |randoms|
    requires FastSinBounded(lib)
    requires forall k :: 0 <= k < |randoms| ==> 0.0 <= randoms[k] <= 1.0
    ensures var t := CorrectedFilledTable(lib, s, size, waveform, randoms);
            forall k :: 0 <= k < FilledCount(size, waveform) ==> SIGNAL_MIN <= t[k] <= SIGNAL_MAX
    ensures var t := CorrectedFilledTable(lib, s, size, waveform, randoms);
            forall k :: FilledCount(size, waveform) <= k < |s| ==> t[k] == s[k]
  {
    var t := CorrectedFilledTable(lib, s, size, waveform, randoms);
    if waveform == WAVEFORM_TRIANGLE {
      forall k | 0 <= k < 4 * (size / 4)
        ensures SIGNAL_MIN <= t[k] <= SIGNAL_MAX
      {
        TriangleEntryInRange(size, k);
      }
    } else if waveform == WAVEFORM_SAWTOOTH {
      forall k | 0 <= k < size
        ensures SIGNAL_MIN <= t[k] <= SIGNAL_MAX
      {
        RampShape(size, true, k);
        assert t[k] == RampEntry(size, true, k);
      }
    } else if waveform != WAVEFORM_SQUARE && waveform != WAVEFORM_NOISE {
      forall k | 0 <= k < size
        ensures SIGNAL_MIN <= t[k] <= SIGNAL_MAX
      {
        var x := 2.0 * PI * (k as real / size as real);
        assert t[k] == lib.fastSin(x);
      }
    }
  }

  /** `fill(table, size, waveform)` with the triangle and the sawtooth as
      evidently intended. */
  method CorrectedFill(lib: Lib, table: array<real>, size: uint32, waveform: uint8, randoms: seq<real>)
    requires size <= table.Length
    requires waveform == WAVEFORM_SAWTOOTH ==> size != 1
    requires waveform == WAVEFORM_NOISE ==> size <= |randoms|
    modifies table
    ensures table[..] == CorrectedFilledTable(lib, old(table[..]), size, waveform, randoms)
  {
    if waveform == WAVEFORM_SINE {
      Sine(lib, table, size);
    } else if waveform == WAVEFORM_TRIANGLE {
      Triangle(table, size);
    } else if waveform == WAVEFORM_SAWTOOTH {
      Sawtooth(table, size);
    } else if waveform == WAVEFORM_SQUARE {
      Square(table, size);
    } else if waveform == WAVEFORM_NOISE {
      Noise(table, size, randoms);
    } else {
      Sine(lib, table, size);
    }
  }

  /** The table after `fill(table, size, waveform)` as written: the triangle
      with its unsigned negation, and for the sawtooth the one-harmonic
      Fourier table that `sawtooth(table, size)` resolves to. An unknown
      waveform falls back to the sine. */
  function FilledTableAsWritten(lib: Lib, s: seq<real>, size: nat, waveform: uint8, randoms: seq<real>): (r: seq<real>)
    requires size <= |s|
    requires waveform == WAVEFORM_NOISE ==> size <= |randoms|
    ensures |r| == |s|
  {
    if waveform == WAVEFORM_TRIANGLE then TriangleTable(s, size, true)
    else if waveform == WAVEFORM_SAWTOOTH then HarmonicTable(lib, s, size, SawtoothAmps(1), -0.25)
    else if waveform == WAVEFORM_SQUARE then SquareTable(s, size)
    else if waveform == WAVEFORM_NOISE then NoiseTable(s, size, randoms)
    else SineTable(lib, s, size)
  }

  /** Every entry in the inside of the third quarter of the triangle as
      written exceeds the signal range: `-i` on a `uint32_t` is `2^32 - i`,
      at least three times the quarter length. */
  lemma TriangleAsWrittenLeavesRange(size: nat, k: nat)
    requires size < 0x1_0000_0000
    requires 2 * (size / 4) < k < 3 * (size / 4)
    ensures TriangleEntry(size, k, true) > SIGNAL_MAX
  {
    var q := size / 4;
    var qf := size as real * 0.25;
    var j := k - 2 * q;
    assert 0 < j < q;
    var n := UnsignedNegate(j);
    assert n as real >= 0x1_0000_0000 as real - qf;
    assert qf < 0x4000_0000 as real;
    assert n as real > qf;
    assert TriangleEntry(size, k, true) == n as real / qf;
  }

  /** The as-written `fill` against the corrected one: the sine, square,
      noise and unknown waveforms agree; the triangles agree except inside
      the third quarter, where every entry the C++ writes exceeds 1; and the
      one-harmonic sawtooth never exceeds 1 after normalisation. */
  lemma FilledTableAsWrittenVersusCorrected(lib: Lib, s: seq<real>, size: nat, waveform: uint8, randoms: seq<real>)
    requires size <= |s| && size < 0x1_0000_0000
    requires waveform == WAVEFORM_SAWTOOTH ==> size != 1
    requires waveform == WAVEFORM_NOISE ==> size <= |randoms|
    ensures waveform != WAVEFORM_TRIANGLE && waveform != WAVEFORM_SAWTOOTH ==>
              FilledTableAsWritten(lib, s, size, waveform, randoms) == CorrectedFilledTable(lib, s, size, waveform, randoms)
    ensures var t := FilledTableAsWritten(lib, s, size, waveform, randoms);
            var c := CorrectedFilledTable(lib, s, size, waveform, randoms);
            var q := size / 4;
            waveform == WAVEFORM_TRIANGLE ==>
              (forall k :: 0 <= k < |s| && !(2 * q < k < 3 * q) ==> t[k] == c[k])
              && (forall k :: 2 * q < k < 3 * q ==> t[k] > SIGNAL_MAX)
    ensures var t := FilledTableAsWritten(lib, s, size, waveform, randoms);
            waveform == WAVEFORM_SAWTOOTH ==> forall k :: 0 <= k < size ==> t[k] <= SIGNAL_MAX
  {
    var t := FilledTableAsWritten(lib, s, size, waveform, randoms);
    var q := size / 4;
    if waveform == WAVEFORM_TRIANGLE {
      forall k | 2 * q < k < 3 * q
        ensures t[k] > SIGNAL_MAX
      {
        TriangleAsWrittenLeavesRange(size, k);
      }
    } else if waveform == WAVEFORM_SAWTOOTH {
      var sums := FourierSums(lib, ClearedTable(s, size), size, SawtoothAmps(1), 1, -0.25);
      NormalisedPeakIsOne(sums, size);
      PeakOfIsMaximum(sums[..size]);
      forall k | 0 <= k < size
        ensures t[k] <= SIGNAL_MAX
      {
        assert sums[..size][k] == sums[k];
      }
    }
  }

  /** `fill(table, size, waveform)` as written. */
  method FillAsWritten(lib: Lib, table: array<real>, size: uint32, waveform: uint8, randoms: seq<real>)
    requires size <= table.Length
    requires waveform == WAVEFORM_NOISE ==> size <= |randoms|
    modifies table
    ensures table[..] == FilledTableAsWritten(lib, old(table[..]), size, waveform, randoms)
  {
    if waveform == WAVEFORM_SINE {
      Sine(lib, table, size);
    } else if waveform == WAVEFORM_TRIANGLE {
      TriangleAsWritten(table, size);
    } else if waveform == WAVEFORM_SAWTOOTH {
      SawtoothAsWritten(lib, table, size);
    } else if waveform == WAVEFORM_SQUARE {
      Square(table, size);
    } else if waveform == WAVEFORM_NOISE {
      Noise(table, size, randoms);
    } else {
      Sine(lib, table, size);
    }
  }

  /** `fill(table, size, harmonics, waveform)`: the harmonic triangle, sawtooth
      and square, and the sine for every other waveform. */
  method FillHarmonics(lib: Lib, table: array<real>, size: uint32, harmonics: uint8, waveform: uint8, unset: seq<real>)
    requires size <= table.Length
    requires waveform == WAVEFORM_TRIANGLE || waveform == WAVEFORM_SQUARE ==> harmonics <= 254 && harmonics <= |unset|
    modifies table
    ensures waveform == WAVEFORM_TRIANGLE ==>
              table[..] == HarmonicTable(lib, old(table[..]), size, OddHarmonicAmps(harmonics, unset, true), 0.0)
    ensures waveform == WAVEFORM_SAWTOOTH ==>
              table[..] == HarmonicTable(lib, old(table[..]), size, SawtoothAmps(harmonics), -0.25)
    ensures waveform == WAVEFORM_SQUARE ==>
              table[..] == HarmonicTable(lib, old(table[..]), size, OddHarmonicAmps(harmonics, unset, false), -0.25)
    ensures waveform != WAVEFORM_TRIANGLE && waveform != WAVEFORM_SAWTOOTH && waveform != WAVEFORM_SQUARE ==>
              table[..] == SineTable(lib, old(table[..]), size)
  {
    if waveform == WAVEFORM_TRIANGLE {
      TriangleHarmonics(lib, table, size, harmonics, unset);
    } else if waveform == WAVEFORM_SAWTOOTH {
      SawtoothHarmonics(lib, table, size, harmonics);
    } else if waveform == WAVEFORM_SQUARE {
      SquareHarmonics(lib, table, size, harmonics, unset);
    } else {
      Sine(lib, table, size);
    }
  }
}
