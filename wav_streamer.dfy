/**
 * The streamed-buffer bookkeeping of `WAVStreamer`: a ring buffer of samples,
 * split into `division` equal sections, played back by a fractional cursor.
 * Whenever the cursor crosses the start of a section, the section before it
 * (already played) is refilled with the next block from the file; the index
 * of that section is computed in 8 bits, which is exact for at most 64
 * sections and can come out negative beyond that. The file is
 * an abstract block source: every block the streamer asks for is a parameter.
 */
module WavStreamer {
  import opened Numerics
  import opened Smoothing

  /** `NO_EVENT`: no section border was crossed. */
  const NO_EVENT: int := -1

  // ---------------------------------------------------------------------------
  // wrapIndex

  /** `wrapIndex(i)`: one correction by the buffer length, upwards for a
      negative index and downwards for one past the end. */
  function WrapIndex(i: int, length: nat): (r: int)
    ensures -(length as int) <= i < 2 * length ==> 0 <= r < length && (r - i) % length == 0
    ensures 0 <= i < length ==> r == i
  {
    if i < 0 then i + length else if i >= length then i - length else i
  }

  // ---------------------------------------------------------------------------
  // crossedBorder

  /** `crossedBorder(prev, current, border)`. */
  predicate CrossedBorder(prev: real, current: real, border: real)
  {
    (border == 0.0 && prev > current)
    || (prev < border && current >= border)
    || (prev > current && current >= border)
  }

  /** What the test means, case by case: moving forward (`prev <= current`) a
      border is crossed when it lies in (prev, current]; after the cursor has
      wrapped round (`prev > current`) it is crossed when it is the start of
      the buffer or lies at or below the new position. */
  lemma CrossedBorderCases(prev: real, current: real, border: real)
    ensures prev <= current ==> (CrossedBorder(prev, current, border) <==> prev < border <= current)
    ensures prev > current ==> (CrossedBorder(prev, current, border) <==> border == 0.0 || border <= current)
  {
  }

  // ---------------------------------------------------------------------------
  // checkCompleteEvent

  /** The start of section `i`: `length * i / (float) division`, where the
      product is taken in unsigned 32-bit arithmetic. */
  function Border(length: uint32, i: nat, division: uint8): real
    requires division > 0
  {
    ((length * i) % 0x1_0000_0000) as real / division as real
  }

  /** When the buffer splits evenly and the product does not wrap, the border
      of section `i` is exactly where `replace_buffer` starts that section. */
  lemma BorderIsSectionStart(length: uint32, i: nat, division: uint8)
    requires division > 0 && length % division == 0
    requires i < division && length * division < 0x1_0000_0000
    ensures Border(length, i, division) == (i * (length / division)) as real
  {
    var q := length / division;
    var m := length * i;
    var k := i * q;
    assert length == q * division;
    assert m <= length * division by {
      MulMonotone(length, i, division);
    }
    ModSmall(m, 0x1_0000_0000);
    assert m == k * division by {
      assert length * i == (q * division) * i;
      assert (q * division) * i == (i * q) * division;
    }
    assert (m as real) == (k as real) * (division as real);
  }

  lemma MulMonotone(a: nat, b: nat, c: nat)
    requires b <= c
    ensures a * b <= a * c
  {
  }

  /** The first section `j >= i` (below `division`) whose border lies between
      `prev` and `current`, or `NO_EVENT`. */
  function FirstCrossedFrom(length: uint32, division: uint8, prev: real, current: real, i: nat): (r: int)
    ensures r == NO_EVENT || i <= r < division
    ensures r == NO_EVENT ==>
              forall j :: i <= j < division ==> !CrossedBorder(prev, current, Border(length, j, division))
    ensures r != NO_EVENT ==>
              CrossedBorder(prev, current, Border(length, r, division))
              && forall j :: i <= j < r ==> !CrossedBorder(prev, current, Border(length, j, division))
    decreases division - i
  {
    if i >= division then NO_EVENT
    else if CrossedBorder(prev, current, Border(length, i, division)) then i
    else FirstCrossedFrom(length, division, prev, current, i + 1)
  }

  /** `checkCompleteEvent(division)`: the first crossed section, returned as
      an `int8_t`. */
  function CompleteEvent(length: uint32, division: uint8, prev: real, current: real): (r: int)
    ensures -128 <= r < 128
    ensures r >= 0 ==> r < division && CrossedBorder(prev, current, Border(length, r, division))
                       && forall j :: 0 <= j < r ==> !CrossedBorder(prev, current, Border(length, j, division))
    ensures division <= 128 ==>
              (r == NO_EVENT <==> forall j :: 0 <= j < division ==> !CrossedBorder(prev, current, Border(length, j, division)))
    ensures division <= 128 && r != NO_EVENT ==> 0 <= r
  {
    var i := FirstCrossedFrom(length, division, prev, current, 0);
    if i == NO_EVENT then NO_EVENT else ToInt8(i)
  }

  // ---------------------------------------------------------------------------
  // The section reloaded after an event

  /** The reload section as `process()` computes it: `e -= 1; e += division;
      e %= division;` on an `int8_t`, each result stored back into 8 bits. */
  function ReloadSectionAsWritten(e: int, division: uint8): int
    requires division > 0
  {
    var a := ToInt8(e - 1);
    var b := ToInt8(a + division);
    ToInt8(CRem(b, division))
  }

  /** The section before the one just entered, wrapping from 0 to the last:
      `(e - 1 + division) mod division` for an event `e` in [0, division). */
  function ReloadSection(e: int, division: uint8): (r: int)
    requires 0 <= e < division
    ensures 0 <= r < division
    ensures (r + 1) % division == e
  {
    if e == 0 then
      ModWrapOnce(division, division);
      division - 1
    else
      ModSmall(e, division);
      e - 1
  }

  /** For at most 64 sections the 8-bit arithmetic never overflows, and the
      section computed is the intended one. */
  lemma ReloadSectionAsWrittenAgrees(e: int, division: uint8)
    requires 0 < division <= 64 && 0 <= e < division
    ensures ReloadSectionAsWritten(e, division) == ReloadSection(e, division)
  {
    var a := ToInt8(e - 1);
    assert a == e - 1;
    var b := ToInt8(a + division);
    assert b == e - 1 + division;
    if e == 0 {
      ModSmall(b, division);
    } else {
      ModWrapOnce(b, division);
    }
    assert CRem(b, division) == b % division;
  }

  // ---------------------------------------------------------------------------
  // replace_buffer

  /** Which branch of `replace_buffer` is taken: one of the three rejections
      (each reported on the error stream) or the copy. */
  datatype ReplaceOutcome = InvalidSection | SizeMismatch | OutOfBounds | Copied

  function ReplaceOutcomeOf(targetSize: nat, sourceSize: nat, sectionIndex: int, totalSections: int): ReplaceOutcome
  {
    if sectionIndex < 0 || sectionIndex > totalSections - 1 then InvalidSection
    else if sourceSize != targetSize / totalSections then SizeMismatch
    else if sectionIndex * (targetSize / totalSections) + targetSize / totalSections > targetSize then OutOfBounds
    else Copied
  }

  /** The copy happens exactly when the section exists and the block has the
      section's size; the bounds check can never reject, since section
      `idx < total` of size `targetSize / total` ends at or before
      `targetSize`. */
  lemma ReplaceOutcomeCases(targetSize: nat, sourceSize: nat, sectionIndex: int, totalSections: int)
    ensures ReplaceOutcomeOf(targetSize, sourceSize, sectionIndex, totalSections) != OutOfBounds
    ensures ReplaceOutcomeOf(targetSize, sourceSize, sectionIndex, totalSections) == Copied
            <==> 0 <= sectionIndex < totalSections && sourceSize == targetSize / totalSections
  {
    if 0 <= sectionIndex < totalSections {
      var size := targetSize / totalSections;
      assert size * totalSections <= targetSize;
      assert (sectionIndex + 1) * size <= totalSections * size by {
        assert sectionIndex + 1 <= totalSections;
      }
      assert sectionIndex * size + size == (sectionIndex + 1) * size;
    }
  }

  /** The target after `replace_buffer`. */
  function ReplacedBuffer(target: seq<real>, targetSize: nat, source: seq<real>,
                          sectionIndex: int, totalSections: int): seq<real>
    requires targetSize <= |target|
  {
    if ReplaceOutcomeOf(targetSize, |source|, sectionIndex, totalSections) == Copied then
      var start := sectionIndex * (targetSize / totalSections);
      target[..start] + source + target[start + |source|..]
    else target
  }

  /** A rejected replacement leaves the target as it was; an accepted one puts
      the block at `idx * (targetSize / total)` and changes nothing else. */
  lemma ReplacedBufferFrame(target: seq<real>, targetSize: nat, source: seq<real>,
                            sectionIndex: int, totalSections: int)
    requires targetSize <= |target|
    ensures |ReplacedBuffer(target, targetSize, source, sectionIndex, totalSections)| == |target|
    ensures ReplaceOutcomeOf(targetSize, |source|, sectionIndex, totalSections) != Copied ==>
              ReplacedBuffer(target, targetSize, source, sectionIndex, totalSections) == target
    ensures ReplaceOutcomeOf(targetSize, |source|, sectionIndex, totalSections) == Copied ==>
              var start := sectionIndex * (targetSize / totalSections);
              var r := ReplacedBuffer(target, targetSize, source, sectionIndex, totalSections);
              (forall k :: 0 <= k < |source| ==> r[start + k] == source[k])
              && (forall k :: 0 <= k < |target| && !(start <= k < start + |source|) ==> r[k] == target[k])
  {
  }

  /** `replace_buffer(target, targetSize, source, idx, total)`: the guarded
      copy of one block into its section of the target array. */
  method ReplaceBuffer(target: array<real>, targetSize: nat, source: seq<real>,
                       sectionIndex: int, totalSections: int) returns (outcome: ReplaceOutcome)
    requires targetSize <= target.Length
    modifies target
    ensures outcome == ReplaceOutcomeOf(targetSize, |source|, sectionIndex, totalSections)
    ensures target[..] == ReplacedBuffer(old(target[..]), targetSize, source, sectionIndex, totalSections)
  {
    if sectionIndex < 0 || sectionIndex > totalSections - 1 {
      return InvalidSection;
    }
    var sectionSize := targetSize / totalSections;
    var startIndex := sectionIndex * sectionSize;
    if |source| != sectionSize {
      return SizeMismatch;
    }
    if startIndex + sectionSize > targetSize {
      return OutOfBounds;
    }
    ghost var before := target[..];
    for k := 0 to |source|
      invariant forall m :: 0 <= m < k ==> target[startIndex + m] == source[m]
      invariant forall m :: 0 <= m < target.Length && !(startIndex <= m < startIndex + k) ==> target[m] == before[m]
    {
      target[startIndex + k] := source[k];
    }
    assert target[..] == before[..startIndex] + source + before[startIndex + |source|..];
    return Copied;
  }

  // ---------------------------------------------------------------------------
  // process()

  /** The fields `process()` reads but does not change. */
  datatype Playback = Playback(length: uint32, division: uint8, amplitude: real, speed: real, interpolate: bool)

  /** The fields `process()` changes: the cursor, the previous cursor and the
      last section event. */
  datatype Cursor = Cursor(index: real, prev: real, sector: int)

  /** The cursor and the buffer contents together. */
  datatype Stream = Stream(cursor: Cursor, buffer: seq<real>)

  datatype Streamed = Streamed(next: Stream, output: real)

  /** Both buffer reads of the next `process()` are in bounds exactly when the
      truncated new position lies in [-length, 2 * length). */
  predicate ReadsInBounds(length: nat, index: real, speed: real)
  {
    -(length as int) <= Trunc(index + speed) < 2 * length
  }

  /** `mSample * (1 - mFrac) + mNextSample * mFrac`. */
  function Blend(a: real, b: real, frac: real): real
  {
    a * (1.0 - frac) + b * frac
  }

  /** A blend weight in [0, 1] keeps the sample between its two neighbours. */
  lemma BlendBetween(a: real, b: real, frac: real)
    requires 0.0 <= frac <= 1.0
    ensures Blend(a, b, 0.0) == a
    ensures a <= b ==> a <= Blend(a, b, frac) <= b
    ensures b <= a ==> b <= Blend(a, b, frac) <= a
  {
    var d := b - a;
    var p := frac * d;
    if d >= 0.0 {
      ScaleNonNegative(frac, d, p);
    } else {
      var q := frac * -d;
      ScaleNonNegative(frac, -d, q);
      assert p == -q;
    }
    assert Blend(a, b, frac) == a + p;
  }

  function Gain(x: real, amplitude: real): real
  {
    x * amplitude
  }

  /** The position after one step: the truncated position wrapped once, plus
      the fractional part. */
  function AdvancedIndex(length: nat, index: real, speed: real): real
  {
    var x := index + speed;
    var rounded := Trunc(x);
    WrapIndex(rounded, length) as real + (x - rounded as real)
  }

  /** The output of one `process()`: the sample at the wrapped position,
      blended with its successor when interpolating, times the amplitude. */
  function StreamSample(p: Playback, buffer: seq<real>, index: real): real
    requires |buffer| == p.length && ReadsInBounds(p.length, index, p.speed)
  {
    var x := index + p.speed;
    var rounded := Trunc(x);
    var current := WrapIndex(rounded, p.length);
    var sample := buffer[current];
    var mixed := if p.interpolate then Blend(sample, buffer[WrapIndex(current + 1, p.length)], x - rounded as real)
                 else sample;
    Gain(mixed, p.amplitude)
  }

  /** The state after one `process()`: the cursor advanced, and on a section
      event the event recorded and the section `ReloadSectionAsWritten`
      names refilled with `block` (left as it was when that index is
      rejected). */
  function NextStream(p: Playback, s: Stream, block: seq<real>): Stream
    requires |s.buffer| == p.length && ReadsInBounds(p.length, s.cursor.index, p.speed)
  {
    var index := AdvancedIndex(p.length, s.cursor.index, p.speed);
    var e := CompleteEvent(p.length, p.division, s.cursor.prev, index);
    if e > NO_EVENT then
      Stream(Cursor(index, index, e),
             ReplacedBuffer(s.buffer, p.length, block, ReloadSectionAsWritten(e, p.division), p.division))
    else
      Stream(Cursor(index, index, s.cursor.sector), s.buffer)
  }

  /** With at most 64 sections, every event refills exactly the section
      before the one just entered, and no other entry of the buffer. */
  lemma NextStreamRefillsPrevious(p: Playback, s: Stream, block: seq<real>)
    requires |s.buffer| == p.length && ReadsInBounds(p.length, s.cursor.index, p.speed)
    requires p.division <= 64
    ensures var e := CompleteEvent(p.length, p.division, s.cursor.prev, AdvancedIndex(p.length, s.cursor.index, p.speed));
            e > NO_EVENT ==>
              NextStream(p, s, block).buffer
                == ReplacedBuffer(s.buffer, p.length, block, ReloadSection(e, p.division), p.division)
  {
    var e := CompleteEvent(p.length, p.division, s.cursor.prev, AdvancedIndex(p.length, s.cursor.index, p.speed));
    if e > NO_EVENT {
      ReloadSectionAsWrittenAgrees(e, p.division);
    }
  }

  /** One `process()`: the new state and the sample it returns. */
  function StreamStep(p: Playback, s: Stream, block: seq<real>): Streamed
    requires |s.buffer| == p.length && ReadsInBounds(p.length, s.cursor.index, p.speed)
  {
    Streamed(NextStream(p, s, block), StreamSample(p, s.buffer, s.cursor.index))
  }

  /** Forward playback: a non-empty buffer, a speed in [0, length) and the
      cursor in [0, length). */
  predicate Forward(p: Playback, c: Cursor)
  {
    p.length > 0 && 0.0 <= p.speed < p.length as real && 0.0 <= c.index < p.length as real
  }

  /** Forward playback reads in bounds, keeps the cursor in [0, length), leaves
      the previous cursor equal to the new one and keeps the buffer's size. */
  lemma StreamStepForward(p: Playback, s: Stream, block: seq<real>)
    requires Forward(p, s.cursor) && |s.buffer| == p.length
    ensures ReadsInBounds(p.length, s.cursor.index, p.speed)
    ensures Forward(p, StreamStep(p, s, block).next.cursor)
    ensures StreamStep(p, s, block).next.cursor.prev == StreamStep(p, s, block).next.cursor.index
    ensures |StreamStep(p, s, block).next.buffer| == p.length
  {
    var x := s.cursor.index + p.speed;
    var rounded := Trunc(x);
    assert 0 <= rounded < 2 * p.length;
    var current := WrapIndex(rounded, p.length);
    assert 0 <= current < p.length;
    assert AdvancedIndex(p.length, s.cursor.index, p.speed) == current as real + (x - rounded as real);
    var e := CompleteEvent(p.length, p.division, s.cursor.prev, AdvancedIndex(p.length, s.cursor.index, p.speed));
    if e > NO_EVENT {
      ReplacedBufferFrame(s.buffer, p.length, block, ReloadSectionAsWritten(e, p.division), p.division);
    }
  }

  /** The stream after one `process()` per block, in order. */
  function StreamRun(p: Playback, s: Stream, blocks: seq<seq<real>>): (r: Stream)
    requires Forward(p, s.cursor) && |s.buffer| == p.length
    ensures Forward(p, r.cursor) && |r.buffer| == p.length
    ensures ReadsInBounds(p.length, r.cursor.index, p.speed)
    decreases |blocks|
  {
    if blocks == [] then
      StreamStepForward(p, s, []);
      s
    else
      var before := StreamRun(p, s, blocks[..|blocks| - 1]);
      StreamStepForward(p, before, blocks[|blocks| - 1]);
      var after := StreamStep(p, before, blocks[|blocks| - 1]).next;
      StreamStepForward(p, after, []);
      after
  }

  /** The outputs of one `process()` per block, in order. */
  function StreamOutputs(p: Playback, s: Stream, blocks: seq<seq<real>>): (r: seq<real>)
    requires Forward(p, s.cursor) && |s.buffer| == p.length
    ensures |r| == |blocks|
    decreases |blocks|
  {
    if blocks == [] then []
    else
      var n := |blocks| - 1;
      StreamOutputs(p, s, blocks[..n]) + [StreamStep(p, StreamRun(p, s, blocks[..n]), blocks[n]).output]
  }

  /** One more block extends the run and appends its output. */
  lemma StreamRunSnoc(p: Playback, s: Stream, blocks: seq<seq<real>>, i: nat, before: Stream, after: Streamed)
    requires Forward(p, s.cursor) && |s.buffer| == p.length && i < |blocks|
    requires before == StreamRun(p, s, blocks[..i])
    requires after == StreamStep(p, before, blocks[i])
    ensures StreamRun(p, s, blocks[..i + 1]) == after.next
    ensures StreamOutputs(p, s, blocks[..i + 1]) == StreamOutputs(p, s, blocks[..i]) + [after.output]
  {
    assert blocks[..i + 1][..i] == blocks[..i];
  }

  // ---------------------------------------------------------------------------
  // The streamer

  /** `WAVStreamer`. The file is not part of this model: the constructor takes
      the first block it would read, and every `process()` takes the block it
      would read if a section event occurs. */
  class WAVStreamer {
    const fBufferLength: uint32
    const fBuffer: array<real>
    const fBufferDivision: uint8
    const fSamplingRate: uint32
    var fAmplitude: real
    var fStepSize: real
    var fInterpolateSamples: bool
    var fBufferIndex: real
    var fBufferIndexPrev: real
    var fCompleteEvent: int

    ghost predicate Valid()
      reads this
    {
      fBuffer.Length == fBufferLength
    }

    function Cfg(): Playback
      reads this
    {
      Playback(fBufferLength, fBufferDivision, fAmplitude, fStepSize, fInterpolateSamples)
    }

    function Pos(): Cursor
      reads this
    {
      Cursor(fBufferIndex, fBufferIndexPrev, fCompleteEvent)
    }

    function Snapshot(): Stream
      reads this, fBuffer
    {
      Stream(Pos(), fBuffer[..])
    }

    /** The buffer holds the first block, then zeros; unit amplitude and
        speed, interpolation on, the cursor at 0 and no event yet. */
    constructor(streamBufferSize: uint32, streamBufferDivision: uint8, samplingRate: uint32, firstBlock: seq<real>)
      requires |firstBlock| <= streamBufferSize
      ensures Valid() && fresh(fBuffer)
      ensures fBuffer[..] == firstBlock + seq(streamBufferSize - |firstBlock|, _ => 0.0)
      ensures Cfg() == Playback(streamBufferSize, streamBufferDivision, 1.0, 1.0, true)
      ensures Pos() == Cursor(0.0, 0.0, NO_EVENT)
    {
      fBufferLength := streamBufferSize;
      fBufferDivision := streamBufferDivision;
      fSamplingRate := samplingRate;
      fAmplitude := 1.0;
      fStepSize := 1.0;
      fInterpolateSamples := true;
      fBufferIndex := 0.0;
      fBufferIndexPrev := 0.0;
      fCompleteEvent := NO_EVENT;
      var buffer := new real[streamBufferSize](_ => 0.0);
      for k := 0 to |firstBlock|
        invariant forall m :: 0 <= m < k ==> buffer[m] == firstBlock[m]
        invariant forall m :: k <= m < buffer.Length ==> buffer[m] == 0.0
      {
        buffer[k] := firstBlock[k];
      }
      assert buffer[..] == firstBlock + seq(streamBufferSize - |firstBlock|, _ => 0.0);
      fBuffer := buffer;
    }

    /** `checkCompleteEvent(fBufferDivision)`, the only call the streamer
        makes. */
    method CheckCompleteEvent() returns (r: int)
      ensures r == CompleteEvent(fBufferLength, fBufferDivision, fBufferIndexPrev, fBufferIndex)
    {
      for i := 0 to fBufferDivision
        invariant forall j :: 0 <= j < i ==>
                    !CrossedBorder(fBufferIndexPrev, fBufferIndex, Border(fBufferLength, j, fBufferDivision))
      {
        var border := Border(fBufferLength, i, fBufferDivision);
        if CrossedBorder(fBufferIndexPrev, fBufferIndex, border) {
          return ToInt8(i);
        }
      }
      return NO_EVENT;
    }

    /** The first half of `process()`: advance and wrap the cursor, and read
        (and blend) the sample at the new position. */
    method ReadAdvance() returns (sample: real)
      requires Valid() && ReadsInBounds(fBufferLength, fBufferIndex, fStepSize)
      modifies this
      ensures Cfg() == old(Cfg())
      ensures Pos() == old(Pos()).(index := AdvancedIndex(fBufferLength, old(fBufferIndex), fStepSize))
      ensures sample == StreamSample(Cfg(), fBuffer[..], old(fBufferIndex))
    {
      fBufferIndex := fBufferIndex + fStepSize;
      var rounded := Trunc(fBufferIndex);
      var frac := fBufferIndex - rounded as real;
      var current := WrapIndex(rounded, fBufferLength);
      fBufferIndex := current as real + frac;
      sample := fBuffer[current];
      if fInterpolateSamples {
        var next := WrapIndex(current + 1, fBufferLength);
        sample := Blend(sample, fBuffer[next], frac);
      }
      sample := Gain(sample, fAmplitude);
    }

    /** The second half of `process()`: on a section event, record it and
        refill the section the 8-bit arithmetic names with `block`; then
        remember the cursor. */
    method LoadNextBlock(block: seq<real>)
      requires Valid()
      modifies this, fBuffer
      ensures Cfg() == old(Cfg())
      ensures var e := CompleteEvent(fBufferLength, fBufferDivision, old(fBufferIndexPrev), fBufferIndex);
              Pos() == Cursor(old(fBufferIndex), old(fBufferIndex), if e > NO_EVENT then e else old(fCompleteEvent))
              && fBuffer[..] == if e > NO_EVENT then ReplacedBuffer(old(fBuffer[..]), fBufferLength, block,
                                                                  ReloadSectionAsWritten(e, fBufferDivision), fBufferDivision)
                                else old(fBuffer[..])
    {
      var e := CheckCompleteEvent();
      if e > NO_EVENT {
        fCompleteEvent := e;
        var section := ToInt8(e - 1);
        section := ToInt8(section + fBufferDivision);
        section := ToInt8(CRem(section, fBufferDivision));
        var _ := ReplaceBuffer(fBuffer, fBufferLength, block, section, fBufferDivision);
      }
      fBufferIndexPrev := fBufferIndex;
    }

    /** `process()`. The reloaded section is the one the 8-bit arithmetic
        computes, `ReloadSectionAsWritten`: the section before the event for
        at most 64 sections (`ReloadSectionAsWrittenAgrees`), and possibly a
        negative index that `replace_buffer` rejects beyond that. */
    method Process(block: seq<real>) returns (r: real)
      requires Valid() && ReadsInBounds(fBufferLength, fBufferIndex, fStepSize)
      modifies this, fBuffer
      ensures Valid() && Cfg() == old(Cfg())
      ensures Streamed(Snapshot(), r) == StreamStep(Cfg(), old(Snapshot()), block)
    {
      ghost var start := Snapshot();
      r := ReadAdvance();
      LoadNextBlock(block);
    }

    /** The `i`-th `process()` of `process(signal_buffer, length)`: the
        stream advances by one block and the output extends the outputs so
        far. */
    method ProcessNext(blocks: seq<seq<real>>, i: nat, ghost start: Stream) returns (s: real)
      requires Valid() && Forward(Cfg(), start.cursor) && |start.buffer| == fBufferLength
      requires i < |blocks| && Snapshot() == StreamRun(Cfg(), start, blocks[..i])
      modifies this, fBuffer
      ensures Valid() && Cfg() == old(Cfg())
      ensures Snapshot() == StreamRun(Cfg(), start, blocks[..i + 1])
      ensures StreamOutputs(Cfg(), start, blocks[..i + 1]) == StreamOutputs(Cfg(), start, blocks[..i]) + [s]
    {
      ghost var cfg := Cfg();
      ghost var before := Snapshot();
      StreamStepForward(cfg, before, blocks[i]);
      s := Process(blocks[i]);
      StreamRunSnoc(cfg, start, blocks, i, before, Streamed(Snapshot(), s));
    }

    /** One iteration of `process(signal_buffer, length)`: entry `i` receives
        the output of the `i`-th step, the stream advances by one block, and no
        other entry changes. */
    method ProcessInto(signalBuffer: array<real>, i: nat, blocks: seq<seq<real>>, ghost start: Stream)
      requires Valid() && Forward(Cfg(), start.cursor) && |start.buffer| == fBufferLength
      requires i < signalBuffer.Length && i < |blocks| && signalBuffer != fBuffer
      requires Snapshot() == StreamRun(Cfg(), start, blocks[..i])
      requires signalBuffer[..i] == StreamOutputs(Cfg(), start, blocks[..i])
      modifies this, fBuffer, signalBuffer
      ensures Valid() && Cfg() == old(Cfg())
      ensures Snapshot() == StreamRun(Cfg(), start, blocks[..i + 1])
      ensures signalBuffer[..i + 1] == StreamOutputs(Cfg(), start, blocks[..i + 1])
      ensures forall k :: i < k < signalBuffer.Length ==> signalBuffer[k] == old(signalBuffer[k])
    {
      ghost var outputs := signalBuffer[..i];
      var s := ProcessNext(blocks, i, start);
      StoreAfter(signalBuffer, i, s, outputs);
    }

    /** `process(signal_buffer, length)`: one `process()` per entry, in order.
        The counter is a `uint16_t`, so the loop ends only for lengths below
        65536. */
    method ProcessBuffer(signalBuffer: array<real>, length: uint32, blocks: seq<seq<real>>)
      requires Valid() && Forward(Cfg(), Pos())
      requires length < 0x1_0000 && length <= signalBuffer.Length && length <= |blocks|
      requires signalBuffer != fBuffer
      modifies this, fBuffer, signalBuffer
      ensures Valid() && Cfg() == old(Cfg())
      ensures Snapshot() == StreamRun(Cfg(), old(Snapshot()), blocks[..length])
      ensures signalBuffer[..length] == StreamOutputs(Cfg(), old(Snapshot()), blocks[..length])
      ensures forall k :: length <= k < signalBuffer.Length ==> signalBuffer[k] == old(signalBuffer[k])
    {
      ghost var start := Snapshot();
      for i := 0 to length
        invariant Valid() && Cfg() == old(Cfg())
        invariant Snapshot() == StreamRun(Cfg(), start, blocks[..i])
        invariant signalBuffer[..i] == StreamOutputs(Cfg(), start, blocks[..i])
        invariant forall k :: i <= k < signalBuffer.Length ==> signalBuffer[k] == old(signalBuffer[k])
      {
        ProcessInto(signalBuffer, i, blocks, start);
      }
    }

    function GetBuffer(): array<real>
      reads this
    {
      fBuffer
    }

    function GetSector(): int
      reads this
    {
      fCompleteEvent
    }

    function NumSectors(): uint8
      reads this
    {
      fBufferDivision
    }

    function GetBufferLength(): uint32
      reads this
    {
      fBufferLength
    }

    function GetCurrentBufferPosition(): real
      reads this
    {
      fBufferIndex
    }

    function InterpolateSamples(): bool
      reads this
    {
      fInterpolateSamples
    }

    function GetSpeed(): real
      reads this
    {
      fStepSize
    }

    method SetInterpolateSamples(interpolate: bool)
      modifies this
      ensures Cfg() == old(Cfg()).(interpolate := interpolate) && Pos() == old(Pos())
    {
      fInterpolateSamples := interpolate;
    }

    method SetSpeed(speed: real)
      modifies this
      ensures Cfg() == old(Cfg()).(speed := speed) && Pos() == old(Pos())
    {
      fStepSize := speed;
    }
  }

  // ---------------------------------------------------------------------------
  // The 8-bit reload arithmetic

  /** With 65 sections, moving from 63.5 to 64.5 in a 65-sample buffer crosses
      only the border of section 64. The section to reload is 63, but the
      8-bit arithmetic wraps `63 + 65` to -128 and yields -63, which
      `replace_buffer` rejects, so section 63 keeps its old samples. */
  lemma ReloadSectionOverflow(sourceSize: nat)
    ensures CompleteEvent(65, 65, 63.5, 64.5) == 64
    ensures ReloadSectionAsWritten(64, 65) == -63
    ensures ReplaceOutcomeOf(65, sourceSize, ReloadSectionAsWritten(64, 65), 65) == InvalidSection
    ensures ReloadSection(64, 65) == 63
  {
    assert CrossedBorder(63.5, 64.5, Border(65, 64, 65));
    forall j | 0 <= j < 64
      ensures !CrossedBorder(63.5, 64.5, Border(65, j, 65))
    {
      assert (65 * j) % 0x1_0000_0000 == 65 * j;
      assert Border(65, j, 65) == j as real;
    }
    var i := FirstCrossedFrom(65, 65, 63.5, 64.5, 0);
    assert i == 64;
  }
}
