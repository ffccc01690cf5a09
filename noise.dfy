/**
 * The noise bank of `src/Noise.h`: uniform white noise from `rand()`, pink
 * noise from three one-pole stages, 3-D simplex noise over a shuffled
 * permutation table, Gaussian white noise by the polar method with its cached
 * second value, and the `Noise` front end that dispatches on a type code.
 *
 * Every random source is a parameter: `rand()` outputs are naturals in
 * [0, RAND_MAX], `KlangWellen::random()` outputs are reals, and the outputs of
 * the 64-bit Mersenne Twister that shuffles the simplex table are naturals.
 */
module NoiseBank {
  import opened Numerics
  import opened MathLib
  import opened KlangWellen
  import opened Smoothing

  // ---------------------------------------------------------------------------
  // White noise

  /** `getWhiteNoise()` (and `WhiteNoise::process()`) for one `rand()` output:
      `2 * rand / RAND_MAX - 1`. */
  function WhiteNoiseOf(rand: nat): (r: real)
    ensures rand <= RAND_MAX ==> -1.0 <= r <= 1.0
    ensures rand == 0 ==> r == -1.0
    ensures rand == RAND_MAX ==> r == 1.0
  {
    2.0 * (rand as real) / (RAND_MAX as real) - 1.0
  }

  /** `getWhiteNoiseFast()` for one `KlangWellen::random()` output. */
  function WhiteNoiseFastOf(random: real): (r: real)
    ensures 0.0 <= random < 1.0 ==> -1.0 <= r < 1.0
  {
    random * 2.0 - 1.0
  }

  /** `getGaussianWhiteNoiseFast()` for two `rand()` outputs: the Box-Muller
      transform of their quotients by RAND_MAX. */
  function GaussianFastOf(lib: Lib, rand1: nat, rand2: nat): real
  {
    var r1 := (rand1 as real) / (RAND_MAX as real);
    var r2 := (rand2 as real) / (RAND_MAX as real);
    lib.sqrt(-2.0 * lib.log(r1)) * lib.cos(2.0 * PI * r2)
  }

  // ---------------------------------------------------------------------------
  // Pink noise

  const PINK_A: seq<real> := [0.02109238, 0.07113478, 0.68873558]
  const PINK_P: seq<real> := [0.3190, 0.7756, 0.9613]
  /** `2 / RAND_MAX`. */
  const RMI2: real := 2.0 / (RAND_MAX as real)
  /** `A[0] + A[1] + A[2]`. */
  const PINK_OFFSET: real := 0.02109238 + 0.07113478 + 0.68873558
  const PINK_SCALE: real := 7.0

  /** The three stages after one `process()`: stage `i` moves from its old
      value toward the `i`-th draw by the pole `P[i]`. */
  function PinkStages(stages: seq<real>, draws: seq<nat>): (r: seq<real>)
    requires |stages| == 3 && |draws| == 3
    ensures |r| == 3
  {
    seq(3, i requires 0 <= i < 3 => Follow(stages[i], PINK_P[i], draws[i] as real))
  }

  /** Every stage lies in [0, RAND_MAX]: the range of `rand()`. */
  ghost predicate StagesInRange(stages: seq<real>)
  {
    forall i :: 0 <= i < |stages| ==> 0.0 <= stages[i] <= RAND_MAX as real
  }

  /** The weighted sum of the stages, rescaled and centred: the pink output. */
  function PinkOutput(stages: seq<real>): real
    requires |stages| == 3
  {
    ((PINK_A[0] * stages[0] + PINK_A[1] * stages[1] + PINK_A[2] * stages[2]) * RMI2 - PINK_OFFSET) * PINK_SCALE
  }

  /** Each stage ends between its old value and its draw, so stages that start
      within the range of `rand()` stay there. */
  lemma PinkStagesBetween(stages: seq<real>, draws: seq<nat>)
    requires |stages| == 3 && |draws| == 3
    ensures forall i :: 0 <= i < 3 ==>
              var d := draws[i] as real;
              (stages[i] <= d ==> stages[i] <= PinkStages(stages, draws)[i] <= d)
              && (d <= stages[i] ==> d <= PinkStages(stages, draws)[i] <= stages[i])
    ensures StagesInRange(stages) && (forall i :: 0 <= i < 3 ==> draws[i] <= RAND_MAX) ==>
              StagesInRange(PinkStages(stages, draws))
  {
    forall i | 0 <= i < 3 {
      FollowBetween(stages[i], PINK_P[i], draws[i] as real);
    }
  }

  /** With every stage within the range of `rand()`, the output lies within
      `7 * offset` of zero (about 5.47). */
  lemma PinkOutputBounded(stages: seq<real>)
    requires |stages| == 3 && StagesInRange(stages)
    ensures -PINK_SCALE * PINK_OFFSET <= PinkOutput(stages) <= PINK_SCALE * PINK_OFFSET
  {
    var m := RAND_MAX as real;
    assert 0.0 <= stages[0] <= m && 0.0 <= stages[1] <= m && 0.0 <= stages[2] <= m;
    var w := PINK_A[0] * stages[0] + PINK_A[1] * stages[1] + PINK_A[2] * stages[2];
    assert 0.0 <= w <= PINK_OFFSET * m;
    assert 0.0 <= w * RMI2 <= 2.0 * PINK_OFFSET;
  }

  // ---------------------------------------------------------------------------
  // Simplex noise: the permutation table

  /** `[0, 1, ..., n - 1]`: the table before shuffling. */
  function Identity(n: nat): (r: seq<int>)
    ensures |r| == n && forall i :: 0 <= i < n ==> r[i] == i
  {
    seq(n, i => i)
  }

  /** The 256 entries form a permutation of 0..255. */
  ghost predicate IsPermutation(s: seq<int>)
  {
    |s| == 256 && multiset(s) == multiset(Identity(|s|))
  }

  /** The entries at `j` and `k` exchanged. */
  function Swap(s: seq<int>, j: nat, k: nat): (r: seq<int>)
    requires j < |s| && k < |s|
    ensures |r| == |s|
  {
    s[j := s[k]][k := s[j]]
  }

  lemma SwapPermutes(s: seq<int>, j: nat, k: nat)
    requires j < |s| && k < |s|
    ensures multiset(Swap(s, j, k)) == multiset(s)
  {
    var t := s[j := s[k]];
    assert multiset(t) == multiset(s) - multiset{s[j]} + multiset{s[k]};
    assert multiset(t[k := s[j]]) == multiset(t) - multiset{t[k]} + multiset{s[j]};
  }

  /** The partner `set_seed` picks for position `j`: `j + gen() % (256 - j)`. */
  function Pick(draws: seq<nat>, j: nat): (k: nat)
    requires j < 256 && j < |draws|
    ensures j <= k < 256
  {
    j + draws[j] % (256 - j)
  }

  /** The table after the first `n` Fisher-Yates swaps. */
  function Shuffled(draws: seq<nat>, n: nat): (r: seq<int>)
    requires n <= 256 && n <= |draws|
    ensures |r| == 256
    decreases n
  {
    if n == 0 then Identity(256)
    else Swap(Shuffled(draws, n - 1), n - 1, Pick(draws, n - 1))
  }

  /** Whatever the generator's outputs, the shuffled table is a permutation of
      0..255: each swap only exchanges two entries. */
  lemma {:induction false} ShuffledIsPermutation(draws: seq<nat>, n: nat)
    requires n <= 256 && n <= |draws|
    ensures IsPermutation(Shuffled(draws, n))
    decreases n
  {
    if n > 0 {
      ShuffledIsPermutation(draws, n - 1);
      SwapPermutes(Shuffled(draws, n - 1), n - 1, Pick(draws, n - 1));
    }
  }

  /** A permutation of 0..255 holds every value of 0..255 and nothing else,
      so it fits an `unsigned char`. */
  lemma PermutationCovers(s: seq<int>)
    requires IsPermutation(s)
    ensures |s| == 256
    ensures forall i :: 0 <= i < |s| ==> 0 <= s[i] < 256
    ensures forall v :: 0 <= v < 256 ==> v in s
  {
    var id := Identity(256);
    assert |multiset(s)| == |multiset(id)|;
    forall i | 0 <= i < |s|
      ensures 0 <= s[i] < 256
    {
      assert s[i] in multiset(s);
      assert s[i] in multiset(id);
      assert s[i] in id;
    }
    forall v | 0 <= v < 256
      ensures v in s
    {
      assert id[v] == v;
      assert v in multiset(id);
      assert v in multiset(s);
    }
  }

  /** The lookup tables' layout after `set_seed`: the upper half of `perm`
      repeats the lower half and `perm12` holds `perm` modulo 12. */
  ghost predicate Mirrored(perm: seq<uint8>, perm12: seq<uint8>)
  {
    |perm| == 512 && |perm12| == 512
    && (forall i :: 256 <= i < 512 ==> perm[i] == perm[i - 256])
    && (forall i :: 0 <= i < 512 ==> perm12[i] == perm[i] % 12)
  }

  /** `Mirrored` from the per-position copies `set_seed` makes. */
  lemma MirroredFromCopies(perm: seq<uint8>, perm12: seq<uint8>)
    requires |perm| == 512 && |perm12| == 512
    requires forall q :: 0 <= q < 256 ==> perm[q + 256] == perm[q]
    requires forall q :: 0 <= q < 256 ==> perm12[q] == perm[q] % 12 && perm12[q + 256] == perm[q] % 12
    ensures Mirrored(perm, perm12)
  {
    forall i | 256 <= i < 512
      ensures perm[i] == perm[i - 256] && perm12[i] == perm[i] % 12
    {
      var q := i - 256;
      assert perm[q + 256] == perm[q];
      assert perm12[q + 256] == perm[q] % 12;
    }
  }

  // ---------------------------------------------------------------------------
  // Simplex noise: lookups and corners

  /** `x & 0xff` on a two's-complement `int`: the low byte. */
  function LowByte(x: int): (r: uint8)
    ensures (r - x) % 0x100 == 0
  {
    x % 0x100
  }

  /** `Index3D_12`: three chained lookups, each at most 255 + 255. */
  function Index3D12(perm: seq<uint8>, perm12: seq<uint8>, offset: uint8, x: int, y: int, z: int): (r: uint8)
    requires |perm| == 512 && |perm12| == 512
    ensures Mirrored(perm, perm12) ==> r < 12
  {
    var iz := LowByte(z) + offset;
    var iy := LowByte(y) + perm[iz];
    perm12[LowByte(x) + perm[iy]]
  }

  const GRAD_X: seq<real> := [1.0, -1.0, 1.0, -1.0, 1.0, -1.0, 1.0, -1.0, 0.0, 0.0, 0.0, 0.0]
  const GRAD_Y: seq<real> := [1.0, 1.0, -1.0, -1.0, 0.0, 0.0, 0.0, 0.0, 1.0, -1.0, 1.0, -1.0]
  const GRAD_Z: seq<real> := [0.0, 0.0, 0.0, 0.0, 1.0, 1.0, -1.0, -1.0, 1.0, 1.0, -1.0, -1.0]

  /** `GradCoord3D`: the dot product of the offset with the gradient picked by
      `Index3D_12`; the lookup is in bounds on mirrored tables. */
  function GradCoord3D(perm: seq<uint8>, perm12: seq<uint8>, offset: uint8, x: int, y: int, z: int,
                       xd: real, yd: real, zd: real): real
    requires Mirrored(perm, perm12)
  {
    var lut := Index3D12(perm, perm12, offset, x, y, z);
    xd * GRAD_X[lut] + yd * GRAD_Y[lut] + zd * GRAD_Z[lut]
  }

  /** `FastFloor`: truncation for non-negative arguments, truncation minus one
      for negative ones. */
  function FastFloor(f: real): (r: int)
    ensures !(f < 0.0 && f == f.Floor as real) ==> r == f.Floor
    ensures f < 0.0 && f == f.Floor as real ==> r == f.Floor - 1
  {
    if f >= 0.0 then Trunc(f) else Trunc(f) - 1
  }

  /** The offsets of the second and third simplex corners. */
  datatype Corners = Corners(i1: int, j1: int, k1: int, i2: int, j2: int, k2: int)

  /** The corner selection of `get`: the second corner steps along the axis of
      a largest coordinate, the third along every axis but one of a smallest
      coordinate. */
  function SimplexCorners(x0: real, y0: real, z0: real): (c: Corners)
    ensures c.i1 in {0, 1} && c.j1 in {0, 1} && c.k1 in {0, 1}
    ensures c.i2 in {0, 1} && c.j2 in {0, 1} && c.k2 in {0, 1}
    ensures c.i1 + c.j1 + c.k1 == 1 && c.i2 + c.j2 + c.k2 == 2
    ensures c.i1 <= c.i2 && c.j1 <= c.j2 && c.k1 <= c.k2
    ensures c.i1 == 1 ==> x0 >= y0 && x0 >= z0
    ensures c.j1 == 1 ==> y0 >= x0 && y0 >= z0
    ensures c.k1 == 1 ==> z0 >= x0 && z0 >= y0
    ensures c.i2 == 0 ==> x0 <= y0 && x0 <= z0
    ensures c.j2 == 0 ==> y0 <= x0 && y0 <= z0
    ensures c.k2 == 0 ==> z0 <= x0 && z0 <= y0
  {
    if x0 >= y0 then
      if y0 >= z0 then Corners(1, 0, 0, 1, 1, 0)
      else if x0 >= z0 then Corners(1, 0, 0, 1, 0, 1)
      else Corners(0, 0, 1, 1, 0, 1)
    else
      if y0 < z0 then Corners(0, 0, 1, 0, 1, 1)
      else if x0 < z0 then Corners(0, 1, 0, 0, 1, 1)
      else Corners(0, 1, 0, 1, 1, 0)
  }

  const F3: real := 1.0 / 3.0
  const G3: real := 1.0 / 6.0

  /** One corner's contribution: `t^4` times the gradient dot product, or 0
      outside the kernel's radius. */
  function CornerContribution(perm: seq<uint8>, perm12: seq<uint8>, offset: uint8, x: int, y: int, z: int,
                              xd: real, yd: real, zd: real): real
    requires Mirrored(perm, perm12)
  {
    var t := 0.6 - xd * xd - yd * yd - zd * zd;
    if t < 0.0 then 0.0
    else
      var t2 := t * t;
      t2 * t2 * GradCoord3D(perm, perm12, offset, x, y, z, xd, yd, zd)
  }

  /** `get(offset, x, y, z)`: skew into the simplex grid, pick the corners,
      and sum the four contributions. */
  function SimplexAt(perm: seq<uint8>, perm12: seq<uint8>, offset: uint8, x: real, y: real, z: real): real
    requires Mirrored(perm, perm12)
  {
    var t := (x + y + z) * F3;
    var i := FastFloor(x + t);
    var j := FastFloor(y + t);
    var k := FastFloor(z + t);
    var t0 := ((i + j + k) as real) * G3;
    var x0 := x - (i as real - t0);
    var y0 := y - (j as real - t0);
    var z0 := z - (k as real - t0);
    var c := SimplexCorners(x0, y0, z0);
    var n0 := CornerContribution(perm, perm12, offset, i, j, k, x0, y0, z0);
    var n1 := CornerContribution(perm, perm12, offset, i + c.i1, j + c.j1, k + c.k1,
                                 x0 - c.i1 as real + G3, y0 - c.j1 as real + G3, z0 - c.k1 as real + G3);
    var n2 := CornerContribution(perm, perm12, offset, i + c.i2, j + c.j2, k + c.k2,
                                 x0 - c.i2 as real + 2.0 * G3, y0 - c.j2 as real + 2.0 * G3,
                                 z0 - c.k2 as real + 2.0 * G3);
    var n3 := CornerContribution(perm, perm12, offset, i + 1, j + 1, k + 1,
                                 x0 - 1.0 + 3.0 * G3, y0 - 1.0 + 3.0 * G3, z0 - 1.0 + 3.0 * G3);
    32.0 * (n0 + n1 + n2 + n3)
  }

  // ---------------------------------------------------------------------------
  // Simplex noise: the walk along the x axis

  /** `1 << 16`. */
  const STEP_LIMIT: real := 65536.0

  /** The position after one `process()`: advanced by the step size and, once
      past either limit, pulled back by one limit. */
  function AdvanceStep(step: real, stepSize: real): (r: real)
    ensures r == step + stepSize || r == step + stepSize - STEP_LIMIT || r == step + stepSize + STEP_LIMIT
    ensures -STEP_LIMIT <= step <= STEP_LIMIT && -STEP_LIMIT <= stepSize <= STEP_LIMIT ==>
              -STEP_LIMIT <= r <= STEP_LIMIT
  {
    var s := step + stepSize;
    if s > STEP_LIMIT then s - STEP_LIMIT
    else if s < -STEP_LIMIT then s + STEP_LIMIT
    else s
  }

  /** The position after `n` calls. */
  function AdvanceSteps(step: real, stepSize: real, n: nat): real
    decreases n
  {
    if n == 0 then step else AdvanceStep(AdvanceSteps(step, stepSize, n - 1), stepSize)
  }

  /** A step size within the limit keeps the position within [-65536, 65536]
      however many samples are drawn. */
  lemma {:induction false} AdvanceStepsBounded(step: real, stepSize: real, n: nat)
    requires -STEP_LIMIT <= step <= STEP_LIMIT && -STEP_LIMIT <= stepSize <= STEP_LIMIT
    ensures -STEP_LIMIT <= AdvanceSteps(step, stepSize, n) <= STEP_LIMIT
    decreases n
  {
    if n > 0 {
      AdvanceStepsBounded(step, stepSize, n - 1);
    }
  }

  class SimplexNoise {
    const m_perm: array<uint8>
    const m_perm12: array<uint8>
    var m_seed: int
    var fSimplexStep: real
    var fSimplexStepSize: real

    /** The lookup tables are 512 entries long, the lower half of `m_perm` is
        a permutation of 0..255, and both tables are mirrored. */
    ghost predicate Valid()
      reads m_perm, m_perm12
    {
      m_perm != m_perm12
      && m_perm.Length == 512 && m_perm12.Length == 512
      && IsPermutation(m_perm[..256])
      && Mirrored(m_perm[..], m_perm12[..])
    }

    /** `SimplexNoise(seed)`: shuffles the tables with the generator seeded by
        `seed`, whose outputs are `draws`; the walk starts at 0 with step
        0.01. */
    constructor(seed: int, draws: seq<nat>)
      requires |draws| >= 256
      ensures Valid() && fresh(m_perm) && fresh(m_perm12)
      ensures m_seed == seed && m_perm[..256] == Shuffled(draws, 256)
      ensures fSimplexStep == 0.0 && fSimplexStepSize == 0.01
    {
      m_perm := new uint8[512](_ => 0);
      m_perm12 := new uint8[512](_ => 0);
      m_seed := 1337;
      fSimplexStepSize := 0.01;
      fSimplexStep := 0.0;
      new;
      SetSeed(seed, draws);
    }

    /** `set_seed`: stores the seed and shuffles the tables. */
    method SetSeed(seed: int, draws: seq<nat>)
      requires m_perm != m_perm12 && m_perm.Length == 512 && m_perm12.Length == 512
      requires |draws| >= 256
      modifies this, m_perm, m_perm12
      ensures Valid()
      ensures m_seed == seed && m_perm[..256] == Shuffled(draws, 256)
      ensures fSimplexStep == old(fSimplexStep) && fSimplexStepSize == old(fSimplexStepSize)
    {
      m_seed := seed;
      Shuffle(draws);
    }

    /** One pass of the shuffle loop: position `j` exchanged with its pick,
        then its value and residue copied to the mirrors. */
    method SwapAt(draws: seq<nat>, j: nat)
      requires m_perm != m_perm12 && m_perm.Length == 512 && m_perm12.Length == 512
      requires j < 256 && |draws| >= 256
      requires m_perm[..256] == Shuffled(draws, j)
      requires forall q :: 0 <= q < j ==> m_perm[q + 256] == m_perm[q]
      requires forall q :: 0 <= q < j ==> m_perm12[q] == m_perm[q] % 12 && m_perm12[q + 256] == m_perm[q] % 12
      modifies m_perm, m_perm12
      ensures m_perm[..256] == Shuffled(draws, j + 1)
      ensures forall q :: 0 <= q <= j ==> m_perm[q + 256] == m_perm[q]
      ensures forall q :: 0 <= q <= j ==> m_perm12[q] == m_perm[q] % 12 && m_perm12[q + 256] == m_perm[q] % 12
    {
      var rng := draws[j] % (256 - j);
      var k := rng + j;
      assert k == Pick(draws, j);
      ghost var before := m_perm[..256];
      var l := m_perm[j];
      var v := m_perm[k];
      m_perm[j + 256] := v;
      m_perm[j] := v;
      m_perm[k] := l;
      assert m_perm[..256] == Swap(before, j, k);
      var residue := m_perm[j] % 12;
      m_perm12[j + 256] := residue;
      m_perm12[j] := residue;
    }

    /** The first loop of `set_seed`: `m_perm[i] = i` below 256. */
    method FillIdentity()
      requires m_perm.Length == 512
      modifies m_perm
      ensures m_perm[..256] == Identity(256)
      ensures m_perm[256..] == old(m_perm[256..])
    {
      for i := 0 to 256
        invariant forall q :: 0 <= q < i ==> m_perm[q] == q
        invariant forall q :: 256 <= q < 512 ==> m_perm[q] == old(m_perm[q])
      {
        m_perm[i] := i;
      }
    }

    /** The loops of `set_seed`: the identity, then one Fisher-Yates swap per
        position, each position's final value copied to its mirror and its
        residue modulo 12 stored twice. */
    method Shuffle(draws: seq<nat>)
      requires m_perm != m_perm12 && m_perm.Length == 512 && m_perm12.Length == 512
      requires |draws| >= 256
      modifies m_perm, m_perm12
      ensures Valid()
      ensures m_perm[..256] == Shuffled(draws, 256)
    {
      FillIdentity();
      assert m_perm[..256] == Shuffled(draws, 0);
      for j := 0 to 256
        invariant m_perm[..256] == Shuffled(draws, j)
        invariant forall q :: 0 <= q < j ==> m_perm[q + 256] == m_perm[q]
        invariant forall q :: 0 <= q < j ==> m_perm12[q] == m_perm[q] % 12 && m_perm12[q + 256] == m_perm[q] % 12
      {
        SwapAt(draws, j);
      }
      ghost var perm := m_perm[..];
      ghost var perm12 := m_perm12[..];
      assert forall q :: 0 <= q < 256 ==> perm[q + 256] == perm[q];
      assert forall q :: 0 <= q < 256 ==> perm12[q] == perm[q] % 12 && perm12[q + 256] == perm[q] % 12;
      MirroredFromCopies(perm, perm12);
      ShuffledIsPermutation(draws, 256);
    }

    function GetStep(): real
      reads this
    {
      fSimplexStepSize
    }

    method SetStep(step: real)
      modifies this
      ensures fSimplexStepSize == step && fSimplexStep == old(fSimplexStep) && m_seed == old(m_seed)
    {
      fSimplexStepSize := step;
    }

    /** `get(offset, x, y, z)` on the current tables. */
    function Get(offset: uint8, x: real, y: real, z: real): real
      requires Valid()
      reads this, m_perm, m_perm12
    {
      SimplexAt(m_perm[..], m_perm12[..], offset, x, y, z)
    }

    /** `process()`: advance the walk, then sample the noise at it. */
    method Process() returns (r: real)
      requires Valid()
      modifies this
      ensures Valid() && m_seed == old(m_seed) && fSimplexStepSize == old(fSimplexStepSize)
      ensures fSimplexStep == AdvanceStep(old(fSimplexStep), fSimplexStepSize)
      ensures r == Get(0, fSimplexStep, 0.0, 0.0)
    {
      fSimplexStep := fSimplexStep + fSimplexStepSize;
      if fSimplexStep > STEP_LIMIT {
        fSimplexStep := fSimplexStep - STEP_LIMIT;
      } else if fSimplexStep < -STEP_LIMIT {
        fSimplexStep := fSimplexStep + STEP_LIMIT;
      }
      r := SimplexAt(m_perm[..], m_perm12[..], 0, fSimplexStep, 0.0, 0.0);
    }
  }

  // ---------------------------------------------------------------------------
  // Gaussian white noise (polar method)

  /** The candidate pair drawn on the `p`-th pass of the rejection loop. */
  function CandidateX1(randoms: seq<real>, p: nat): real
    requires 2 * p + 1 < |randoms|
  {
    2.0 * randoms[2 * p] - 1.0
  }

  function CandidateX2(randoms: seq<real>, p: nat): real
    requires 2 * p + 1 < |randoms|
  {
    2.0 * randoms[2 * p + 1] - 1.0
  }

  function Radius2(x1: real, x2: real): real
  {
    x1 * x1 + x2 * x2
  }

  /** The loop stops at the first pair strictly inside the unit circle. */
  predicate Accepted(randoms: seq<real>, p: nat)
    requires 2 * p + 1 < |randoms|
  {
    Radius2(CandidateX1(randoms, p), CandidateX2(randoms, p)) < 1.0
  }

  /** Some pair at or after `p` is accepted: without one the loop would not
      end. */
  ghost predicate AcceptsFrom(randoms: seq<real>, p: nat)
  {
    exists q: nat :: p <= q && 2 * q + 1 < |randoms| && Accepted(randoms, q)
  }

  /** The first accepted pair at or after `p`. */
  function FirstAccepted(randoms: seq<real>, p: nat): (q: nat)
    requires AcceptsFrom(randoms, p)
    ensures p <= q && 2 * q + 1 < |randoms| && Accepted(randoms, q)
    ensures forall i: nat :: p <= i < q ==> !Accepted(randoms, i)
    decreases |randoms| - 2 * p
  {
    if 2 * p + 1 < |randoms| && Accepted(randoms, p) then p
    else
      assert AcceptsFrom(randoms, p + 1) by {
        var q: nat :| p <= q && 2 * q + 1 < |randoms| && Accepted(randoms, q);
        assert q != p;
      }
      FirstAccepted(randoms, p + 1)
  }

  /** `sqrt(-2 log(w) / w)`. A zero radius, which the C++ turns into a NaN,
      gives 0 here. */
  function PolarScale(lib: Lib, w: real): real
  {
    if w == 0.0 then 0.0 else lib.sqrt(-2.0 * lib.log(w) / w)
  }

  const GAUSSIAN_SCALE: real := 0.5

  /** The value handed out: `y * mScale`. */
  function GaussianOut(y: real): real
  {
    y * GAUSSIAN_SCALE
  }

  datatype GaussianState = GaussianState(pass: bool, y2: real)

  /** One `process()`: the output, the state after it, and how many
      `KlangWellen::random()` values it consumed. */
  datatype GaussianDraw = GaussianDraw(state: GaussianState, output: real, used: nat)

  /** A pass call returns half the cached value and draws nothing; any other
      call draws pairs until one is accepted, returns half of its first value
      scaled, and caches the second. */
  function GaussianStep(lib: Lib, g: GaussianState, randoms: seq<real>): (r: GaussianDraw)
    requires !g.pass ==> AcceptsFrom(randoms, 0)
    ensures r.state.pass == !g.pass
    ensures g.pass ==> r.output == GaussianOut(g.y2) && r.used == 0 && r.state.y2 == g.y2
    ensures !g.pass ==> r.used >= 2 && r.used % 2 == 0 && r.used <= |randoms|
                        && Accepted(randoms, r.used / 2 - 1)
                        && forall i: nat :: i < r.used / 2 - 1 ==> !Accepted(randoms, i)
  {
    if g.pass then GaussianDraw(GaussianState(false, g.y2), GaussianOut(g.y2), 0)
    else
      var p := FirstAccepted(randoms, 0);
      var x1 := CandidateX1(randoms, p);
      var x2 := CandidateX2(randoms, p);
      var w := PolarScale(lib, Radius2(x1, x2));
      GaussianDraw(GaussianState(true, x2 * w), GaussianOut(x1 * w), 2 * (p + 1))
  }

  /** The first and second values of the pair the rejection loop accepts. */
  function AcceptedX1(randoms: seq<real>): real
    requires AcceptsFrom(randoms, 0)
  {
    CandidateX1(randoms, FirstAccepted(randoms, 0))
  }

  function AcceptedX2(randoms: seq<real>): real
    requires AcceptsFrom(randoms, 0)
  {
    CandidateX2(randoms, FirstAccepted(randoms, 0))
  }

  /** Two calls from a fresh pair hand out both values of one accepted pair,
      scaled alike, the second without drawing, and leave the generator ready
      to draw again. */
  lemma GaussianPairs(lib: Lib, g: GaussianState, randoms: seq<real>, later: seq<real>)
    requires !g.pass && AcceptsFrom(randoms, 0)
    ensures GaussianStep(lib, g, randoms).output
              == GaussianOut(AcceptedX1(randoms) * PolarScale(lib, Radius2(AcceptedX1(randoms), AcceptedX2(randoms))))
    ensures GaussianStep(lib, GaussianStep(lib, g, randoms).state, later).output
              == GaussianOut(AcceptedX2(randoms) * PolarScale(lib, Radius2(AcceptedX1(randoms), AcceptedX2(randoms))))
    ensures GaussianStep(lib, GaussianStep(lib, g, randoms).state, later).used == 0
    ensures !GaussianStep(lib, GaussianStep(lib, g, randoms).state, later).state.pass
  {
    var first := GaussianStep(lib, g, randoms);
    var w := PolarScale(lib, Radius2(AcceptedX1(randoms), AcceptedX2(randoms)));
    assert first == GaussianDraw(GaussianState(true, AcceptedX2(randoms) * w),
                                 GaussianOut(AcceptedX1(randoms) * w), 2 * (FirstAccepted(randoms, 0) + 1));
    var second := GaussianStep(lib, first.state, later);
    assert second.output == GaussianOut(first.state.y2);
  }

  class GaussianWhiteNoise {
    var mWN_pass: bool
    var mWN_y2: real

    function State(): GaussianState
      reads this
    {
      GaussianState(mWN_pass, mWN_y2)
    }

    constructor()
      ensures State() == GaussianState(false, 0.0)
    {
      mWN_pass := false;
      mWN_y2 := 0.0;
    }

    /** `process()`; `randoms` are the `KlangWellen::random()` values the
        call may draw, and `used` how many it drew. */
    method Process(lib: Lib, randoms: seq<real>) returns (r: real, used: nat)
      requires !mWN_pass ==> AcceptsFrom(randoms, 0)
      modifies this
      ensures GaussianDraw(State(), r, used) == GaussianStep(lib, old(State()), randoms)
    {
      var y1: real;
      used := 0;
      if mWN_pass {
        y1 := mWN_y2;
      } else {
        ghost var q := FirstAccepted(randoms, 0);
        var p := 0;
        var x1 := 2.0 * randoms[0] - 1.0;
        var x2 := 2.0 * randoms[1] - 1.0;
        var w := Radius2(x1, x2);
        while w >= 1.0
          invariant p <= q
          invariant forall i: nat :: i < p ==> !Accepted(randoms, i)
          invariant x1 == CandidateX1(randoms, p) && x2 == CandidateX2(randoms, p)
          invariant w == Radius2(x1, x2)
          decreases q - p
        {
          p := p + 1;
          x1 := 2.0 * randoms[2 * p] - 1.0;
          x2 := 2.0 * randoms[2 * p + 1] - 1.0;
          w := Radius2(x1, x2);
        }
        assert Accepted(randoms, p);
        assert p == q;
        w := PolarScale(lib, w);
        y1 := x1 * w;
        mWN_y2 := x2 * w;
        used := 2 * (p + 1);
        assert GaussianStep(lib, old(State()), randoms) == GaussianDraw(GaussianState(true, mWN_y2), GaussianOut(y1), used);
      }
      mWN_pass := !mWN_pass;
      r := GaussianOut(y1);
    }
  }

  // ---------------------------------------------------------------------------
  // Pink noise

  class PinkNoise {
    const state: array<real>
    const fScale: real

    function Stages(): seq<real>
      reads this, state
    {
      state[..]
    }

    /** `PinkNoise()`: three cleared stages. Seeding `rand()` from the clock
        is outside the model. */
    constructor()
      ensures state.Length == 3 && fresh(state) && fScale == PINK_SCALE
      ensures Stages() == [0.0, 0.0, 0.0]
    {
      state := new real[3];
      fScale := PINK_SCALE;
      new;
      Clear();
    }

    /** `clear()`: every stage back to 0. */
    method Clear()
      modifies state
      ensures forall i :: 0 <= i < state.Length ==> state[i] == 0.0
    {
      for i := 0 to state.Length
        invariant forall q :: 0 <= q < i ==> state[q] == 0.0
      {
        state[i] := 0.0;
      }
    }

    /** `process()` for three `rand()` outputs, one per stage in order. */
    method Process(draws: seq<nat>) returns (r: real)
      requires state.Length == 3 && |draws| == 3 && fScale == PINK_SCALE
      modifies state
      ensures Stages() == PinkStages(old(Stages()), draws)
      ensures r == PinkOutput(Stages())
    {
      var temp := draws[0] as real;
      state[0] := Follow(state[0], PINK_P[0], temp);
      temp := draws[1] as real;
      state[1] := Follow(state[1], PINK_P[1], temp);
      temp := draws[2] as real;
      state[2] := Follow(state[2], PINK_P[2], temp);
      r := ((PINK_A[0] * state[0] + PINK_A[1] * state[1] + PINK_A[2] * state[2]) * RMI2 - PINK_OFFSET) * fScale;
    }
  }

  // ---------------------------------------------------------------------------
  // The front end

  datatype Generator = White | GaussianFast | Gaussian | Pink | Simplex

  /** The generator `process()` uses for a type code; NOISE_WHITE, NOISE_WHITE_FAST
      and every unknown code fall through to `getWhiteNoise`. */
  function Selected(noiseType: int): (g: Generator)
    ensures g == White <==> noiseType !in {NOISE_GAUSSIAN_WHITE_FAST, NOISE_GAUSSIAN_WHITE, NOISE_PINK, NOISE_SIMPLEX}
    ensures g == GaussianFast <==> noiseType == NOISE_GAUSSIAN_WHITE_FAST
    ensures g == Gaussian <==> noiseType == NOISE_GAUSSIAN_WHITE
    ensures g == Pink <==> noiseType == NOISE_PINK
    ensures g == Simplex <==> noiseType == NOISE_SIMPLEX
  {
    if noiseType == NOISE_WHITE_FAST then White
    else if noiseType == NOISE_GAUSSIAN_WHITE_FAST then GaussianFast
    else if noiseType == NOISE_GAUSSIAN_WHITE then Gaussian
    else if noiseType == NOISE_PINK then Pink
    else if noiseType == NOISE_SIMPLEX then Simplex
    else White
  }

  /** The front end's output: the generator's sample times the amplitude. */
  function Amplified(signal: real, amplitude: real): real
  {
    signal * amplitude
  }

  class Noise {
    var fAmplitude: real
    var fType: int
    const mSimplexNoise: SimplexNoise
    const mPinkNoise: PinkNoise
    const mGaussianWhiteNoise: GaussianWhiteNoise

    ghost predicate Valid()
      reads mSimplexNoise.m_perm, mSimplexNoise.m_perm12
    {
      mSimplexNoise.Valid()
      && mPinkNoise.state.Length == 3 && mPinkNoise.fScale == PINK_SCALE
    }

    /** `Noise()`: amplitude 1, white noise, and the three stateful generators
        in their initial states (the simplex tables shuffled from the default
        seed 1337, whose generator outputs are `seedDraws`). */
    constructor(seedDraws: seq<nat>)
      requires |seedDraws| >= 256
      ensures Valid() && fAmplitude == 1.0 && fType == NOISE_WHITE
      ensures fresh(mSimplexNoise) && fresh(mSimplexNoise.m_perm) && fresh(mSimplexNoise.m_perm12)
      ensures fresh(mPinkNoise) && fresh(mPinkNoise.state) && fresh(mGaussianWhiteNoise)
      ensures mPinkNoise.Stages() == [0.0, 0.0, 0.0]
      ensures mGaussianWhiteNoise.State() == GaussianState(false, 0.0)
    {
      fAmplitude := 1.0;
      fType := NOISE_WHITE;
      mSimplexNoise := new SimplexNoise(1337, seedDraws);
      mPinkNoise := new PinkNoise();
      mGaussianWhiteNoise := new GaussianWhiteNoise();
    }

    method GetAmplitude() returns (r: real)
      ensures r == fAmplitude
    {
      r := fAmplitude;
    }

    method SetAmplitude(amplitude: real)
      modifies this
      ensures fAmplitude == amplitude && fType == old(fType)
    {
      fAmplitude := amplitude;
    }

    method GetType() returns (r: int)
      ensures r == fType
    {
      r := fType;
    }

    method SetType(noiseType: int)
      modifies this
      ensures fType == noiseType && fAmplitude == old(fAmplitude)
    {
      fType := noiseType;
    }

    /** `process()`: the selected generator's sample times the amplitude.
        `rands` are the `rand()` outputs and `randoms` the
        `KlangWellen::random()` outputs the call may draw. */
    method Process(lib: Lib, rands: seq<nat>, randoms: seq<real>) returns (r: real)
      requires Valid() && |rands| >= 3
      requires Selected(fType) == Gaussian && !mGaussianWhiteNoise.mWN_pass ==> AcceptsFrom(randoms, 0)
      modifies mSimplexNoise, mPinkNoise.state, mGaussianWhiteNoise
      ensures Valid()
      ensures Selected(fType) == White ==> r == Amplified(WhiteNoiseOf(rands[0]), fAmplitude)
      ensures Selected(fType) == GaussianFast ==> r == Amplified(GaussianFastOf(lib, rands[0], rands[1]), fAmplitude)
      ensures Selected(fType) == Gaussian ==>
                var d := GaussianStep(lib, old(mGaussianWhiteNoise.State()), randoms);
                r == Amplified(d.output, fAmplitude) && mGaussianWhiteNoise.State() == d.state
      ensures Selected(fType) == Pink ==>
                mPinkNoise.Stages() == PinkStages(old(mPinkNoise.Stages()), rands[..3])
                && r == Amplified(PinkOutput(mPinkNoise.Stages()), fAmplitude)
      ensures Selected(fType) == Simplex ==>
                mSimplexNoise.fSimplexStep == AdvanceStep(old(mSimplexNoise.fSimplexStep), mSimplexNoise.fSimplexStepSize)
                && r == Amplified(mSimplexNoise.Get(0, mSimplexNoise.fSimplexStep, 0.0, 0.0), fAmplitude)
      ensures Selected(fType) != Gaussian ==> unchanged(mGaussianWhiteNoise)
      ensures Selected(fType) != Pink ==> unchanged(mPinkNoise.state)
      ensures Selected(fType) != Simplex ==> unchanged(mSimplexNoise)
    {
      var signal: real;
      match Selected(fType) {
        case White =>
          signal := WhiteNoiseOf(rands[0]);
        case GaussianFast =>
          signal := GaussianFastOf(lib, rands[0], rands[1]);
        case Gaussian =>
          var used;
          signal, used := mGaussianWhiteNoise.Process(lib, randoms);
        case Pink =>
          signal := mPinkNoise.Process(rands[..3]);
        case Simplex =>
          signal := mSimplexNoise.Process();
      }
      r := Amplified(signal, fAmplitude);
    }
  }
}
