/**
 A BS.1770-style gated loudness integrator, after ITU-R BS.1770-4 Annex 1:
 K-weighting of every channel, overlapping 400 ms blocks, per-channel
 mean-square energy per block, momentary block loudness, the absolute and
 relative gates, integrated loudness and the loudest block. It departs from
 the annex in four ways, all modelled as the meter does them: unit channel
 weights; an absolute gate that keeps blocks at exactly -70 (`>=` rather than
 strictly above); 2^-52 added to the energy inside each block's log10; and a
 block count from Math.round and max(1, ...), so a final partial block can be
 counted and a signal shorter than 400 ms still gets one partial block.
 */
module LufsMeter {
  import opened Numerics
  import IirFilter

  const BlockDuration: real := 0.4   // seconds
  const Overlap: real := 0.75        // fraction of a block shared with the next
  const MinBlocks: int := 1
  const AbsoluteGate: real := -70.0  // LUFS
  const LoudnessOffset: real := -0.691
  const RelativeGateOffset: real := -10.0
  /** JavaScript's Number.EPSILON, 2^-52. */
  const Epsilon: real := 1.0 / 4503599627370496.0

  // ---------------------------------------------------------------------------
  // K-weighting
  // ---------------------------------------------------------------------------

  const ShelfA: IirFilter.Triple := [1.0, -1.69065929318241, 0.73248077421585]
  const ShelfB: IirFilter.Triple := [1.53512485958697, -2.69169618940638, 1.19839281085285]
  const HighPassA: IirFilter.Triple := [1.0, -1.99004745483398, 0.99007225036621]
  const HighPassB: IirFilter.Triple := [1.0, -2.0, 1.0]

  /** The high-shelf and high-pass stages built for `rate`, or `None` when a
      conversion would produce non-finite coefficients. Both are fresh. */
  function KWeightingStages(rate: int, t: Transcendentals): (r: Option<(IirFilter.Filter, IirFilter.Filter)>)
    ensures rate == IirFilter.ReferenceRate ==>
      r == Some((IirFilter.Fresh(ShelfA, ShelfB), IirFilter.Fresh(HighPassA, HighPassB)))
    ensures r.Some? ==> r.value.0.x == IirFilter.Zeros && r.value.0.y == IirFilter.Zeros
                        && r.value.1.x == IirFilter.Zeros && r.value.1.y == IirFilter.Zeros
  {
    match (IirFilter.Construct(ShelfA, ShelfB, rate, t), IirFilter.Construct(HighPassA, HighPassB, rate, t))
    case (Some(shelf), Some(pass)) => Some((shelf, pass))
    case _ => None
  }

  /** One channel through the high-shelf stage and then the high-pass stage. */
  function ApplyKWeighting(input: seq<real>, rate: int, t: Transcendentals): (r: seq<real>)
    requires KWeightingStages(rate, t).Some?
    ensures |r| == |input|
    ensures rate == IirFilter.ReferenceRate ==>
      r == IirFilter.Response(IirFilter.Fresh(HighPassA, HighPassB),
                              IirFilter.Response(IirFilter.Fresh(ShelfA, ShelfB), input))
  {
    var (shelf, pass) := KWeightingStages(rate, t).value;
    IirFilter.Response(pass, IirFilter.Response(shelf, input))
  }

  /** Every channel filtered on its own, by stages constructed for it. */
  function KWeighting(inputs: seq<seq<real>>, rate: int, t: Transcendentals): (r: seq<seq<real>>)
    requires KWeightingStages(rate, t).Some?
    ensures |r| == |inputs|
    ensures forall c :: 0 <= c < |inputs| ==> |r[c]| == |inputs[c]|
    ensures rate == IirFilter.ReferenceRate ==> forall c :: 0 <= c < |inputs| ==>
      r[c] == IirFilter.Response(IirFilter.Fresh(HighPassA, HighPassB),
                                 IirFilter.Response(IirFilter.Fresh(ShelfA, ShelfB), inputs[c]))
  {
    seq(|inputs|, c requires 0 <= c < |inputs| => ApplyKWeighting(inputs[c], rate, t))
  }

  // ---------------------------------------------------------------------------
  // Block geometry
  // ---------------------------------------------------------------------------

  function BlockSize(rate: int): int
  {
    Round(BlockDuration * rate as real)
  }

  function HopSize(blockSize: int): int
  {
    Round(blockSize as real * (1.0 - Overlap))
  }

  function NumBlocks(length: int, blockSize: int, hopSize: int): int
    requires hopSize != 0
  {
    Max(MinBlocks, Round((length - blockSize) as real / hopSize as real) + 1)
  }

  /** Block size and hop in samples, the common length of the channels, and
      the number of blocks. */
  datatype Geometry = Geometry(blockSize: int, hopSize: int, length: int, numBlocks: int)

  function BlockStart(g: Geometry, i: int): int
  {
    i * g.hopSize
  }

  function BlockEnd(g: Geometry, i: int): int
  {
    Min(BlockStart(g, i) + g.blockSize, g.length)
  }

  /** At least one block, and every block's window [start, end) is non-empty
      and lies within the first `length` samples. */
  ghost predicate ValidGeometry(g: Geometry)
  {
    && g.numBlocks >= 1
    && forall i :: 0 <= i < g.numBlocks ==> 0 <= BlockStart(g, i) < BlockEnd(g, i) <= g.length
  }

  /** The geometry the source computes for `rate` and `length` samples. The
      rounding of the source (Math.round of real products and quotients) comes
      out as integer arithmetic, and every window is non-empty. */
  function GeometryOf(rate: int, length: int): (g: Geometry)
    requires rate >= 4 && length >= 1
    ensures g.length == length
    ensures g.blockSize == (4 * rate + 5) / 10 && g.blockSize >= 2
    ensures g.hopSize == (g.blockSize + 2) / 4 && g.hopSize >= 1
    ensures length < g.blockSize ==> g.numBlocks == 1
    ensures length >= g.blockSize ==>
      g.numBlocks == (2 * (length - g.blockSize) + g.hopSize) / (2 * g.hopSize) + 1
    ensures ValidGeometry(g)
  {
    var b := BlockSize(rate);
    BlockSizeArithmetic(rate);
    var h := HopSize(b);
    HopSizeArithmetic(b);
    NumBlocksArithmetic(length, b, h);
    var g := Geometry(b, h, length, NumBlocks(length, b, h));
    WindowsInside(g);
    g
  }

  lemma BlockSizeArithmetic(rate: int)
    requires rate >= 4
    ensures BlockSize(rate) == (4 * rate + 5) / 10 >= 2
  {
    assert BlockDuration * rate as real == (4 * rate) as real / 10 as real;
    RoundQuotient(4 * rate, 10);
  }

  lemma HopSizeArithmetic(b: int)
    requires b >= 2
    ensures HopSize(b) == (b + 2) / 4 >= 1
  {
    assert b as real * (1.0 - Overlap) == b as real / 4 as real;
    RoundQuotient(b, 4);
  }

  lemma NumBlocksArithmetic(length: int, b: int, h: int)
    requires length >= 1 && b >= 2 && h == (b + 2) / 4 && h >= 1
    ensures length < b ==> NumBlocks(length, b, h) == 1
    ensures length >= b ==> NumBlocks(length, b, h) == (2 * (length - b) + h) / (2 * h) + 1
  {
    RoundQuotient(length - b, h);
    var q := (2 * (length - b) + h) / (2 * h);
    if length < b {
      assert 2 * (length - b) + h < 2 * h;
      DivBelowOne(2 * (length - b) + h, 2 * h);
    } else {
      assert 2 * (length - b) + h >= 0;
    }
  }

  lemma DivBelowOne(n: int, d: int)
    requires d > 0 && n < d
    ensures n / d <= 0
  {
  }

  /** The last block starts before `length`: (numBlocks - 1) hop is at most
      length - blockSize + hop / 2, and hop < 2 blockSize. */
  lemma WindowsInside(g: Geometry)
    requires g.length >= 1 && g.blockSize >= 2 && g.hopSize == (g.blockSize + 2) / 4 && g.hopSize >= 1
    requires g.length < g.blockSize ==> g.numBlocks == 1
    requires g.length >= g.blockSize ==>
      g.numBlocks == (2 * (g.length - g.blockSize) + g.hopSize) / (2 * g.hopSize) + 1
    ensures ValidGeometry(g)
  {
    var b, h, len := g.blockSize, g.hopSize, g.length;
    if len >= b {
      var n := 2 * (len - b) + h;
      var q := n / (2 * h);
      assert q * (2 * h) <= n by { DivTimesDivisor(n, 2 * h); }
      assert q >= 0;
      forall i | 0 <= i < g.numBlocks
        ensures 0 <= BlockStart(g, i) < BlockEnd(g, i) <= g.length
      {
        assert i <= q;
        MultiplyMonotone(i, q, h);
        assert 2 * (i * h) <= q * (2 * h);
        assert 2 * (i * h) < 2 * len;
      }
    }
  }

  lemma DivTimesDivisor(n: int, d: int)
    requires d > 0
    ensures (n / d) * d <= n
  {
  }

  lemma MultiplyMonotone(i: int, q: int, h: int)
    requires 0 <= i <= q && h >= 0
    ensures 0 <= i * h <= q * h
  {
  }

  // ---------------------------------------------------------------------------
  // Per-block energy
  // ---------------------------------------------------------------------------

  /** The sum of squares of the samples. */
  function SumSquares(s: seq<real>): (r: real)
    ensures r >= 0.0
  {
    if |s| == 0 then 0.0 else SumSquares(s[..|s| - 1]) + s[|s| - 1] * s[|s| - 1]
  }

  /** The mean of the squares of a non-empty block: never negative. */
  function MeanSquare(s: seq<real>): (r: real)
    requires |s| > 0
    ensures r >= 0.0
  {
    SumSquares(s) / |s| as real
  }

  /** The accumulation loop for one channel's block. */
  method BlockMeanSquare(block: seq<real>) returns (r: real)
    requires |block| > 0
    ensures r == MeanSquare(block) && r >= 0.0
  {
    var sum := 0.0;
    for j := 0 to |block|
      invariant sum == SumSquares(block[..j])
    {
      assert block[..j + 1][..j] == block[..j];
      sum := sum + block[j] * block[j];
    }
    assert block[..|block|] == block;
    r := sum / |block| as real;
  }

  /** The samples of block `i` of one channel. */
  function Window(ch: seq<real>, g: Geometry, i: int): (w: seq<real>)
    requires ValidGeometry(g) && 0 <= i < g.numBlocks && |ch| >= g.length
    ensures |w| >= 1
  {
    ch[BlockStart(g, i)..BlockEnd(g, i)]
  }

  /** Every channel reaches the common length. */
  ghost predicate Covers(filtered: seq<seq<real>>, g: Geometry)
  {
    ValidGeometry(g) && forall c :: 0 <= c < |filtered| ==> |filtered[c]| >= g.length
  }

  ghost predicate Rectangular(table: seq<seq<real>>, n: int)
  {
    forall c :: 0 <= c < |table| ==> |table[c]| == n
  }

  /** The per-channel, per-block table of mean-square energies. */
  function BlockTable(filtered: seq<seq<real>>, g: Geometry): (table: seq<seq<real>>)
    requires Covers(filtered, g)
    ensures |table| == |filtered| && Rectangular(table, g.numBlocks)
    ensures forall c, i :: 0 <= c < |table| && 0 <= i < g.numBlocks ==> table[c][i] >= 0.0
  {
    seq(|filtered|, c requires 0 <= c < |filtered| =>
      seq(g.numBlocks, i requires 0 <= i < g.numBlocks => MeanSquare(Window(filtered[c], g, i))))
  }

  /** Column `i` of the table: block i's energy in each channel. */
  function Column(table: seq<seq<real>>, i: int): (col: seq<real>)
    requires 0 <= i && forall c :: 0 <= c < |table| ==> i < |table[c]|
    ensures |col| == |table|
  {
    seq(|table|, c requires 0 <= c < |table| => table[c][i])
  }

  /** The energy of block i summed over channels with unit weights. */
  function BlockEnergy(table: seq<seq<real>>, i: int): real
    requires 0 <= i && forall c :: 0 <= c < |table| ==> i < |table[c]|
  {
    SeqSum(Column(table, i))
  }

  function Energies(table: seq<seq<real>>, n: nat): (e: seq<real>)
    requires Rectangular(table, n)
    ensures |e| == n
  {
    seq(n, i requires 0 <= i < n => BlockEnergy(table, i))
  }

  /** Loudness of a block of the given energy: -0.691 + 10 log10(energy + eps). */
  function Loudness(energy: real, log10: real -> real): real
  {
    LoudnessOffset + 10.0 * log10(energy + Epsilon)
  }

  function BlockLoudness(table: seq<seq<real>>, n: nat, log10: real -> real): (l: seq<real>)
    requires Rectangular(table, n)
    ensures |l| == n
    ensures forall i :: 0 <= i < n ==> l[i] == Loudness(Energies(table, n)[i], log10)
  {
    seq(n, i requires 0 <= i < n => Loudness(BlockEnergy(table, i), log10))
  }

  /** The source's block loop: each cell of the table is written once, by
      adding the block's mean square to zero, and each block's loudness is
      computed from the finished column. */
  method MeasureBlocks(filtered: seq<seq<real>>, g: Geometry, log10: real -> real)
    returns (table: seq<seq<real>>, loudness: seq<real>)
    requires Covers(filtered, g)
    ensures table == BlockTable(filtered, g)
    ensures loudness == BlockLoudness(table, g.numBlocks, log10)
  {
    var nb := g.numBlocks;
    ghost var expected := BlockTable(filtered, g);
    loudness := seq(nb, _ => 0.0);
    table := seq(|filtered|, _ => seq(nb, _ => 0.0));
    for blockIdx := 0 to nb
      invariant |table| == |filtered| && Rectangular(table, nb)
      invariant forall c, i :: 0 <= c < |table| && 0 <= i < nb ==>
        table[c][i] == if i < blockIdx then expected[c][i] else 0.0
      invariant |loudness| == nb
      invariant forall i :: 0 <= i < blockIdx ==> loudness[i] == Loudness(BlockEnergy(expected, i), log10)
    {
      var start := blockIdx * g.hopSize;
      var end := start + g.blockSize;
      assert 0 <= BlockStart(g, blockIdx) < BlockEnd(g, blockIdx) <= g.length;
      for c := 0 to |filtered|
        invariant |table| == |filtered| && Rectangular(table, nb)
        invariant forall c', i :: 0 <= c' < |table| && 0 <= i < nb ==>
          table[c'][i] == if i < blockIdx || (i == blockIdx && c' < c) then expected[c'][i] else 0.0
      {
        var block := filtered[c][start..Min(end, g.length)];
        assert block == Window(filtered[c], g, blockIdx);
        var ms := BlockMeanSquare(block);
        table := table[c := table[c][blockIdx := table[c][blockIdx] + ms]];
      }
      assert Column(table, blockIdx) == Column(expected, blockIdx);
      var s := Sum(Column(table, blockIdx));
      loudness := loudness[blockIdx := LoudnessOffset + 10.0 * log10(s + Epsilon)];
    }
    forall c | 0 <= c < |table|
      ensures table[c] == expected[c]
    {
    }
    assert table == expected;
  }

  /** The source's `sum` helper: a left-to-right accumulation from zero. */
  method Sum(arr: seq<real>) returns (total: real)
    ensures total == SeqSum(arr)
  {
    total := 0.0;
    for i := 0 to |arr|
      invariant total == SeqSum(arr[..i])
    {
      assert arr[..i + 1][..i] == arr[..i];
      total := total + arr[i];
    }
    assert arr[..|arr|] == arr;
  }

  // ---------------------------------------------------------------------------
  // Gating
  // ---------------------------------------------------------------------------

  /** The two gating passes: the absolute gate alone, and the relative
      threshold together with the absolute gate. */
  datatype Gate = Absolute | Relative(threshold: Option<real>)

  /** `x > threshold`, where a missing (NaN) threshold compares false. */
  predicate Exceeds(x: real, threshold: Option<real>)
  {
    threshold.Some? && x > threshold.value
  }

  /** The test a block's loudness must pass: `>= -70` for the absolute gate
      (LufsMeter.ts uses `>=` there) and strictly above both the relative
      threshold and -70 for the final gate. */
  predicate Passes(gate: Gate, x: real)
  {
    match gate
    case Absolute => x >= AbsoluteGate
    case Relative(threshold) => Exceeds(x, threshold) && x > AbsoluteGate
  }

  /** The ascending list of the indices of the blocks that pass `gate`. */
  function Select(l: seq<real>, gate: Gate): (idx: seq<nat>)
    ensures forall i: nat :: i in idx <==> i < |l| && Passes(gate, l[i])
    ensures IndicesBelow(idx, |l|)
    ensures forall k, k' :: 0 <= k < k' < |idx| ==> idx[k] < idx[k']
    decreases |l|
  {
    if |l| == 0 then []
    else
      var n := |l| - 1;
      var front := Select(l[..n], gate);
      assert forall i: nat :: i < n ==> l[..n][i] == l[i];
      front + if Passes(gate, l[n]) then [n] else []
  }

  /** Blocks at or above the absolute gate, in ascending order. */
  function InitialGate(l: seq<real>): (idx: seq<nat>)
    ensures forall i: nat :: i in idx <==> i < |l| && l[i] >= AbsoluteGate
    ensures IndicesBelow(idx, |l|)
    ensures forall k, k' :: 0 <= k < k' < |idx| ==> idx[k] < idx[k']
  {
    Select(l, Absolute)
  }

  /** Blocks strictly above both the relative threshold and the absolute gate,
      in ascending order. */
  function FinalGate(l: seq<real>, threshold: Option<real>): (idx: seq<nat>)
    ensures forall i: nat :: i in idx <==> i < |l| && Exceeds(l[i], threshold) && l[i] > AbsoluteGate
    ensures IndicesBelow(idx, |l|)
    ensures forall k, k' :: 0 <= k < k' < |idx| ==> idx[k] < idx[k']
  {
    Select(l, Relative(threshold))
  }

  /** The initial gate is empty exactly when every block is below -70. */
  lemma InitialGateEmpty(l: seq<real>)
    ensures |InitialGate(l)| == 0 <==> forall i :: 0 <= i < |l| ==> l[i] < AbsoluteGate
  {
    var idx := InitialGate(l);
    if |idx| > 0 {
      assert idx[0] in idx;
    }
  }

  /** The final gate is empty exactly when no block exceeds both the relative
      threshold and -70. */
  lemma FinalGateEmpty(l: seq<real>, threshold: Option<real>)
    ensures |FinalGate(l, threshold)| == 0 <==>
      forall i :: 0 <= i < |l| ==> !(Exceeds(l[i], threshold) && l[i] > AbsoluteGate)
  {
    var idx := FinalGate(l, threshold);
    if |idx| > 0 {
      assert idx[0] in idx;
    }
  }

  ghost predicate IndicesBelow(gate: seq<nat>, n: int)
  {
    forall k :: 0 <= k < |gate| ==> gate[k] < n
  }

  /** The sum of `row` over the gated blocks, accumulated in gate order. */
  function GatedSum(row: seq<real>, gate: seq<nat>): real
    requires IndicesBelow(gate, |row|)
  {
    if |gate| == 0 then 0.0
    else GatedSum(row, gate[..|gate| - 1]) + row[gate[|gate| - 1]]
  }

  function GatedMean(row: seq<real>, gate: seq<nat>): real
    requires IndicesBelow(gate, |row|) && |gate| > 0
  {
    GatedSum(row, gate) / |gate| as real
  }

  /** Each channel's mean energy over the gated blocks. */
  function ChannelMeans(table: seq<seq<real>>, n: nat, gate: seq<nat>): (means: seq<real>)
    requires Rectangular(table, n) && IndicesBelow(gate, n) && |gate| > 0
    ensures |means| == |table|
  {
    seq(|table|, c requires 0 <= c < |table| => GatedMean(table[c], gate))
  }

  /** The relative threshold: 10 dB below the loudness of the mean energy of
      the gated blocks; missing (NaN in the source) when no block is gated. */
  function RelativeThreshold(table: seq<seq<real>>, n: nat, gate: seq<nat>, log10: real -> real): (r: Option<real>)
    requires Rectangular(table, n) && IndicesBelow(gate, n)
    ensures r.None? <==> |gate| == 0
    ensures r.Some? ==>
      r.value == LoudnessOffset + 10.0 * log10(GatedMean(Energies(table, n), gate)) + RelativeGateOffset
  {
    if |gate| == 0 then None
    else
      SumOfMeansIsMeanOfSums(table, n, gate);
      Some(LoudnessOffset + 10.0 * log10(SeqSum(ChannelMeans(table, n, gate))) + RelativeGateOffset)
  }

  /** Integrated loudness: the absolute gate when no block passes the final
      gate, otherwise the loudness of the mean energy of the gated blocks. */
  function Integrated(table: seq<seq<real>>, n: nat, gate: seq<nat>, log10: real -> real): (r: real)
    requires Rectangular(table, n) && IndicesBelow(gate, n)
    ensures |gate| == 0 ==> r == AbsoluteGate
    ensures |gate| > 0 ==> r == LoudnessOffset + 10.0 * log10(GatedMean(Energies(table, n), gate))
  {
    if |gate| > 0 then
      SumOfMeansIsMeanOfSums(table, n, gate);
      LoudnessOffset + 10.0 * log10(SeqSum(ChannelMeans(table, n, gate)))
    else AbsoluteGate
  }

  /** Energies add linearly: summing the channels' gated means gives the
      gated mean of the channel-summed block energies. */
  lemma {:induction false} SumOfMeansIsMeanOfSums(table: seq<seq<real>>, n: nat, gate: seq<nat>)
    requires Rectangular(table, n) && IndicesBelow(gate, n) && |gate| > 0
    ensures SeqSum(ChannelMeans(table, n, gate)) == GatedMean(Energies(table, n), gate)
    decreases |table|
  {
    var e := Energies(table, n);
    if |table| == 0 {
      SeqSumZeros(e);
      GatedSumZeros(e, gate);
    } else {
      var m := |table| - 1;
      var rest := table[..m];
      var row := table[m];
      SumOfMeansIsMeanOfSums(rest, n, gate);
      var e' := Energies(rest, n);
      forall i | 0 <= i < n
        ensures e[i] == e'[i] + row[i]
      {
        assert Column(table, i)[..m] == Column(rest, i);
      }
      GatedSumAdd(e', row, e, gate);
      assert ChannelMeans(table, n, gate)[..m] == ChannelMeans(rest, n, gate);
      var cnt := |gate| as real;
      calc {
        SeqSum(ChannelMeans(table, n, gate));
        SeqSum(ChannelMeans(rest, n, gate)) + GatedMean(row, gate);
        GatedSum(e', gate) / cnt + GatedSum(row, gate) / cnt;
        (GatedSum(e', gate) + GatedSum(row, gate)) / cnt;
        GatedMean(e, gate);
      }
    }
  }

  lemma {:induction false} GatedSumZeros(row: seq<real>, gate: seq<nat>)
    requires IndicesBelow(gate, |row|)
    requires forall i :: 0 <= i < |row| ==> row[i] == 0.0
    ensures GatedSum(row, gate) == 0.0
    decreases |gate|
  {
    if |gate| > 0 {
      GatedSumZeros(row, gate[..|gate| - 1]);
    }
  }

  /** GatedSum is linear in the row. */
  lemma {:induction false} GatedSumAdd(u: seq<real>, v: seq<real>, w: seq<real>, gate: seq<nat>)
    requires |u| == |v| == |w| && IndicesBelow(gate, |w|)
    requires forall i :: 0 <= i < |w| ==> w[i] == u[i] + v[i]
    ensures GatedSum(w, gate) == GatedSum(u, gate) + GatedSum(v, gate)
    decreases |gate|
  {
    if |gate| > 0 {
      GatedSumAdd(u, v, w, gate[..|gate| - 1]);
    }
  }

  /** The largest block loudness: one of the entries, and no entry exceeds it. */
  function MaxOf(l: seq<real>): (r: real)
    requires |l| > 0
    ensures exists i :: 0 <= i < |l| && r == l[i]
    ensures forall i :: 0 <= i < |l| ==> l[i] <= r
  {
    if |l| == 1 then l[0]
    else
      var m := MaxOf(l[..|l| - 1]);
      if l[|l| - 1] > m then l[|l| - 1] else m
  }

  // ---------------------------------------------------------------------------
  // The measurement
  // ---------------------------------------------------------------------------

  /** The result: integrated loudness, the momentary loudness of every block in
      order, the relative threshold (missing where the source has NaN), and the
      loudest block. */
  datatype Measurement = Measurement(
    integratedLufs: real,
    blockLoudness: seq<real>,
    relativeThreshold: Option<real>,
    maxLoudness: real)

  /** A non-empty list of non-empty channels. */
  ghost predicate ValidChannels(chs: seq<seq<real>>)
  {
    |chs| > 0 && forall c :: 0 <= c < |chs| ==> |chs[c]| > 0
  }

  /** The shortest channel's length. */
  function MinLength(chs: seq<seq<real>>): (n: int)
    requires |chs| > 0
    ensures forall c :: 0 <= c < |chs| ==> n <= |chs[c]|
    ensures exists c :: 0 <= c < |chs| && n == |chs[c]|
  {
    if |chs| == 1 then |chs[0]|
    else
      var m := MinLength(chs[..|chs| - 1]);
      var last := |chs[|chs| - 1]|;
      if last < m then last else m
  }

  /** Steps 4 to 6 of the measurement, from the block table: block loudness,
      the two gates, the relative threshold, integrated and maximum loudness. */
  function MeasureTable(table: seq<seq<real>>, n: nat, log10: real -> real): (r: Measurement)
    requires Rectangular(table, n) && n >= 1
    ensures |r.blockLoudness| == n
    ensures r.blockLoudness == BlockLoudness(table, n, log10)
    ensures r.relativeThreshold.None? <==>
      forall i :: 0 <= i < |r.blockLoudness| ==> r.blockLoudness[i] < AbsoluteGate
    ensures (forall i :: 0 <= i < |r.blockLoudness| ==>
               !(Exceeds(r.blockLoudness[i], r.relativeThreshold) && r.blockLoudness[i] > AbsoluteGate))
            ==> r.integratedLufs == AbsoluteGate
    ensures exists i :: 0 <= i < |r.blockLoudness| && r.maxLoudness == r.blockLoudness[i]
    ensures forall i :: 0 <= i < |r.blockLoudness| ==> r.blockLoudness[i] <= r.maxLoudness
  {
    var l := BlockLoudness(table, n, log10);
    var initial := InitialGate(l);
    var threshold := RelativeThreshold(table, n, initial, log10);
    var final := FinalGate(l, threshold);
    var integrated := Integrated(table, n, final, log10);
    assert threshold.None? <==> forall i :: 0 <= i < |l| ==> l[i] < AbsoluteGate by {
      InitialGateEmpty(l);
    }
    assert (forall i :: 0 <= i < |l| ==> !(Exceeds(l[i], threshold) && l[i] > AbsoluteGate))
           ==> integrated == AbsoluteGate by {
      FinalGateEmpty(l, threshold);
    }
    Measurement(integrated, l, threshold, MaxOf(l))
  }

  /** The values `MeasureTable` computes: the relative threshold is 10 LU
      below the loudness of the mean energy over the initially gated blocks,
      and, when some block passes the final gate, the integrated loudness is
      the loudness of the mean energy over the finally gated blocks. */
  lemma MeasureTableValues(table: seq<seq<real>>, n: nat, log10: real -> real)
    requires Rectangular(table, n) && n >= 1
    ensures var r := MeasureTable(table, n, log10);
      r.relativeThreshold.Some? ==>
        var gate := InitialGate(r.blockLoudness);
        |gate| > 0 && r.relativeThreshold.value
          == LoudnessOffset + 10.0 * log10(GatedMean(Energies(table, n), gate)) + RelativeGateOffset
    ensures var r := MeasureTable(table, n, log10);
      var gate := FinalGate(r.blockLoudness, r.relativeThreshold);
      |gate| > 0 ==> r.integratedLufs == LoudnessOffset + 10.0 * log10(GatedMean(Energies(table, n), gate))
  {
  }

  /** Steps 2 to 6 of the measurement, on K-weighted channels. */
  function MeasureFiltered(rate: int, filtered: seq<seq<real>>, log10: real -> real): (r: Measurement)
    requires rate >= 4 && ValidChannels(filtered)
    ensures var g := GeometryOf(rate, MinLength(filtered));
      r == MeasureTable(BlockTable(filtered, g), g.numBlocks, log10)
    ensures |r.blockLoudness| == GeometryOf(rate, MinLength(filtered)).numBlocks >= 1
    ensures r.relativeThreshold.None? <==>
      forall i :: 0 <= i < |r.blockLoudness| ==> r.blockLoudness[i] < AbsoluteGate
    ensures (forall i :: 0 <= i < |r.blockLoudness| ==>
               !(Exceeds(r.blockLoudness[i], r.relativeThreshold) && r.blockLoudness[i] > AbsoluteGate))
            ==> r.integratedLufs == AbsoluteGate
    ensures exists i :: 0 <= i < |r.blockLoudness| && r.maxLoudness == r.blockLoudness[i]
    ensures forall i :: 0 <= i < |r.blockLoudness| ==> r.blockLoudness[i] <= r.maxLoudness
  {
    var g := GeometryOf(rate, MinLength(filtered));
    MeasureTable(BlockTable(filtered, g), g.numBlocks, log10)
  }

  /** The meter's `measure`: K-weighting and then the gated integration.
      `None` where the K-weighting stages would have non-finite coefficients,
      which never happens at the 48 kHz reference rate. */
  function Measure(rate: int, inputs: seq<seq<real>>, t: Transcendentals): (r: Option<Measurement>)
    requires rate >= 4 && ValidChannels(inputs)
    ensures rate == IirFilter.ReferenceRate ==> r.Some?
    ensures r.Some? <==> KWeightingStages(rate, t).Some?
    ensures r.Some? ==> r.value == MeasureFiltered(rate, KWeighting(inputs, rate, t), t.log10)
    ensures r.Some? ==> |r.value.blockLoudness| >= 1
  {
    if KWeightingStages(rate, t).Some? then
      var filtered := KWeighting(inputs, rate, t);
      assert ValidChannels(filtered);
      var m := MeasureFiltered(rate, filtered, t.log10);
      Some(m)
    else None
  }
}
