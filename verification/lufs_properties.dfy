/**
 Properties of the loudness measurement that relate several of its steps:
 the ordering of loudness by energy, the nesting of the two gates, the
 positivity of the energies the relative threshold takes the logarithm of,
 the measurement of silence, and the effect of a silent extra channel.
 */
module LufsProperties {
  import opened Numerics
  import IirFilter
  import opened LufsMeter

  /** log10 of the meter's epsilon lies far below the absolute gate, as it
      does for the real log10 (-0.691 + 10 log10(2^-52) is about -157.2). */
  ghost predicate SilenceBelowGate(log10: real -> real)
  {
    Loudness(0.0, log10) < AbsoluteGate
  }

  /** With log10 increasing, loudness orders blocks exactly as energy does. */
  lemma LoudnessOrder(log10: real -> real, e1: real, e2: real)
    requires StrictlyIncreasing(log10)
    requires e1 >= 0.0 && e2 >= 0.0
    ensures Loudness(e1, log10) < Loudness(e2, log10) <==> e1 < e2
    ensures Loudness(e1, log10) <= Loudness(e2, log10) <==> e1 <= e2
  {
    if e1 < e2 {
      assert log10(e1 + Epsilon) < log10(e2 + Epsilon);
    } else if e2 < e1 {
      assert log10(e2 + Epsilon) < log10(e1 + Epsilon);
    }
  }

  /** Every block of the final gate is in the initial gate, and without a
      relative threshold (NaN in the source) the final gate is empty. */
  lemma FinalGateWithinInitial(l: seq<real>, threshold: Option<real>)
    ensures forall i :: i in FinalGate(l, threshold) ==> i in InitialGate(l)
    ensures threshold.None? ==> FinalGate(l, threshold) == []
  {
    FinalGateEmpty(l, threshold);
  }

  /** Every block that passes the absolute gate carries energy, so the
      relative threshold never takes the logarithm of zero. */
  lemma GatedEnergyPositive(table: seq<seq<real>>, n: nat, log10: real -> real)
    requires Rectangular(table, n)
    requires forall c, i :: 0 <= c < |table| && 0 <= i < n ==> table[c][i] >= 0.0
    requires SilenceBelowGate(log10)
    ensures var gate := InitialGate(BlockLoudness(table, n, log10));
      |gate| > 0 ==> GatedMean(Energies(table, n), gate) > 0.0
  {
    var e := Energies(table, n);
    var l := BlockLoudness(table, n, log10);
    var gate := InitialGate(l);
    forall k | 0 <= k < |gate|
      ensures e[gate[k]] > 0.0
    {
      var i := gate[k];
      assert e[i] == SeqSum(Column(table, i));
      SeqSumNonNegative(Column(table, i));
      assert l[i] == Loudness(e[i], log10) >= AbsoluteGate;
    }
    if |gate| > 0 {
      GatedSumPositive(e, gate);
    }
  }

  lemma {:induction false} GatedSumPositive(row: seq<real>, gate: seq<nat>)
    requires IndicesBelow(gate, |row|) && |gate| > 0
    requires forall k :: 0 <= k < |gate| ==> row[gate[k]] > 0.0
    ensures GatedSum(row, gate) > 0.0 && GatedMean(row, gate) > 0.0
    decreases |gate|
  {
    if |gate| > 1 {
      GatedSumPositive(row, gate[..|gate| - 1]);
    }
  }

  // ---------------------------------------------------------------------------
  // Silence
  // ---------------------------------------------------------------------------

  ghost predicate Silent(chs: seq<seq<real>>)
  {
    forall c, j :: 0 <= c < |chs| && 0 <= j < |chs[c]| ==> chs[c][j] == 0.0
  }

  lemma {:induction false} SumSquaresZeros(s: seq<real>)
    requires forall j :: 0 <= j < |s| ==> s[j] == 0.0
    ensures SumSquares(s) == 0.0
    decreases |s|
  {
    if |s| > 0 {
      SumSquaresZeros(s[..|s| - 1]);
    }
  }

  /** The K-weighting stages start from zero, so silence stays silent. */
  lemma KWeightingOfSilence(inputs: seq<seq<real>>, rate: int, t: Transcendentals)
    requires KWeightingStages(rate, t).Some?
    requires Silent(inputs)
    ensures Silent(KWeighting(inputs, rate, t))
  {
    var (shelf, pass) := KWeightingStages(rate, t).value;
    forall c | 0 <= c < |inputs|
      ensures forall j :: 0 <= j < |inputs[c]| ==> KWeighting(inputs, rate, t)[c][j] == 0.0
    {
      IirFilter.SilenceInSilenceOut(shelf, inputs[c]);
      IirFilter.SilenceInSilenceOut(pass, IirFilter.Response(shelf, inputs[c]));
    }
  }

  /** Silent channels give an all-zero energy table. */
  lemma TableOfSilence(filtered: seq<seq<real>>, g: Geometry)
    requires Covers(filtered, g) && Silent(filtered)
    ensures forall c, i :: 0 <= c < |filtered| && 0 <= i < g.numBlocks ==> BlockTable(filtered, g)[c][i] == 0.0
  {
    forall c, i | 0 <= c < |filtered| && 0 <= i < g.numBlocks
      ensures BlockTable(filtered, g)[c][i] == 0.0
    {
      SumSquaresZeros(Window(filtered[c], g, i));
    }
  }

  /** Silence measures at the absolute gate: every block sits at the loudness
      of zero energy, no block passes the absolute gate, the relative
      threshold is missing and the integrated loudness is -70 LUFS. */
  lemma SilenceMeasuresAtGate(rate: int, inputs: seq<seq<real>>, t: Transcendentals)
    requires rate >= 4 && ValidChannels(inputs) && Silent(inputs)
    requires SilenceBelowGate(t.log10)
    ensures Measure(rate, inputs, t).Some? ==>
      var m := Measure(rate, inputs, t).value;
      && m.integratedLufs == AbsoluteGate
      && m.relativeThreshold.None?
      && forall i :: 0 <= i < |m.blockLoudness| ==> m.blockLoudness[i] == Loudness(0.0, t.log10)
  {
    if KWeightingStages(rate, t).Some? {
      var filtered := KWeighting(inputs, rate, t);
      KWeightingOfSilence(inputs, rate, t);
      var g := GeometryOf(rate, MinLength(filtered));
      TableOfSilence(filtered, g);
      SilentTableMeasuresAtGate(BlockTable(filtered, g), g.numBlocks, t.log10);
    }
  }

  /** The same, from an all-zero block table. */
  lemma SilentTableMeasuresAtGate(table: seq<seq<real>>, n: nat, log10: real -> real)
    requires n >= 1 && Rectangular(table, n)
    requires forall c, i :: 0 <= c < |table| && 0 <= i < n ==> table[c][i] == 0.0
    requires SilenceBelowGate(log10)
    ensures var m := MeasureTable(table, n, log10);
      && m.integratedLufs == AbsoluteGate
      && m.relativeThreshold.None?
      && forall i :: 0 <= i < |m.blockLoudness| ==> m.blockLoudness[i] == Loudness(0.0, log10)
  {
    var e := Energies(table, n);
    forall i | 0 <= i < n
      ensures e[i] == 0.0
    {
      SeqSumZeros(Column(table, i));
    }
    assert MeasureTable(table, n, log10).blockLoudness == BlockLoudness(table, n, log10);
  }

  // ---------------------------------------------------------------------------
  // A silent extra channel
  // ---------------------------------------------------------------------------

  /** The measurement sees the block table only through the channel-summed
      block energies. */
  lemma SameEnergiesSameMeasurement(t1: seq<seq<real>>, t2: seq<seq<real>>, n: nat, log10: real -> real)
    requires n >= 1 && Rectangular(t1, n) && Rectangular(t2, n)
    requires Energies(t1, n) == Energies(t2, n)
    ensures MeasureTable(t1, n, log10) == MeasureTable(t2, n, log10)
  {
    var l := BlockLoudness(t1, n, log10);
    assert l == BlockLoudness(t2, n, log10);
    var initial := InitialGate(l);
    var th := RelativeThreshold(t1, n, initial, log10);
    assert th == RelativeThreshold(t2, n, initial, log10);
    var final := FinalGate(l, th);
    assert Integrated(t1, n, final, log10) == Integrated(t2, n, final, log10);
  }

  /** Appending a silent channel at least as long as the shortest channel
      leaves the whole measurement unchanged: channel energies add linearly
      and unit weights give the extra channel nothing to contribute. */
  lemma SilentChannelChangesNothing(rate: int, inputs: seq<seq<real>>, z: seq<real>, t: Transcendentals)
    requires rate >= 4 && ValidChannels(inputs)
    requires |z| >= MinLength(inputs) && forall j :: 0 <= j < |z| ==> z[j] == 0.0
    ensures Measure(rate, inputs + [z], t) == Measure(rate, inputs, t)
  {
    var more := inputs + [z];
    assert more[..|inputs|] == inputs;
    assert ValidChannels(more);
    if KWeightingStages(rate, t).Some? {
      var f1 := KWeighting(inputs, rate, t);
      var fz := ApplyKWeighting(z, rate, t);
      KWeightingAppend(inputs, z, rate, t);
      SilentChannelFiltered(z, rate, t);
      MinLengthOfSameLengths(f1, inputs);
      SilentFilteredChannelChangesNothing(rate, f1, fz, t.log10);
    }
  }

  /** The same, after K-weighting: a zero channel leaves the measurement of
      the weighted channels unchanged. */
  lemma SilentFilteredChannelChangesNothing(rate: int, f1: seq<seq<real>>, fz: seq<real>, log10: real -> real)
    requires rate >= 4 && ValidChannels(f1)
    requires |fz| >= MinLength(f1) && forall j :: 0 <= j < |fz| ==> fz[j] == 0.0
    ensures ValidChannels(f1 + [fz])
    ensures MeasureFiltered(rate, f1 + [fz], log10) == MeasureFiltered(rate, f1, log10)
  {
    var f2 := f1 + [fz];
    assert f2[..|f1|] == f1;
    MinLengthAppend(f1, fz);
    var g := GeometryOf(rate, MinLength(f1));
    EnergiesWithSilentChannel(f1, fz, g);
    SameEnergiesSameMeasurement(BlockTable(f2, g), BlockTable(f1, g), g.numBlocks, log10);
  }

  /** Channels are weighted independently, so an appended channel is
      weighted on its own. */
  lemma KWeightingAppend(inputs: seq<seq<real>>, z: seq<real>, rate: int, t: Transcendentals)
    requires KWeightingStages(rate, t).Some?
    ensures KWeighting(inputs + [z], rate, t) == KWeighting(inputs, rate, t) + [ApplyKWeighting(z, rate, t)]
  {
  }

  lemma SilentChannelFiltered(z: seq<real>, rate: int, t: Transcendentals)
    requires KWeightingStages(rate, t).Some?
    requires forall j :: 0 <= j < |z| ==> z[j] == 0.0
    ensures forall j :: 0 <= j < |z| ==> ApplyKWeighting(z, rate, t)[j] == 0.0
  {
    KWeightingOfSilence([z], rate, t);
    assert KWeighting([z], rate, t)[0] == ApplyKWeighting(z, rate, t);
  }

  /** A silent extra channel adds a zero row to the block table and so
      leaves every block's energy as it was. */
  lemma EnergiesWithSilentChannel(f: seq<seq<real>>, fz: seq<real>, g: Geometry)
    requires Covers(f, g) && Covers([fz], g) && Covers(f + [fz], g)
    requires forall j :: 0 <= j < |fz| ==> fz[j] == 0.0
    ensures Energies(BlockTable(f + [fz], g), g.numBlocks) == Energies(BlockTable(f, g), g.numBlocks)
  {
    var n := g.numBlocks;
    var t1, t2 := BlockTable(f, g), BlockTable(f + [fz], g);
    TableOfSilence([fz], g);
    forall i | 0 <= i < n
      ensures Energies(t2, n)[i] == Energies(t1, n)[i]
    {
      var col := Column(t2, i);
      assert col[..|t1|] == Column(t1, i);
      assert (f + [fz])[|f|] == fz;
      assert col[|t1|] == MeanSquare(Window(fz, g, i));
      assert BlockTable([fz], g)[0][i] == MeanSquare(Window(fz, g, i));
    }
  }

  lemma {:induction false} MinLengthOfSameLengths(a: seq<seq<real>>, b: seq<seq<real>>)
    requires |a| == |b| > 0
    requires forall c :: 0 <= c < |a| ==> |a[c]| == |b[c]|
    ensures MinLength(a) == MinLength(b)
  {
    var c :| 0 <= c < |a| && MinLength(a) == |a[c]|;
    var d :| 0 <= d < |b| && MinLength(b) == |b[d]|;
    assert MinLength(a) <= |a[d]|;
    assert MinLength(b) <= |b[c]|;
  }

  lemma MinLengthAppend(chs: seq<seq<real>>, z: seq<real>)
    requires |chs| > 0 && |z| >= MinLength(chs)
    ensures MinLength(chs + [z]) == MinLength(chs)
  {
    var more := chs + [z];
    assert more[..|chs|] == chs;
  }

  // ---------------------------------------------------------------------------
  // The K-weighting designs and the conversion
  // ---------------------------------------------------------------------------

  /** With the high-pass design, the general conversion branch as written,
      evaluated at the reference rate, flips the sign of a[1]; the corrected
      branch returns the design unchanged. */
  lemma HighPassConversionAtReference(t: Transcendentals)
    requires IirFilter.ExactAt(HighPassA, t)
    ensures IirFilter.ConvertGeneralAsWritten(HighPassA, HighPassB, IirFilter.ReferenceRate, t)
            == Some(([1.0, 1.99004745483398, 0.99007225036621], HighPassB))
    ensures IirFilter.ConvertGeneralAsWritten(HighPassA, HighPassB, IirFilter.ReferenceRate, t)
            != Some((HighPassA, HighPassB))
    ensures IirFilter.ConvertGeneral(HighPassA, HighPassB, IirFilter.ReferenceRate, t)
            == Some((HighPassA, HighPassB))
  {
    assert IirFilter.Analyse(HighPassA, HighPassB, t.sqrt).Some?;
    IirFilter.AsWrittenNegatesPole(HighPassA, HighPassB, t);
    IirFilter.ConvertRoundTrip(HighPassA, HighPassB, t);
    assert [1.0, 1.99004745483398, 0.99007225036621] != HighPassA by {
      assert HighPassA[1] == -1.99004745483398;
    }
  }
}
