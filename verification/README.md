# Loudness engine of loudness-optimizer, in Dafny

This project models the loudness-measurement engine of loudness-optimizer:
`src/processing/IirFilter.ts` (a biquad IIR stage, plus the conversion of a
48 kHz design to another sample rate) and `src/processing/LufsMeter.ts`
(a BS.1770-style gated loudness integrator, after ITU-R BS.1770-4 Annex 1).
It proves properties of the model.

The meter departs from the annex in four ways, and the model keeps all four:

- every channel has weight 1;
- the absolute gate keeps blocks with loudness `>= -70`, where the annex
  keeps blocks strictly above -70 (LufsMeter.ts:71);
- each block's loudness adds `Number.EPSILON` to the energy inside the
  log10 (LufsMeter.ts:64);
- the block count uses `Math.round` and `Math.max(1, ...)` (LufsMeter.ts:34-37),
  and a block's window is cut at the signal's end (line 49). So a final
  partial block can be counted, and a signal shorter than 400 ms still gets
  one partial block. The annex uses whole 400 ms blocks only.

The model has four modules:

- `Numerics` (`numerics.dfy`) holds the shared vocabulary. It has an
  `Option` type for values JavaScript would compute as NaN or Infinity, and
  a `Transcendentals` record holding uninterpreted `sqrt`, `atan`, `tan` and
  `log10` functions. It also has `Math.round` written as `floor(x + 1/2)`
  and a left-to-right sum.
- `IirFilter` (`iir_filter.dfy`) covers the filter stage. It has
  `convertToSampleRate` (the identity at 48 kHz, and the tan/atan re-warping
  otherwise) and the constructor. `Response` is a recursive specification of
  the difference equation
  `y[n] = b0 x[n] + b1 x[n-1] + b2 x[n-2] - a1 y[n-1] - a2 y[n-2]`,
  and `Process` is the shift-register loop of `process`, proved against
  `Response`.
- `LufsMeter` (`lufs_meter.dfy`) covers `measure` and `applyKWeighting`:
  K-weighting, the block geometry in integer arithmetic, the per-channel
  mean-square table, block loudness, the absolute and relative gates,
  integrated loudness and the loudest block. It also models the `sum`
  helper.
- `LufsProperties` (`lufs_properties.dfy`) holds properties that span
  several steps. Loudness is ordered exactly as energy is. The final gate
  lies within the initial gate. Gated blocks carry energy. Silence measures
  -70 LUFS with no relative threshold. A silent extra channel changes
  nothing.

The transcendental functions are parameters, and nothing is assumed of them
except where a lemma states it:

- `log10` is strictly increasing on the positive reals (`StrictlyIncreasing`).
- The loudness of zero energy, `-0.691 + 10 log10(2^-52)`, lies below -70
  (`SilenceBelowGate`). With the real log10 it is about -157.2.
- At one point, `sqrt` is a square root and `tan` undoes `atan` (`ExactAt`).

`Number.EPSILON` is the exact value 2^-52.

Where the source would compute NaN or Infinity, the model returns `None`:

- a division by zero or the square root of a negative number in
  `convertToSampleRate`;
- the relative threshold `0/0` when no block passes the absolute gate.

A comparison with a missing threshold is false (`Exceeds`), just as a
comparison with NaN is, so the final gate is then empty.

A more robust meter would set the relative threshold to -70 when no block
passes the absolute gate. The code computes NaN, and the model follows the
code.

## Model

| member | source | states |
|---|---|---|
| IirFilter.Fresh | src/processing/IirFilter.ts:44-51 | a constructed stage keeps the given coefficients and starts with all six history slots at zero |
| IirFilter.ConvertToSampleRate | src/processing/IirFilter.ts:4-29 | at 48000 Hz the coefficients come back unchanged; at any other rate the result, when finite, is two triples with a[0] = 1 (a[1] corrected, see Findings) |
| IirFilter.ConvertToSampleRateAsWritten | src/processing/IirFilter.ts:4-29 | the conversion exactly as written: unchanged at 48000 Hz, otherwise two triples with a[0] = 1 |
| IirFilter.ConvertGeneral | src/processing/IirFilter.ts:12-28 | the re-warping branch (corrected a[1]) yields, whenever its result is finite, a normalised denominator with a[0] = 1 |
| IirFilter.ConvertGeneralAsWritten | src/processing/IirFilter.ts:12-28 | the re-warping branch as written yields a[0] = 1 whenever its result is finite; `IirFilter.CorrectionOnlyNegatesPole` shows it is finite on the same inputs as the corrected branch, at every rate |
| IirFilter.CorrectionOnlyNegatesPole | src/processing/IirFilter.ts:4-29 | at every rate the corrected and the as-written conversion, and their general branches, are finite on the same inputs, and then agree on b, a[0] and a[2] and differ only in the sign of a[1] |
| IirFilter.WarpAtReference | src/processing/IirFilter.ts:15-20 | the re-warped corner tan(atan(k) * 48000 / rate) equals k at rate 48000 whenever tan undoes atan at k |
| IirFilter.ConvertRoundTrip | src/processing/IirFilter.ts:12-27 | analysing a normalised 48 kHz design and synthesising it again at its own corner gives back the design, so the corrected general branch agrees with the early return at 9-11 |
| IirFilter.AsWrittenNegatesPole | src/processing/IirFilter.ts:26 | the same round trip through the branch as written returns the design with a[1] negated |
| IirFilter.SynthesisAtOwnCorner | src/processing/IirFilter.ts:12-27 | at newK = k the common factor is finite, the numerator reproduces b, and the corrected denominator reproduces a1 and a2 |
| IirFilter.Construct | src/processing/IirFilter.ts:44-51 | the constructor converts the design to the rate (corrected a[1], see Findings) and zeroes the histories; at 48000 Hz the stage holds the given coefficients unchanged, and elsewhere a[0] = 1 |
| IirFilter.Process | src/processing/IirFilter.ts:58-81 | `process` returns exactly one output per input, in order, equal to the difference-equation response, and leaves the stage in the state `After` describes |
| IirFilter.ResponseStep | src/processing/IirFilter.ts:61-77 | one loop iteration appends the difference equation applied to sample i and the three most recent inputs and outputs |
| IirFilter.AfterStep | src/processing/IirFilter.ts:61-77 | one more sample shifts each three-slot history by one slot and puts the new input and output in slot 0 |
| IirFilter.ResponseRecurrence | src/processing/IirFilter.ts:61-77 | every output sample is b0 x[n] + b1 x[n-1] + b2 x[n-2] - a1 y[n-1] - a2 y[n-2], with terms before the start read from the histories |
| IirFilter.ResponsePrefix | src/processing/IirFilter.ts:61-78 | causality: the first k outputs depend only on the first k inputs |
| IirFilter.Continuation | src/processing/IirFilter.ts:34-81 | histories persist between calls: processing s and then t on one stage gives the outputs and the final state of processing s + t once |
| IirFilter.ResponseIgnoresLeadingDenominator | src/processing/IirFilter.ts:70-75 | the output is the same whatever a[0] holds, since the recurrence assumes a normalised denominator |
| IirFilter.SilenceInSilenceOut | src/processing/IirFilter.ts:49-75 | a stage with zero histories maps an all-zero input to an all-zero output |
| IirFilter.ImpulseResponse | src/processing/IirFilter.ts:63-77 | on [1, 0, 0, 0, 0] a fresh stage gives h0 = b0, h1 = b1 - a1 h0, h2 = b2 - a1 h1 - a2 h0, then h[n] = -a1 h[n-1] - a2 h[n-2] |
| LufsMeter.KWeightingStages | src/processing/LufsMeter.ts:119-130 | the high-shelf and high-pass stages are built fresh, with zero histories, and at 48000 Hz hold the two fixed designs unchanged |
| LufsMeter.ApplyKWeighting | src/processing/LufsMeter.ts:119-135 | a channel keeps its length; at 48000 Hz it is the response of a fresh high-pass stage to the response of a fresh high-shelf stage, with the two fixed designs |
| LufsMeter.KWeighting | src/processing/LufsMeter.ts:28 | every channel keeps its length; at 48000 Hz each channel goes through its own fresh high-shelf and high-pass stages, so no history carries from one channel to the next |
| Numerics.RoundQuotient | src/processing/LufsMeter.ts:31-36 | Math.round of n / d is the integer (2n + d) / (2d), which turns the block geometry into integer arithmetic |
| LufsMeter.BlockSizeArithmetic | src/processing/LufsMeter.ts:31 | blockSize = round(0.4 rate) = (4 rate + 5) / 10, at least 2 for rate >= 4 |
| LufsMeter.HopSizeArithmetic | src/processing/LufsMeter.ts:32 | hopSize = round(0.25 blockSize) = (blockSize + 2) / 4, at least 1 |
| LufsMeter.NumBlocksArithmetic | src/processing/LufsMeter.ts:34-37 | numBlocks is 1 when the signal is shorter than a block, else (2 (length - blockSize) + hopSize) / (2 hopSize) + 1 |
| LufsMeter.GeometryOf | src/processing/LufsMeter.ts:30-37 | the geometry of a measurement: the integer forms above, numBlocks >= 1, and every block window non-empty and inside the signal |
| LufsMeter.WindowsInside | src/processing/LufsMeter.ts:42-50 | every window [i hop, min(i hop + blockSize, length)) with i < numBlocks is non-empty and lies within [0, length), so the division at line 55 is defined |
| LufsMeter.MinLength | src/processing/LufsMeter.ts:33 | the common length is at most every channel's length and equal to one of them |
| LufsMeter.Window | src/processing/LufsMeter.ts:47-50 | a channel's block is non-empty |
| LufsMeter.MeanSquare | src/processing/LufsMeter.ts:51-55 | a block's mean square is non-negative |
| LufsMeter.BlockMeanSquare | src/processing/LufsMeter.ts:51-55 | the accumulating loop computes the block's mean square, which is non-negative |
| LufsMeter.BlockTable | src/processing/LufsMeter.ts:41-56 | the table has one row per channel and one non-negative entry per block |
| LufsMeter.MeasureBlocks | src/processing/LufsMeter.ts:39-66 | the nested loops, adding into zero-initialised cells, fill the table with each channel's block mean squares and give each block's loudness from the channel-summed energy |
| LufsMeter.BlockLoudness | src/processing/LufsMeter.ts:57-65 | block i's loudness is -0.691 + 10 log10(energy_i + 2^-52), where energy_i sums the table's column i over the channels |
| LufsMeter.Sum | src/processing/LufsMeter.ts:10-16 | the loop returns the left-to-right sum of the array |
| LufsMeter.Select | src/processing/LufsMeter.ts:69-73 | a gate is the ascending list of exactly the block indices that pass its test |
| LufsMeter.InitialGate | src/processing/LufsMeter.ts:69-73 | the initial gate holds exactly the blocks with loudness >= -70, ascending |
| LufsMeter.FinalGate | src/processing/LufsMeter.ts:89-93 | the final gate holds exactly the blocks strictly above both the relative threshold and -70, ascending; none when the threshold is NaN |
| LufsMeter.InitialGateEmpty | src/processing/LufsMeter.ts:69-73 | the initial gate is empty exactly when every block is below -70 |
| LufsMeter.FinalGateEmpty | src/processing/LufsMeter.ts:89-93 | the final gate is empty exactly when no block exceeds both the threshold and -70 |
| LufsMeter.SumOfMeansIsMeanOfSums | src/processing/LufsMeter.ts:75-84 | summing the channels' gated means equals the gated mean of the channel-summed block energies |
| LufsMeter.RelativeThreshold | src/processing/LufsMeter.ts:75-86 | the threshold is missing (NaN) exactly when the initial gate is empty; otherwise it is 10 LU below the loudness of the mean gated energy |
| LufsMeter.Integrated | src/processing/LufsMeter.ts:95-109 | integrated loudness is -70 when the final gate is empty; otherwise it is -0.691 + 10 log10 of the mean energy over the final-gated blocks |
| LufsMeter.MaxOf | src/processing/LufsMeter.ts:115 | the maximum is one of the entries and is at least every entry |
| LufsMeter.MeasureTable | src/processing/LufsMeter.ts:57-116 | from the table: the block loudness of every block, one per block; threshold missing exactly when every block is below -70; integrated -70 when no block passes the final gate; the maximum is a block loudness and bounds them all |
| LufsMeter.MeasureTableValues | src/processing/LufsMeter.ts:69-109 | the threshold, when present, is 10 LU below the loudness of the mean channel-summed energy over the initially gated blocks; with a non-empty final gate the integrated loudness is -0.691 + 10 log10 of the mean energy over the finally gated blocks |
| LufsMeter.MeasureFiltered | src/processing/LufsMeter.ts:30-116 | weighted channels are measured through the block table of the shortest channel's geometry, so every `MeasureTable` fact holds, with numBlocks >= 1 blocks |
| LufsMeter.Measure | src/processing/LufsMeter.ts:26-117 | `measure` yields a result exactly when both K-weighting stages are finite, always at 48000 Hz; the result is the measurement of the K-weighted channels, so it carries every `MeasureFiltered` fact and at least one block |
| LufsProperties.LoudnessOrder | src/processing/LufsMeter.ts:57-65 | with log10 increasing, block loudness orders blocks exactly as energy does, strictly and non-strictly |
| LufsProperties.FinalGateWithinInitial | src/processing/LufsMeter.ts:69-93 | every finally gated block is in the initial gate, and with a NaN threshold the final gate is empty |
| LufsProperties.GatedEnergyPositive | src/processing/LufsMeter.ts:64-86 | every block passing the absolute gate has positive energy, so the relative threshold never takes log10 of zero |
| LufsProperties.KWeightingOfSilence | src/processing/LufsMeter.ts:119-134 | silent channels stay silent through the K-weighting |
| LufsProperties.TableOfSilence | src/processing/LufsMeter.ts:46-56 | silent channels give an all-zero block table |
| LufsProperties.SilentTableMeasuresAtGate | src/processing/LufsMeter.ts:57-109 | an all-zero table puts every block at the loudness of zero energy, leaves the threshold missing and integrates to -70 |
| LufsProperties.SilenceMeasuresAtGate | src/processing/LufsMeter.ts:26-117 | measuring silence gives -70 LUFS integrated, no relative threshold, and every block at the loudness of zero energy |
| LufsProperties.SameEnergiesSameMeasurement | src/processing/LufsMeter.ts:57-116 | two block tables with the same channel-summed energies give the same measurement |
| LufsProperties.EnergiesWithSilentChannel | src/processing/LufsMeter.ts:46-64 | a silent extra channel leaves every block's energy unchanged |
| LufsProperties.SilentFilteredChannelChangesNothing | src/processing/LufsMeter.ts:33-116 | appending a zero weighted channel, at least as long as the shortest, leaves the measurement unchanged |
| LufsProperties.SilentChannelChangesNothing | src/processing/LufsMeter.ts:26-117 | appending a silent input channel, at least as long as the shortest, leaves the whole measurement unchanged |
| LufsProperties.HighPassConversionAtReference | src/processing/IirFilter.ts:26 | for the high-pass design, the branch as written at the reference warping returns a[1] = +1.99004745483398 instead of the design's -1.99004745483398, while the corrected branch returns the design |

## Left out

- Float32 storage is not modelled. The source keeps outputs, `blockRms` and `blockLoudness` in `Float32Array`s and computes in IEEE doubles. The model uses exact reals.
- The transcendental functions are not modelled. `sqrt`, `atan`, `tan` and `log10` are uninterpreted parameters. Lemmas state the few facts they use as hypotheses.
- NaN and Infinity do not propagate. Non-finite converted coefficients become `None`, and `LufsMeter.Measure` then returns `None`. The source would instead run the filters with NaN coefficients.
- Rates below 4 Hz are excluded by a precondition. There `hopSize` is 0 and line 36 divides by zero.
- An empty channel list is excluded by a precondition. There `Math.min()` is Infinity.
- Zero-length channels are excluded by a precondition.
- In-place updates are modelled by value. `convertToSampleRate` overwrites the caller's arrays, and `process` overwrites the stage's histories. The model returns new triples, and `Process` returns the updated stage. The K-weighting passes fresh array literals each time, so no caller observes the overwrite.
- No frequency-response property of the converted branch is claimed, such as preserving the corner frequency or the DC gain. The only claim is the round trip at the reference warping.
- The parametric gain/Q/frequency constructor is not modelled. The doc comment at IirFilter.ts:37-43 describes it, but the code has no such constructor.
- The private `mean` at LufsMeter.ts:137-143 is not modelled, because nothing calls it.
- Per-channel weights are not modelled. The source fixes them at 1 (the TODOs at lines 63, 83 and 106).
- The JavaScript limit on the argument count of `Math.max(...blockLoudness)` is not modelled.
- The React page, audio decoding, logging and the Next.js configuration are not modelled, because they are presentation and I/O.
- IirFilter.Construct: at rates other than 48000 it builds the stage from the corrected conversion, not from line 26 as written (see Findings). `IirFilter.CorrectionOnlyNegatesPole` states the whole difference: the same stages, except that a[1] has the opposite sign.
- LufsMeter.KWeightingStages: at rates other than 48000 both stages carry the corrected a[1] from `IirFilter.Construct`, not line 26 as written. At 48000 Hz, where the early return skips line 26, both agree.
- LufsMeter.ApplyKWeighting: at rates other than 48000 it filters through stages with the corrected a[1], not line 26 as written.
- LufsMeter.ApplyKWeighting: at rates other than 48000 its contract states only the length. There the coefficients come from the uninterpreted sqrt, atan and tan, so the cascade's content cannot be stated without restating the body; it is stated for silence by `LufsProperties.KWeightingOfSilence`.
- LufsMeter.KWeighting: at rates other than 48000 every channel is filtered through stages with the corrected a[1], not line 26 as written.
- LufsMeter.KWeighting: at rates other than 48000 its contract states only the lengths, for the same reason as `LufsMeter.ApplyKWeighting`; silence is covered by `LufsProperties.KWeightingOfSilence`.
- LufsMeter.Measure: at rates other than 48000 it measures channels K-weighted through stages with the corrected a[1], so it models the meter as intended rather than as written. At 48000 Hz the two agree.
- IirFilter.Response: its contract states only the length. `IirFilter.ResponseRecurrence`, `IirFilter.Process` and `IirFilter.Continuation` state what it computes.

## Findings

| source | as written | input that shows it | evidently intended | confidence | as-written member | corrected member |
|---|---|---|---|---|---|---|
| src/processing/IirFilter.ts:26 | a[1] = 2 (1 - newK^2) commonFactor | any rate other than 48000, e.g. 44100, with the high-pass design [1, -1.99004745483398, 0.99007225036621]: newK is small, so a[1] comes out near +1.99 instead of near -1.99, moving the pole next to the Nyquist frequency; at the reference warping newK = k the branch returns a[1] = +1.99004745483398 | a[1] = 2 (newK^2 - 1) commonFactor, the bilinear-transform value, which gives back the 48 kHz design at newK = k | high; not executed | IirFilter.AsWrittenNegatesPole | IirFilter.ConvertRoundTrip |

`IirFilter.ConvertToSampleRateAsWritten` and `IirFilter.ConvertGeneralAsWritten`
keep the line as written. `IirFilter.ConvertToSampleRate`, which the meter
uses, carries the corrected sign. The finding does not change anything at
48000 Hz, where the early return skips the line.
