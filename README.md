# Sonar simulation core, modelled in Dafny

This project models the logic of a browser sonar training simulator. Its
targets (surface ships and submarines) move through the water. A listener
senses each target's range, bearing and signal-to-noise ratio (SNR). The
operator follows the targets on these displays:

- a LOFAR waterfall (a frequency spectrum scrolling over time);
- a DEMON analysis (blade rate from the envelope of the propeller noise);
- a TMA plot (target motion analysis: bearings over time).

The modules, one per source file:

- `SonarTypes` (`types.dfy`): the shared value types. They are vectors,
  acoustic signatures, targets, classification status and bearing readings.
  Two host operations, `Math.sqrt` and `Math.atan2` in degrees, are passed
  in as a `MathLib` value with the properties the model relies on.
- `SonarStore` (`sonar_store.dfy`): the application store.
  - A `Store` class holds the target list, the per-target bearing
    histories, the LOFAR history, the listener and the time compression.
  - Its setters are modelled, and so is the per-frame `update` tick. The
    tick moves every target, recomputes course, speed, bearing, range and
    SNR, decides detection, advances UNDETECTED to DETECTED, and may record
    a noisy bearing fix.
- `Audio` (`audio_engine.dfy`): the audio engine's voice registry and
  its parameter logic.
  - Each target has three nodes under one id: a panner, a noise source and
    a low-pass filter.
  - Also modelled: the initialisation guard, the Doppler playback rate, the
    depth-dependent filter cutoff and the master-gain clamp.
- `Demon` (`demon_processor.dfy`): the DEMON processor. It has a
  circular sample buffer (an `array`) and peak picking against half the
  maximum. It also has the blade-rate estimate from the mean peak spacing
  and a confidence from the waveform's standard deviation.
- `Lofar` (`lofar_processor.dfy`): the LOFAR processor's band selection
  up to 1 kHz and its low-quarter waterfall line.
- `Waterfall` (`waterfall_display.dfy`): the waterfall display's
  procedural spectrum.
  - It starts from a noise floor and merges in each detected target's
    engine line and harmonics by maximum, in an `array`.
  - A history of at most 200 lines is kept.
- `ListenerControls` (`listener_controls.dfy`): the 15-degree heading
  buttons.
- `Tma` (`tma_plotter.dfy`): the TMA plotter's data preparation. It finds
  the time range, lays out 5-second buckets and writes each reading's
  bearing into its bucket.

Values the host supplies become parameters:

- `Math.random()` is a `Draw` per target per tick, and a `noise` sequence
  per waterfall line.
- `Date.now()` is a `now: int`.
- The analyser's current buffer is a `values` or `waveform` sequence.
- The audio context's sample rate is a `sampleRate` value.

Some behaviours of the code a reader may not expect; the model follows the
code:

- `classifyTarget` sets any status, so it can lower a target's rank
  (`ReclassifyCanLowerRank`). The lifecycle is monotone only under the
  tick.
- The recorded bearing is the computed bearing plus jitter, and it is not
  wrapped again. It can therefore fall slightly outside [0, 360).
- The audio engine measures range and radial velocity from the origin,
  not from the listener. Its Doppler ratio `1500 / (1500 - v)` raises the
  rate for a receding target and lowers it for an approaching one.
- The waterfall uses its own SNR (`40 - 0.05·distance`), not the store's.
- The tick never updates `depth`.

## Model

| member | source | states |
|---|---|---|
| SonarTypes.Clamp | src/audio/AudioEngine.ts:158 | the clamped value lies in [lo, hi], and a value already inside is returned unchanged |
| SonarTypes.JsRem | src/store/sonarStore.ts:146 | the host remainder of a non-negative number by m lies in [0, m) |
| SonarTypes.JsIntRem | src/three/ListenerControls.tsx:11 | on a non-negative integer the host remainder agrees with the mathematical modulus |
| SonarTypes.LastN | src/store/sonarStore.ts:113 | `slice(-n)` has length min(length, n) |
| SonarTypes.LastNIsSuffix | src/store/sonarStore.ts:105 | `slice(-n)` is a suffix of its input of at most n elements |
| SonarStore.RangeSquared | src/store/sonarStore.ts:144-149 | the squared horizontal range is never negative |
| SonarStore.BearingIsJsRemainder | src/store/sonarStore.ts:146 | for atan2 in [-180, 180], the wrap used by the model equals the host's `(a + 360) % 360` and lies in [0, 360) |
| SonarStore.Sense | src/store/sonarStore.ts:144-153 | the sensed bearing lies in [0, 360) |
| SonarStore.SenseGeometry | src/store/sonarStore.ts:144-149 | the bearing is exactly the host remainder expression, and the distance is the non-negative root of dx² + dz² |
| SonarStore.TickAll | src/store/sonarStore.ts:128 | the tick keeps the number of targets |
| SonarStore.TickAllEach | src/store/sonarStore.ts:128-176 | the tick keeps the targets' order: element i of the result is target i ticked, so the per-target lemmas apply to the store's list |
| SonarStore.TickLoop | src/store/sonarStore.ts:128-176 | the loop returns every target ticked in order, and the bearing history after every per-target fix has been recorded in order |
| SonarStore.Store.constructor | src/store/sonarStore.ts:64-79 | the initial state: the two default targets at (500, 0) and (-300, 400), gain 0.7, empty histories, listener at (0, -30, 0) facing 0, compression 1 |
| SonarStore.Store.AddTarget | src/store/sonarStore.ts:82-84 | the target is appended at the end of the list |
| SonarStore.Store.UpdateTargetPosition | src/store/sonarStore.ts:86-90 | the list becomes the position/velocity rewrite of the matching targets (see RepositionOnlyMatching) |
| SonarStore.Store.SelectTarget | src/store/sonarStore.ts:92 | the selection is set to the given id or none |
| SonarStore.Store.ClassifyTarget | src/store/sonarStore.ts:94-98 | the list becomes the classification rewrite of the matching targets (see ReclassifyOnlyMatching) |
| SonarStore.Store.SetMasterGain | src/store/sonarStore.ts:100 | the store keeps the gain as given, unclamped |
| SonarStore.Store.SetAudioInitialized | src/store/sonarStore.ts:102 | the flag is set as given |
| SonarStore.Store.AddLofarData | src/store/sonarStore.ts:104-106 | the LOFAR history becomes its last 100 lines plus the new line stamped with the clock, and so never exceeds 101 lines |
| SonarStore.Store.AddBearingReading | src/store/sonarStore.ts:110-115 | the target's history becomes the last 200 of old-plus-new, and every history stays within 200 readings |
| SonarStore.Store.SetListenerPosition | src/store/sonarStore.ts:117 | the listener moves to the given position |
| SonarStore.Store.SetListenerRotation | src/store/sonarStore.ts:119 | the listener heading is set as given |
| SonarStore.Store.SetTimeCompression | src/store/sonarStore.ts:123 | the compression factor is set as given |
| SonarStore.Store.Update | src/store/sonarStore.ts:125-179 | the targets become each target ticked by compression × deltaTime, the bearing histories gain the fixes of that tick, and every history stays within 200 readings |
| SonarStore.TickTarget | src/store/sonarStore.ts:128-176 | the tick keeps a target's id, velocity, depth and signature and never lowers its classification rank |
| SonarStore.FixOf | src/store/sonarStore.ts:155-161 | a fix exists exactly when the target is detected and its draw is under 0.3, and it carries the tick's clock |
| SonarStore.TickComposes | src/store/sonarStore.ts:130-134 | the tick keeps id, velocity, depth and signature; two ticks move a target exactly as far as one tick of the summed time |
| SonarStore.DetectedIffWithinRange | src/store/sonarStore.ts:149-153 | a target is detected exactly when its new range is below 2000·cavitation − 10 |
| SonarStore.SnrDecreasing | src/store/sonarStore.ts:152 | for a noisy target the SNR strictly falls as range grows |
| SonarStore.TickNeverLowersClassification | src/store/sonarStore.ts:172-174 | the tick never lowers the classification rank; its only change is UNDETECTED to DETECTED, for a detected target |
| SonarStore.FixBounds | src/store/sonarStore.ts:156-161 | a fix is recorded exactly when the target is detected and its draw is under 0.3; it is stamped with the clock, its confidence lies in (0.25, 1] and its bearing lies within 2.5° of the computed bearing |
| SonarStore.AppendReadingSpec | src/store/sonarStore.ts:110-115 | the key set gains the id; the new history is non-empty, at most 200 long, ends with the reading and is a suffix of old-plus-new; other histories are unchanged; the 200 bound is preserved |
| SonarStore.AppendAllKeepsLast | src/store/sonarStore.ts:113 | after any run of appends the history is exactly the last 200 of everything appended |
| SonarStore.RecordFixesBounded | src/store/sonarStore.ts:162-163 | the tick's in-place recording keeps every history within 200 readings |
| SonarStore.RecordFixesOnlyDetected | src/store/sonarStore.ts:155-164 | a target undetected after the tick gains no reading: its history and its presence are unchanged |
| SonarStore.AddLofarSpec | src/store/sonarStore.ts:104-106 | the new LOFAR history has 1 to 101 lines, ends with the new line, and its front is a suffix of the old history |
| SonarStore.ReclassifyOnlyMatching | src/store/sonarStore.ts:94-98 | only targets with the id change, and only their classification; length and order are kept; an unknown id changes nothing |
| SonarStore.RepositionOnlyMatching | src/store/sonarStore.ts:86-90 | only targets with the id change, and only their position and velocity; length and order are kept; an unknown id changes nothing |
| SonarStore.ReclassifyCanLowerRank | src/store/sonarStore.ts:94-98 | an IDENTIFIED target can be set straight back to UNDETECTED |
| SonarStore.InitialTargetsDetected | src/store/sonarStore.ts:52-79 | on a first tick of any length from 0 to 40 s of simulated time (compression × deltaTime), both default targets stay within 580 units of the initial listener, inside their 590-unit reach, and are detected and become DETECTED |
| Audio.DopplerRate | src/audio/AudioEngine.ts:138-144 | the playback rate always lies in [0.5, 2] |
| Audio.DepthCutoff | src/audio/AudioEngine.ts:148-154 | the cutoff is at least 200 Hz; it is 2000 − 10·depth down to 180 m and 200 Hz beyond |
| Audio.OriginDistance | src/audio/AudioEngine.ts:127-130 | the distance from the origin is non-negative and zero on the vertical axis |
| Audio.AudioEngine.constructor | src/audio/AudioEngine.ts:12-18 | no voices, not initialised, gain 0.7, listener at the origin |
| Audio.AudioEngine.Initialize | src/audio/AudioEngine.ts:20-31 | initialises once; a second call changes nothing |
| Audio.AudioEngine.SetListenerPosition | src/audio/AudioEngine.ts:33-45 | the listener moves only after initialisation |
| Audio.AudioEngine.AddTarget | src/audio/AudioEngine.ts:47-93 | after initialisation a new id gets a panner at its position, noise playing at rate 1 and a 1000 Hz filter; otherwise nothing changes; the three registries keep the same keys |
| Audio.AudioEngine.RemoveTarget | src/audio/AudioEngine.ts:95-110 | the id leaves all three registries and nothing else changes |
| Audio.AudioEngine.UpdateTarget | src/audio/AudioEngine.ts:112-155 | an unknown target is registered; a known one has its panner moved, its rate set to the Doppler rate when off the axis, and its cutoff set from depth |
| Audio.AudioEngine.SetMasterGain | src/audio/AudioEngine.ts:157-159 | the gain is clamped into [0, 1] |
| Audio.AudioEngine.Dispose | src/audio/AudioEngine.ts:167-172 | every voice is removed |
| Audio.DopplerRanges | src/audio/AudioEngine.ts:138-144 | radial speeds in [-1500, 750] are not clipped; sound speed gives 2; faster than sound gives 0.5 |
| Audio.DopplerDirection | src/audio/AudioEngine.ts:132-144 | receding speeds the voice up, approaching slows it down, and a stationary target plays at rate 1 |
| Audio.DopplerMonotone | src/audio/AudioEngine.ts:138-144 | below sound speed the rate never decreases with radial velocity |
| Audio.DepthCutoffValues | src/audio/AudioEngine.ts:148-154 | 1500 Hz at 50 m, 200 Hz at 200 m, and deeper never sounds brighter |
| Demon.RingWrite | src/audio/processors/DEMONProcessor.ts:52-57 | the ring write keeps the buffer length |
| Demon.SeqMax | src/audio/processors/DEMONProcessor.ts:76 | the maximum bounds every sample and is attained by one |
| Demon.SumSquaredDeviation | src/audio/processors/DEMONProcessor.ts:107-114 | the summed squared deviation from the mean is never negative, so the variance has a square root |
| Demon.Peaks | src/audio/processors/DEMONProcessor.ts:75-90 | every index listed is a strict local maximum above half the buffer maximum (see PeaksShape for the converse) |
| Demon.PeakRate | src/audio/processors/DEMONProcessor.ts:92-105 | with a positive sample rate the peak-spacing rate is never negative |
| Demon.Confidence | src/audio/processors/DEMONProcessor.ts:107-114 | the confidence lies in [0, 1] |
| Demon.DemonProcessor.constructor | src/audio/processors/DEMONProcessor.ts:13-16 | a zeroed buffer of the given size (4096 by default), write index 0 |
| Demon.DemonProcessor.Process | src/audio/processors/DEMONProcessor.ts:46-73 | the waveform is written into the ring; the blade rate is the peak-spacing rate of the whole buffer's peaks, 0 with at most one peak, never negative; the confidence comes from the waveform; the envelope is the waveform |
| Demon.DemonProcessor.WriteSamples | src/audio/processors/DEMONProcessor.ts:52-57 | the buffer equals the ring-write specification, and the index advances by the sample count modulo the size |
| Demon.DemonProcessor.FindPeaks | src/audio/processors/DEMONProcessor.ts:75-90 | the result is exactly the peak specification |
| Demon.DemonProcessor.EstimateFrequencyFromPeaks | src/audio/processors/DEMONProcessor.ts:92-105 | the estimate equals sampleRate·(n−1)/(last−first), or 0 without positive spacing; the buffer size cancels out |
| Demon.RingWriteHoldsLatest | src/audio/processors/DEMONProcessor.ts:52-57 | each of the last buffer-size samples sits at its slot (idx + k) mod size |
| Demon.RingWriteKeepsUntouched | src/audio/processors/DEMONProcessor.ts:52-57 | a slot no sample maps to keeps its old value |
| Demon.PeaksShape | src/audio/processors/DEMONProcessor.ts:75-90 | the peaks strictly increase, lie in [1, len−2], and an index is listed exactly when it is a strict local maximum above half the maximum |
| Demon.NoPeaksWithoutPositiveMaximum | src/audio/processors/DEMONProcessor.ts:76-86 | a buffer whose maximum is not positive has no peaks |
| Demon.PeakRatePositive | src/audio/processors/DEMONProcessor.ts:92-105 | two or more increasing peaks give a positive rate |
| Demon.PeakRateNonNegative | src/audio/processors/DEMONProcessor.ts:92-105 | the rate is never negative |
| Demon.ConstantWaveformHasNoConfidence | src/audio/processors/DEMONProcessor.ts:107-114 | a flat waveform has confidence 0 |
| Lofar.BandUpTo | src/audio/processors/LOFARProcessor.ts:28-34 | the two lists have equal length, at most the bin count, and every kept frequency is at most 1000 Hz |
| Lofar.LofarProcessor.constructor | src/audio/processors/LOFARProcessor.ts:8-17 | the FFT size (2048 by default) and the context sample rate are recorded |
| Lofar.LofarProcessor.GetFrequencyData | src/audio/processors/LOFARProcessor.ts:23-37 | the result equals the band specification over all bins |
| Lofar.WaterfallLine | src/audio/processors/LOFARProcessor.ts:39-42 | the line is the first ⌊len/4⌋ magnitudes unchanged |
| Lofar.BinFrequencyIncreasing | src/audio/processors/LOFARProcessor.ts:29 | with a positive sample rate, bin frequencies strictly increase |
| Lofar.BandIsPrefix | src/audio/processors/LOFARProcessor.ts:28-34 | the kept magnitudes are a prefix of the spectrum, frequency j is bin j's, and a bin is kept exactly when its frequency is at most 1 kHz |
| Lofar.BandIncreasing | src/audio/processors/LOFARProcessor.ts:23-37 | the returned frequencies strictly increase |
| Waterfall.NoiseLine | src/components/WaterfallDisplay.tsx:22-24 | one noise value per draw |
| Waterfall.MaxInto | src/components/WaterfallDisplay.tsx:41 | only bin i can change, it becomes the larger of old and new, and no bin falls |
| Waterfall.Spectrum | src/components/WaterfallDisplay.tsx:18-58 | with the spread guarded (see Findings), a line always has 256 bins |
| Waterfall.MaxIntoArray | src/components/WaterfallDisplay.tsx:41 | the array equals the max-merge specification |
| Waterfall.AddFundamental | src/components/WaterfallDisplay.tsx:39-45 | the guarded fundamental-plus-spread keeps the line length; it is the corrected half of the Findings row (see the Waterfall.AddFundamental line under Left out, and FundamentalLevels for the levels reached) |
| Waterfall.AddHarmonics | src/components/WaterfallDisplay.tsx:48-53 | merging the harmonics keeps the line length (levels in HarmonicLevelReached and HarmonicsNeverLower) |
| Waterfall.AddTargetLine | src/components/WaterfallDisplay.tsx:28-55 | drawing one target keeps the line length (quiet targets in QuietTargetLeavesLine) |
| Waterfall.FoldTargets | src/components/WaterfallDisplay.tsx:27-56 | drawing every target in order keeps the line length (never lowering a bin, FoldNeverLowers) |
| Waterfall.AddTargetSignal | src/components/WaterfallDisplay.tsx:27-55 | the array becomes the target-line specification |
| Waterfall.AddFundamentalArray | src/components/WaterfallDisplay.tsx:39-45 | the array becomes the guarded fundamental-plus-spread specification |
| Waterfall.AddHarmonicsArray | src/components/WaterfallDisplay.tsx:48-53 | the array becomes the harmonics specification, under which each harmonic on the line reaches its level (see HarmonicLevelReached) |
| Waterfall.GenerateFFTData | src/components/WaterfallDisplay.tsx:18-58 | the generated line equals the spectrum specification: noise floor, then every target merged in order |
| Waterfall.WaterfallHistory.constructor | src/components/WaterfallDisplay.tsx:11 | the history starts empty |
| Waterfall.WaterfallHistory.Draw | src/components/WaterfallDisplay.tsx:67-73 | the history becomes the last 200 of old-plus-new-line and never exceeds 200 |
| Waterfall.NoiseFloorRange | src/components/WaterfallDisplay.tsx:22-24 | with draws in [0, 1) every bin starts in [-80, -70) dB |
| Waterfall.BinInRange | src/components/WaterfallDisplay.tsx:39-40 | a non-negative frequency maps to bin ≥ 0, and to a bin on the line exactly when it is below 1000 Hz |
| Waterfall.WaterfallSnrThreshold | src/components/WaterfallDisplay.tsx:35-37 | a target is drawn exactly when it is closer than 700 units |
| Waterfall.QuietTargetLeavesLine | src/components/WaterfallDisplay.tsx:28-37 | undetected or distant targets leave the line unchanged |
| Waterfall.FundamentalLevels | src/components/WaterfallDisplay.tsx:39-45 | the engine bin rises to at least −40 + snr and its neighbours to at least −45 + 0.8·snr; every other bin is unchanged |
| Waterfall.HarmonicsNeverLower | src/components/WaterfallDisplay.tsx:48-53 | merging harmonics never lowers a bin |
| Waterfall.HarmonicLevelReached | src/components/WaterfallDisplay.tsx:48-52 | harmonic idx whose bin is on the line lifts that bin to at least −50 + 0.7·snr/(idx+1) dB, whatever the other harmonics do |
| Waterfall.FoldNeverLowers | src/components/WaterfallDisplay.tsx:27-55 | merging targets never lowers a bin below the noise floor it started from |
| Waterfall.TopBinSpreadGrowsLine | src/components/WaterfallDisplay.tsx:39-45 | as written, a 997 Hz engine lands in bin 255 and the spread makes the line 257 long, ending in NaN |
| Waterfall.TopBinSpreadKeepsLength | src/components/WaterfallDisplay.tsx:39-45 | with every write guarded, the line stays 256 long and the top bin is raised |
| ListenerControls.RotateLeft | src/three/ListenerControls.tsx:10-12 | the heading stays within (−360, 360), and within [0, 360) from any heading ≥ −345 |
| ListenerControls.RotateRight | src/three/ListenerControls.tsx:14-16 | the heading stays within (−360, 360), and within [0, 360) from any heading ≥ −15 |
| ListenerControls.RotationsInverse | src/three/ListenerControls.tsx:10-16 | on [0, 360) left undoes right and right undoes left |
| ListenerControls.RotateRightNClosedForm | src/three/ListenerControls.tsx:14-16 | n right presses add 15·n degrees modulo 360 |
| ListenerControls.RightPressesFromNorth | src/three/ListenerControls.tsx:14-16 | from north, every heading reached by right presses alone is a multiple of 15 in [0, 360) |
| ListenerControls.PressKeepsGrid | src/three/ListenerControls.tsx:10-16 | either button maps a multiple of 15 in [0, 360) to another one |
| ListenerControls.PressesStayOnGrid | src/three/ListenerControls.tsx:10-16 | any sequence of left and right presses from a heading on the grid, such as the initial 0, stays a multiple of 15 in [0, 360) |
| ListenerControls.FullTurnOfPresses | src/three/ListenerControls.tsx:14-16 | 24 right presses come back to the starting heading |
| Tma.Tag | src/components/TMAPlotter.tsx:28-29 | each reading of a history is paired with its target's id, in order |
| Tma.Scan | src/components/TMAPlotter.tsx:27-33 | the range stays infinite exactly while no reading has been seen, and min ≤ max is kept |
| Tma.TimeRange | src/components/TMAPlotter.tsx:24-35 | there is no range exactly when there are no readings, and min ≤ max |
| Tma.EmptyBuckets | src/components/TMAPlotter.tsx:41-43 | n buckets are laid out |
| Tma.Record | src/components/TMAPlotter.tsx:52-55 | writing a bearing keeps the bucket count |
| Tma.Fill | src/components/TMAPlotter.tsx:46-57 | filling keeps the bucket count |
| Tma.ScanHistory | src/components/TMAPlotter.tsx:29-32 | one history widens the running range as the scan specification says |
| Tma.ScanTimeRange | src/components/TMAPlotter.tsx:24-33 | the loop's range equals the time-range specification over all readings |
| Tma.LayOutBuckets | src/components/TMAPlotter.tsx:38-43 | the loop lays out one empty bucket per key lo, lo + 5000, … up to hi |
| Tma.RecordReading | src/components/TMAPlotter.tsx:49-55 | one reading's bearing is written into its window's bucket, if there is one |
| Tma.FillHistory | src/components/TMAPlotter.tsx:48-56 | one history's readings are written in order |
| Tma.FillBearings | src/components/TMAPlotter.tsx:46-57 | every reading, by target then by history, is written as the fill specification says |
| Tma.PrepareData | src/components/TMAPlotter.tsx:20-60 | the rows equal the windowed specification of `prepareData` |
| Tma.TimeRangeExtremes | src/components/TMAPlotter.tsx:24-33 | the range bounds every timestamp, and both ends are attained |
| Tma.EntriesCoverHistory | src/components/TMAPlotter.tsx:27-28 | every target's history is among the visited readings |
| Tma.SilentTargetsNoEntries | src/components/TMAPlotter.tsx:27-33 | targets with empty histories contribute no readings |
| Tma.NoEntriesIff | src/components/TMAPlotter.tsx:27-35 | there are no readings exactly when every target's history is empty |
| Tma.Prepare | src/components/TMAPlotter.tsx:20-60 | no rows are returned exactly when there are no readings (line 35); its rows are the buckets filled by the chosen key rule |
| Tma.PreparedBuckets | src/components/TMAPlotter.tsx:24-57 | with readings present, every reading lies between minTime and maxTime and the rows are the empty buckets of that range filled by the readings in order |
| Tma.Key | src/components/TMAPlotter.tsx:49-52 | a reading's key opens the 5-second window holding it (key ≤ ts < key + 5000); as written the key is a multiple of 5000, windowed it lies a multiple of 5000 past minTime |
| Tma.BucketCountCovers | src/components/TMAPlotter.tsx:41 | the last key is at most maxTime and the next one would be beyond it |
| Tma.SlotOfKeys | src/components/TMAPlotter.tsx:52 | a key names bucket k exactly when it is minTime + 5000·k for k below the count |
| Tma.EmptyBucketsShape | src/components/TMAPlotter.tsx:41-43 | bucket k starts at 5·k seconds with no bearings |
| Tma.FillKeepsTimes | src/components/TMAPlotter.tsx:46-57 | writing bearings never changes a bucket's time |
| Tma.BucketTimes | src/components/TMAPlotter.tsx:38-43 | one row per key up to maxTime, row k at 5·k seconds, rows strictly ascending |
| Tma.RecordElsewhere | src/components/TMAPlotter.tsx:52-55 | a reading leaves every other (row, target) pair unchanged |
| Tma.FillUntouched | src/components/TMAPlotter.tsx:46-57 | a (row, target) pair that no reading lands on keeps its value |
| Tma.FillLastWins | src/components/TMAPlotter.tsx:46-57 | the last reading landing on a (row, target) pair is the bearing shown |
| Tma.WindowedSlot | src/components/TMAPlotter.tsx:41-52 | under windowed keys every in-range reading finds its window's row |
| Tma.WindowedRecorded | src/components/TMAPlotter.tsx:46-57 | under windowed keys each reading's id appears in its window's row |
| Tma.WindowedLatest | src/components/TMAPlotter.tsx:46-57 | under windowed keys a row shows a target's latest reading in that window |
| Tma.WindowedOnlyReadings | src/components/TMAPlotter.tsx:46-57 | under windowed keys a row only shows targets with a reading in its window |
| Tma.WindowedRecordsEveryReading | src/components/TMAPlotter.tsx:20-60 | in the chart, every reading's target is in its window's row, each row shows the latest such reading, and nothing else appears |
| Tma.LastLanding | src/components/TMAPlotter.tsx:46-57 | among the readings landing on a (row, target) pair there is a last one |
| Tma.AsWrittenMissesUnaligned | src/components/TMAPlotter.tsx:49-52 | a key rounded to a multiple of 5000 never names a row when minTime is not a multiple of 5000 |
| Tma.FillNothingLands | src/components/TMAPlotter.tsx:46-57 | if no reading finds a row, the fill changes nothing |
| Tma.AsWrittenDropsEveryBearing | src/components/TMAPlotter.tsx:20-60 | as written, with readings whose earliest time is not on a 5000 ms boundary, the chart has rows but no bearing in any row |
| Tma.UnalignedHistoryExample | src/components/TMAPlotter.tsx:20-60 | readings at 1001 ms and 7003 ms: as written both rows are empty; windowed they show 10° and 20° |

## Left out

- Rendering is not modelled: canvases, charts, React components and the 3-D scene. The displays are modelled only by the data they compute.
- Audio graph nodes are not modelled: Tone.js node construction, connections, `Tone.start()` and the analyser itself. A node is represented by the parameters the engine writes into it.
- `getAnalyserData` (AudioEngine.ts:161-165) always returns `null` and is not modelled.
- The processors' `connect` and `dispose` methods only wire or free audio nodes and are not modelled.
- `setDEMONData` and `setActiveDisplay` (sonarStore.ts:108, 121) only store a value that no modelled code reads, and are not modelled.
- Audio.AudioEngine.SetListenerPosition: the listener's forward vector from sin/cos of the rotation is not modelled, since trigonometry is host floating point. Only the position update is modelled.
- Audio.AudioEngine.Dispose: the Map's `forEach` visiting order is not modelled. The voices are removed in an arbitrary order, which gives the same end state.
- Audio.OriginDistance: only zero on the vertical axis is stated, not the converse.
- Audio.AudioEngine.AddTarget: the per-target gain node `Tone.Gain(cavitationLevel * 0.5)` (AudioEngine.ts:78) is not modelled. The voice records only panner position, noise rate and filter cutoff.
- Audio.AudioEngine.Dispose: `masterGain.dispose()` (AudioEngine.ts:171) frees an audio node and is not modelled.
- Demon.DemonProcessor.Process requires a non-empty waveform and a positive sample rate. On an empty waveform the host computes NaN for the confidence (0/0), and NaN is not a real number.
- SonarStore.Store.Update: in the source the tick appends fixes to the live bearing-history map in place (sonarStore.ts:163), so other holders of that map see the change. The model assigns the new history to the field and does not model that aliasing.
- SonarStore.Store.SetListenerRotation: the heading is an integer. The buttons only ever produce whole degrees from 0.
- Floating point is modelled as exact reals. `Math.sqrt` and `Math.atan2` are supplied with the properties the model needs (non-negative square roots; atan2 in [-180, 180] degrees). Rounding, Infinity and NaN are left out, except where modelled explicitly (Doppler at sound speed, NaN in the waterfall finding).
- Tma: a target whose id is the string `time` would overwrite a row's time field in the source. Rows here keep `time` and the bearing map apart.
- Waterfall: negative engine or harmonic frequencies give negative bins, which the source writes as named properties of the array. The model ignores such writes, so they never reach the line.
- Tma.PrepareData uses the windowed key, the corrected half of the TMA row under Findings. The as-written key `floor(ts / 5000) * 5000` (TMAPlotter.tsx:49-51) is modelled by `Key(AsWritten, …)` and the lemmas about it.
- Tma.RecordReading, Tma.FillHistory and Tma.FillBearings also key readings by window (`Key(Windowed, …)`), not by the as-written `floor(ts / 5000) * 5000`.
- Waterfall.AddFundamental, Waterfall.AddFundamentalArray, Waterfall.AddTargetSignal, Waterfall.GenerateFFTData and Waterfall.Spectrum model the guarded spread, the corrected half of the waterfall row under Findings. As written, an engine in bin 255 writes `data[256]` and grows the line to 257 entries ending in NaN (`Waterfall.TopBinSpreadGrowsLine`). The 256-bin length these members promise holds only for the corrected code.

## Findings

| source | as written | input that shows it | evidently intended | confidence | as-written member | corrected member |
|---|---|---|---|---|---|---|
| src/components/WaterfallDisplay.tsx:40-44 | only `fundBin < data.length` is checked before writing `fundBin + 1` and `fundBin - 1` | a detected target within 700 units whose engine is 997 Hz: fundBin is 255, so `data[256]` is written; the line grows to 257 entries and the last is NaN | the spread writes only bins that exist, so the line stays 256 bins | not executed | Waterfall.TopBinSpreadGrowsLine | Waterfall.TopBinSpreadKeepsLength |
| src/components/TMAPlotter.tsx:49-52 | a reading is looked up under `floor(ts / 5000) * 5000`, but the buckets are keyed `minTime + 5000·k` | one target "a" with readings at 1001 ms (10°) and 7003 ms (20°): two rows at 0 s and 5 s, both empty | each reading goes into the row of its 5-second window counted from minTime | not executed | Tma.AsWrittenDropsEveryBearing | Tma.WindowedRecordsEveryReading |
