# Seismograph core in Dafny

A verified model of the processing core of the seismograph application: the part that turns
miniSEED waveform records downloaded from the IRIS service into normalized signals and
earthquake locations, and the part that watches an earthquake catalogue and picks the
stations to download from.

- **Signal extraction** (`MiniSeed`, `SeismicSignalExtractor`, `FourierSeriesComputer`,
  `BlockSamples`):
  - reading data records until end of file, skipping corrupt ones;
  - the BTIME start-time string and its nanoseconds;
  - decoding by encoding code;
  - grouping blocks by channel and merging each channel's blocks in stable start-time order.
- **Normalization** (`NormalizatorSamples`, `SignalNormalization`):
  - merging the accepted blocks;
  - a windowed-sinc FIR low-pass filter and full convolution;
  - cubic-Hermite resampling to 100 Hz;
  - baseline removal, Hamming windowing and peak normalization into [-1, 1].
- **Triangulation** (`SignalMath`, `FftUtils`, `TriangulationPipeline`, `TdoaLocalizer`,
  `CoordinateConverter`, `EarthquakeLocalizer`):
  - demeaning and Hamming windowing;
  - the STA/LTA first-arrival picker;
  - FFT, inverse FFT and FFT cross-correlation with parabolic peak refinement;
  - the Gauss-Newton TDOA solver with its 2x2 Cramer step;
  - the local tangent-plane coordinate conversion;
  - preparing station triples, picking P-wave arrivals and locating every event.
- **Spectrum** (`MainFourierSolver`, `Dataonly`, `Removal`): the zero-padded recursive FFT
  over the two `ReducedComplex` records.
- **Catalogue and download** (`JacksonQuakeParser`, `IrisWaveformsDownloader`,
  `EarthquakeMonitor`, `NormalizedWaveformTxtWriter`):
  - the magnitude and region filter, and the five nearest earthquakes;
  - the nearest-station search with its default-station table, and the retry loop that
    widens the radius after an HTTP 204;
  - the observer subject;
  - the layout and file name of the saved waveform text.

Java `double` is modelled as `real`. `Math.cos`, `Math.sin` and `Math.hypot` are fields of a
`Trig` record passed as a parameter, so every property holds for any implementation of
them. The haversine distance is a parameter in the same way. Where rounding or a loss of precision matters, it is written out:
`Math.round`, the `(int)` cast, `%` on doubles, and 32-bit `int` arithmetic in `hashCode`.
Sorting with `List.sort` is the stable insertion sort `StableSort.SortBy`. Methods with loops
are proved against specification functions, and lemmas state the properties of those
functions. The classes `StationData`, `NormalizatorSamples`, `SignalNormalization`,
`JacksonQuakeParser` and `EarthquakeMonitor` update their fields in place, as the Java
objects do.

Paths below are relative to the repository root.

## Model

| member | source | states |
|---|---|---|
| SignalMath.DemeanedSumsToZero | src/main/java/org/seismograph/utils/fouriersolver/TriangulationPipeline.java:56-65 | the demeaned signal sums to zero |
| SignalMath.HammingWeightBounds | src/main/java/org/seismograph/utils/fouriersolver/TriangulationPipeline.java:81-82 | each Hamming weight 0.54 - 0.46 cos(2 pi i / M) lies in [0.08, 1] whenever the cosine lies in [-1, 1] |
| TriangulationPipeline.Demean | src/main/java/org/seismograph/utils/fouriersolver/TriangulationPipeline.java:56-65 | the output array is the input minus its mean, element by element (`Demeaned`) |
| TriangulationPipeline.ApplyHamming | src/main/java/org/seismograph/utils/fouriersolver/TriangulationPipeline.java:75-87 | the output is the input multiplied by the Hamming window of its own length (M = n - 1) |
| TriangulationPipeline.WindowLengths | src/main/java/org/seismograph/utils/fouriersolver/TriangulationPipeline.java:108-111 | after the adjustment the window lengths satisfy 1 <= staN < ltaN |
| TriangulationPipeline.PrefixEnergies | src/main/java/org/seismograph/utils/fouriersolver/TriangulationPipeline.java:118-128 | `pref` has n + 1 entries and `pref[k]` is the sum of the squares of the first k samples |
| TriangulationPipeline.WindowEnergy | src/main/java/org/seismograph/utils/fouriersolver/TriangulationPipeline.java:135-137 | the difference of two prefix energies is the energy of the window between them |
| TriangulationPipeline.RatioFromPrefix | src/main/java/org/seismograph/utils/fouriersolver/TriangulationPipeline.java:133-140 | the ratio read from the prefix array is the STA/LTA ratio of the window at i (+infinity when the long window has no energy) |
| TriangulationPipeline.ScanSample | src/main/java/org/seismograph/utils/fouriersolver/TriangulationPipeline.java:133-155 | one loop step: a trigger at i is the first trigger from i and yields i - staN; otherwise the search continues at i + 1 |
| TriangulationPipeline.StaLtaPick | src/main/java/org/seismograph/utils/fouriersolver/TriangulationPipeline.java:103-158 | the pick equals the specification `StaLtaSpec` of the samples |
| TriangulationPipeline.FirstTriggerIsFirst | src/main/java/org/seismograph/utils/fouriersolver/TriangulationPipeline.java:133-151 | the scan returns -1 exactly when no index in [from, n-2] triggers; otherwise the first triggering index |
| TriangulationPipeline.FirstTriggerNone | src/main/java/org/seismograph/utils/fouriersolver/TriangulationPipeline.java:133-157 | -1 if and only if no index triggers |
| TriangulationPipeline.FirstTriggerFound | src/main/java/org/seismograph/utils/fouriersolver/TriangulationPipeline.java:145-151 | a found trigger lies in range, triggers, and no earlier index does |
| TriangulationPipeline.FirstTriggerAt | src/main/java/org/seismograph/utils/fouriersolver/TriangulationPipeline.java:133-151 | the scan from i stops at i when the ratio reaches the threshold and otherwise continues from i + 1 |
| TriangulationPipeline.StaLtaSpecMeaning | src/main/java/org/seismograph/utils/fouriersolver/TriangulationPipeline.java:130-157 | the pick is -1 iff no i in [ltaN, n-2] triggers; otherwise it is (first such i) - staN, which is at least 1, so the clamp to 0 never applies |
| TriangulationPipeline.SilentLongWindowTriggers | src/main/java/org/seismograph/utils/fouriersolver/TriangulationPipeline.java:135-145 | a long window of zero energy gives an infinite ratio, which always triggers |
| FftUtils.ConjProperties | src/main/java/org/seismograph/utils/fouriersolver/TriangulationPipeline.java:170-182 | `conj` is an involution and commutes with `mul` and `add` |
| FftUtils.MulDistributes | src/main/java/org/seismograph/utils/fouriersolver/TriangulationPipeline.java:173-177 | complex multiplication distributes over addition |
| FftUtils.NextPow2Of | src/main/java/org/seismograph/utils/fouriersolver/TriangulationPipeline.java:190-192 | the result is a power of two, at least v, and the smallest such (1 for v <= 1) |
| FftUtils.NextPow2 | src/main/java/org/seismograph/utils/fouriersolver/TriangulationPipeline.java:190-192 | the doubling loop returns the smallest power of two that is >= v |
| FftUtils.Evens | src/main/java/org/seismograph/utils/fouriersolver/TriangulationPipeline.java:215-218 | `even[i] = x[2i]`, half the length |
| FftUtils.Odds | src/main/java/org/seismograph/utils/fouriersolver/TriangulationPipeline.java:215-218 | `odd[i] = x[2i+1]`, half the length |
| FftUtils.FftSpec | src/main/java/org/seismograph/utils/fouriersolver/TriangulationPipeline.java:208-235 | the recursive transform preserves the length |
| FftUtils.Fft | src/main/java/org/seismograph/utils/fouriersolver/TriangulationPipeline.java:208-235 | succeeds exactly on power-of-two lengths (the IllegalArgumentException otherwise) and then equals `FftSpec` |
| FftUtils.Combine | src/main/java/org/seismograph/utils/fouriersolver/TriangulationPipeline.java:223-233 | the butterfly loop writes `Fe[k] + w_k Fo[k]` at k and `Fe[k] - w_k Fo[k]` at k + N/2 |
| FftUtils.FftButterfly | src/main/java/org/seismograph/utils/fouriersolver/TriangulationPipeline.java:225-233 | `X[k] + X[k+N/2] = 2 Fe[k]` and `X[k] - X[k+N/2] = 2 w_k Fo[k]` |
| FftUtils.ButterflyPair | src/main/java/org/seismograph/utils/fouriersolver/TriangulationPipeline.java:225-233 | the same sum and difference identities for one butterfly pass |
| FftUtils.FftAdditive | src/main/java/org/seismograph/utils/fouriersolver/TriangulationPipeline.java:208-235 | the transform is additive: FFT(a + b) = FFT(a) + FFT(b) |
| FftUtils.ButterflyAdditive | src/main/java/org/seismograph/utils/fouriersolver/TriangulationPipeline.java:225-233 | one butterfly pass is additive in both halves |
| FftUtils.ConjAll | src/main/java/org/seismograph/utils/fouriersolver/TriangulationPipeline.java:247-248 | conjugates every entry, keeping the length |
| FftUtils.Conjugated | src/main/java/org/seismograph/utils/fouriersolver/TriangulationPipeline.java:247-248 | the conjugated copy is `ConjAll` of the input |
| FftUtils.ConjugateScaled | src/main/java/org/seismograph/utils/fouriersolver/TriangulationPipeline.java:252-253 | `out[i] = conj(fy[i]) * (1/N)` for every i |
| FftUtils.IfftSpec | src/main/java/org/seismograph/utils/fouriersolver/TriangulationPipeline.java:243-255 | the inverse transform preserves the length |
| FftUtils.Ifft | src/main/java/org/seismograph/utils/fouriersolver/TriangulationPipeline.java:243-255 | succeeds exactly on power-of-two lengths and then equals `IfftSpec` (conj, fft, conj, scale 1/N) |
| FftUtils.SingletonTransforms | src/main/java/org/seismograph/utils/fouriersolver/TriangulationPipeline.java:208-255 | a length-1 input is returned unchanged by both fft and ifft |
| FftUtils.Padded | src/main/java/org/seismograph/utils/fouriersolver/TriangulationPipeline.java:267-271 | the padded sequence has the requested length |
| FftUtils.ToComplexPadded | src/main/java/org/seismograph/utils/fouriersolver/TriangulationPipeline.java:267-271 | copies `x[i]` as `(x[i], 0)` below `x.length` and fills the rest with (0, 0) |
| TriangulationPipeline.CrossSpectrum | src/main/java/org/seismograph/utils/fouriersolver/TriangulationPipeline.java:295 | `C[i] = A[i] * conj(B[i])` for every i |
| TriangulationPipeline.RealParts | src/main/java/org/seismograph/utils/fouriersolver/TriangulationPipeline.java:299-300 | the first n real parts, in order |
| TriangulationPipeline.CrossCorrelationSpec | src/main/java/org/seismograph/utils/fouriersolver/TriangulationPipeline.java:285-302 | the correlation has exactly n + m - 1 values |
| TriangulationPipeline.PaddedCrossSpectrum | src/main/java/org/seismograph/utils/fouriersolver/TriangulationPipeline.java:288-295 | the spectrum product of both inputs padded to the same power of two |
| TriangulationPipeline.MultiplySpectra | src/main/java/org/seismograph/utils/fouriersolver/TriangulationPipeline.java:293-295 | the loop computes `CrossSpectrum` |
| TriangulationPipeline.TakeRealParts | src/main/java/org/seismograph/utils/fouriersolver/TriangulationPipeline.java:299-300 | the loop keeps the first convLen real parts |
| TriangulationPipeline.CrossCorrelation | src/main/java/org/seismograph/utils/fouriersolver/TriangulationPipeline.java:285-302 | succeeds exactly when n + m >= 1 (a negative array size otherwise) and then equals `CrossCorrelationSpec` |
| TriangulationPipeline.ParabolicRefineVertex | src/main/java/org/seismograph/utils/fouriersolver/TriangulationPipeline.java:318-322 | on samples of a parabola the refinement returns its vertex offset -b/(2a), and 0 when the curvature is below 1e-12 |
| TriangulationPipeline.ParabolicRefineSymmetric | src/main/java/org/seismograph/utils/fouriersolver/TriangulationPipeline.java:318-322 | equal neighbours give offset 0 |
| TriangulationPipeline.FirstMaxIndex | src/main/java/org/seismograph/utils/fouriersolver/TriangulationPipeline.java:350-356 | the index holds a maximal value and every earlier value is strictly smaller (first argmax) |
| TriangulationPipeline.FirstArgMax | src/main/java/org/seismograph/utils/fouriersolver/TriangulationPipeline.java:350-356 | the scan with a strict `>` returns the first argmax (0 for an empty array) |
| TriangulationPipeline.RefinedPeakIndex | src/main/java/org/seismograph/utils/fouriersolver/TriangulationPipeline.java:359-360 | refines only when 0 < kMax < \|corr\| - 1 and otherwise adds nothing |
| TriangulationPipeline.EstimateDelaySeconds | src/main/java/org/seismograph/utils/fouriersolver/TriangulationPipeline.java:341-367 | succeeds exactly when n + m >= 1 and then equals `DelaySpec` |
| TriangulationPipeline.DelayFromPeak | src/main/java/org/seismograph/utils/fouriersolver/TriangulationPipeline.java:349-366 | the delay is (refined peak - (\|b\| - 1)) / fs |
| TriangulationPipeline.WindowReadsInside | src/main/java/org/seismograph/utils/fouriersolver/TriangulationPipeline.java:395-410 | the window is `x[max(0,s) .. min(s+len, \|x\|)]` (empty when that is empty) and every read index is inside x |
| TriangulationPipeline.Slice | src/main/java/org/seismograph/utils/fouriersolver/TriangulationPipeline.java:395-410 | the returned array is `Window(x, s, len)` |
| TdoaLocalizer.StartingPoint | src/main/java/org/seismograph/utils/fouriersolver/TriangulationPipeline.java:424-433 | the start point is the centroid of the stations |
| TdoaLocalizer.Rows | src/main/java/org/seismograph/utils/fouriersolver/TriangulationPipeline.java:442-466 | one Jacobian row and residual per non-reference station |
| TdoaLocalizer.Linearize | src/main/java/org/seismograph/utils/fouriersolver/TriangulationPipeline.java:442-466 | reports whether every row is finite (no zero distance) and then fills J and r with `Rows` |
| TdoaLocalizer.StoreRow | src/main/java/org/seismograph/utils/fouriersolver/TriangulationPipeline.java:459-465 | writes row k and leaves every other row unchanged |
| TdoaLocalizer.NormalEquations | src/main/java/org/seismograph/utils/fouriersolver/TriangulationPipeline.java:469-480 | A and b are the sums `Accumulate` of the rows' products |
| TdoaLocalizer.AccumulateSymmetric | src/main/java/org/seismograph/utils/fouriersolver/TriangulationPipeline.java:472-476 | the normal matrix is symmetric (A01 = A10) |
| TdoaLocalizer.AccumulateZeroResiduals | src/main/java/org/seismograph/utils/fouriersolver/TriangulationPipeline.java:478-479 | zero residuals give a zero right-hand side |
| TdoaLocalizer.SolveSolves | src/main/java/org/seismograph/utils/fouriersolver/TriangulationPipeline.java:482-490 | no step exactly when \|det\| < 1e-12; otherwise the step solves A step = b exactly |
| TdoaLocalizer.Cramer | src/main/java/org/seismograph/utils/fouriersolver/TriangulationPipeline.java:487-490 | Cramer's rule solves a regular 2x2 system |
| TdoaLocalizer.GaussNewtonStep | src/main/java/org/seismograph/utils/fouriersolver/TriangulationPipeline.java:440-497 | one iteration equals the specification `StepAt` |
| TdoaLocalizer.Iteration | src/main/java/org/seismograph/utils/fouriersolver/TriangulationPipeline.java:438-498 | either finishes with the outcome of `Iterate` or hands on the next point with one iteration fewer |
| TdoaLocalizer.Localize | src/main/java/org/seismograph/utils/fouriersolver/TriangulationPipeline.java:416-501 | equals `LocalizeSpec`: the error for fewer than 3 stations, at most 50 iterations from the centroid, stop when the step norm < 1e-6 |
| TdoaLocalizer.LocalizeTooFewStations | src/main/java/org/seismograph/utils/fouriersolver/TriangulationPipeline.java:420-422 | the too-few-stations error occurs exactly when there are fewer than 3 stations |
| TdoaLocalizer.IterateNeverTooFew | src/main/java/org/seismograph/utils/fouriersolver/TriangulationPipeline.java:438-498 | the iterations never raise the too-few-stations error |
| TdoaLocalizer.ExactSolutionIsFixedPoint | src/main/java/org/seismograph/utils/fouriersolver/TriangulationPipeline.java:438-500 | from a point that fits every arrival exactly, the solver returns that point |
| EarthquakeLocalizer.StationData.constructor | src/main/java/org/seismograph/utils/fouriersolver/EarthquakeLocalizer.java:242-253 | stores its arguments; the arrival time starts at 0.0 |
| EarthquakeLocalizer.StationData.SetArrivalTimeSec | src/main/java/org/seismograph/utils/fouriersolver/EarthquakeLocalizer.java:259-261 | sets the arrival time |
| EarthquakeLocalizer.ArrivalsAt | src/main/java/org/seismograph/utils/fouriersolver/EarthquakeLocalizer.java:255-257 | the k-th arrival is `data[k].arrivalTimeSec` |
| EarthquakeLocalizer.SetArrival | src/main/java/org/seismograph/utils/fouriersolver/EarthquakeLocalizer.java:137-141 | setting one station changes only that entry of the arrival list |
| EarthquakeLocalizer.AnchorOf | src/main/java/org/seismograph/utils/fouriersolver/EarthquakeLocalizer.java:41-44 | the anchor of index k is the first index of its group of three |
| EarthquakeLocalizer.RefinedArrivalCancels | src/main/java/org/seismograph/utils/fouriersolver/EarthquakeLocalizer.java:118-125 | the refined arrival is `anchorArrival + windowDelay`; the search-window start cancels out |
| EarthquakeLocalizer.StoredArrivalValid | src/main/java/org/seismograph/utils/fouriersolver/EarthquakeLocalizer.java:131-141 | the stored arrival lies in [0, 600]; it is the refined value exactly when that lies in [0, 600], else 0.0 |
| EarthquakeLocalizer.WindowsNested | src/main/java/org/seismograph/utils/fouriersolver/EarthquakeLocalizer.java:76-91 | the anchor window [max(0, p - 2fs), +6fs) lies inside the search window [max(0, p - 10fs), +40fs) |
| EarthquakeLocalizer.PickStation | src/main/java/org/seismograph/utils/fouriersolver/EarthquakeLocalizer.java:96-149 | a successful station step keeps the number of arrivals |
| EarthquakeLocalizer.PickStationEffect | src/main/java/org/seismograph/utils/fouriersolver/EarthquakeLocalizer.java:96-149 | a station step succeeds iff the delay does; it changes only that station, stores a value in [0, 600], and the last tuple is kept or becomes this delay |
| EarthquakeLocalizer.PickStationsEffect | src/main/java/org/seismograph/utils/fouriersolver/EarthquakeLocalizer.java:96-150 | the loop over stations 1 and 2 changes only those stations, each to a value in [0, 600] |
| EarthquakeLocalizer.PickEventEffect | src/main/java/org/seismograph/utils/fouriersolver/EarthquakeLocalizer.java:54-150 | an event changes only its own three stations; with no anchor pick it changes nothing; otherwise the anchor gets pick/fs and the others values in [0, 600] |
| EarthquakeLocalizer.PickSpecKeeps | src/main/java/org/seismograph/utils/fouriersolver/EarthquakeLocalizer.java:41-67 | a trailing group of fewer than three, or an event whose anchor pick is -1, keeps all its arrival times |
| EarthquakeLocalizer.CorrelateWithAnchor | src/main/java/org/seismograph/utils/fouriersolver/EarthquakeLocalizer.java:100-112 | the delay equals `StationDelay` of the two windows |
| EarthquakeLocalizer.StoreArrival | src/main/java/org/seismograph/utils/fouriersolver/EarthquakeLocalizer.java:114-149 | stores the validated arrival and returns the new last tuple, as `PickStation` specifies |
| EarthquakeLocalizer.CorrelateAndStore | src/main/java/org/seismograph/utils/fouriersolver/EarthquakeLocalizer.java:96-149 | one station of the inner loop, as `PickStation` specifies |
| EarthquakeLocalizer.PickOtherStations | src/main/java/org/seismograph/utils/fouriersolver/EarthquakeLocalizer.java:96-150 | the inner loop, as `PickStations` specifies |
| EarthquakeLocalizer.PickEventArrivals | src/main/java/org/seismograph/utils/fouriersolver/EarthquakeLocalizer.java:52-150 | one event, as `PickEvent` specifies |
| EarthquakeLocalizer.PickPWaveArrivals | src/main/java/org/seismograph/utils/fouriersolver/EarthquakeLocalizer.java:20-154 | the new arrival times and the returned delay of the last accepted station are those of `PickSpec`; an empty-correlation error is propagated |
| EarthquakeLocalizer.SkippedIff | src/main/java/org/seismograph/utils/fouriersolver/EarthquakeLocalizer.java:170-176 | an event is skipped iff its group has fewer than 3 stations or one arrival is exactly 0.0 |
| EarthquakeLocalizer.EventNeverTooFew | src/main/java/org/seismograph/utils/fouriersolver/EarthquakeLocalizer.java:170-196 | a checked event never reaches the solver's too-few-stations error |
| EarthquakeLocalizer.LocatedProjectsBack | src/main/java/org/seismograph/utils/fouriersolver/EarthquakeLocalizer.java:178-221 | a located event was usable, its local point is the solver's answer, and the reported lat/lon projects back to it (when cos(refLat) != 0) |
| EarthquakeLocalizer.LocalizeEvent | src/main/java/org/seismograph/utils/fouriersolver/EarthquakeLocalizer.java:165-222 | the report for the group at i equals `EventReportAt` |
| EarthquakeLocalizer.LocalizeAllEvents | src/main/java/org/seismograph/utils/fouriersolver/EarthquakeLocalizer.java:160-224 | the reports of every group of three equal `EventsSpec` |
| EarthquakeLocalizer.Preprocess | src/main/java/org/seismograph/utils/fouriersolver/EarthquakeLocalizer.java:279-289 | the pipeline signal is the Hamming-windowed demeaned amplitudes with the block's rate |
| EarthquakeLocalizer.PreprocessShape | src/main/java/org/seismograph/utils/fouriersolver/EarthquakeLocalizer.java:279-289 | preprocessing keeps the length; the demeaned amplitudes sum to zero |
| EarthquakeLocalizer.CoordinatesAll | src/main/java/org/seismograph/utils/fouriersolver/EarthquakeLocalizer.java:315-324 | coordinates are collected from the BHZ signals with non-zero lat and lon; all three are present exactly when each station has them |
| EarthquakeLocalizer.CollectCoordinates | src/main/java/org/seismograph/utils/fouriersolver/EarthquakeLocalizer.java:315-324 | the loop collects `Coordinates(group)` |
| EarthquakeLocalizer.BuildStations | src/main/java/org/seismograph/utils/fouriersolver/EarthquakeLocalizer.java:341-363 | three fresh, distinct StationData with arrival 0.0, each the prepared station relative to the common reference point |
| EarthquakeLocalizer.PrepareEvent | src/main/java/org/seismograph/utils/fouriersolver/EarthquakeLocalizer.java:301-363 | one group yields `EventSpec`: nothing or three fresh stations with arrival 0.0 |
| EarthquakeLocalizer.EventGroup | src/main/java/org/seismograph/utils/fouriersolver/EarthquakeLocalizer.java:302-306 | the group is `all[i .. min(i+3, \|all\|)]` |
| EarthquakeLocalizer.PrepareData | src/main/java/org/seismograph/utils/fouriersolver/EarthquakeLocalizer.java:295-367 | the result is `PrepareFrom(all, 0)`: fresh, distinct stations with arrival 0.0 |
| EarthquakeLocalizer.PrepareFromStep | src/main/java/org/seismograph/utils/fouriersolver/EarthquakeLocalizer.java:299-312 | the specification walks the list in groups of three |
| EarthquakeLocalizer.EventSpecTriple | src/main/java/org/seismograph/utils/fouriersolver/EarthquakeLocalizer.java:308-363 | a group yields three stations sharing one reference point exactly when all three BHZ signals have coordinates, and nothing otherwise |
| EarthquakeLocalizer.PrepareFromTriples | src/main/java/org/seismograph/utils/fouriersolver/EarthquakeLocalizer.java:295-367 | the prepared list is a sequence of such triples |
| EarthquakeLocalizer.CentredSum | src/main/java/org/seismograph/utils/fouriersolver/EarthquakeLocalizer.java:333-351 | with the reference point at the mean of the three coordinates, the local x and y sum to zero |
| CoordinateConverter.ReferenceIsOrigin | src/main/java/org/seismograph/utils/fouriersolver/EarthquakeLocalizer.java:390-417 | the reference point maps to (0, 0) |
| CoordinateConverter.GlobalOfLocal | src/main/java/org/seismograph/utils/fouriersolver/EarthquakeLocalizer.java:390-476 | `toGlobalLatLon(toLocalXY(p))` = p whenever cos(refLat) != 0 |
| CoordinateConverter.LocalOfGlobal | src/main/java/org/seismograph/utils/fouriersolver/EarthquakeLocalizer.java:390-476 | `toLocalXY(toGlobalLatLon(q))` = q whenever cos(refLat) != 0 |
| CoordinateConverter.CalculateReferencePoint | src/main/java/org/seismograph/utils/fouriersolver/EarthquakeLocalizer.java:424-440 | an error for an empty list; otherwise the componentwise mean |
| CoordinateConverter.MeanOfIdenticalPoints | src/main/java/org/seismograph/utils/fouriersolver/EarthquakeLocalizer.java:424-440 | the mean of identical points is that point |
| RealMath.DegreesRoundTrip | src/main/java/org/seismograph/utils/fouriersolver/EarthquakeLocalizer.java:396-399 | degrees to radians and back is the identity |
| RealMath.RadiansRoundTrip | src/main/java/org/seismograph/utils/fouriersolver/EarthquakeLocalizer.java:456-461 | radians to degrees and back is the identity |
| RealMath.JavaRound | src/main/java/org/seismograph/utils/fouriersolver/TriangulationPipeline.java:108-109 | `Math.round`: the integer within half a unit, ties upward |
| RealMath.Truncate | src/main/java/org/seismograph/utils/fouriersolver/EarthquakeLocalizer.java:75 | the `(int)` cast of a double truncates toward zero (also at NormalizatorSamples.java:282 and :312) |
| NormalizatorSamples.NormalizatorSamples.constructor | src/main/java/org/seismograph/utils/fouriersolver/NormalizatorSamples.java:13-14 | starts not ready, with no list |
| NormalizatorSamples.NormalizatorSamples.Accepting | src/main/java/org/seismograph/utils/fouriersolver/NormalizatorSamples.java:21-27 | a non-empty list is stored and makes the object ready; an empty one changes nothing |
| NormalizatorSamples.NormalizatorSamples.Normalize | src/main/java/org/seismograph/utils/fouriersolver/NormalizatorSamples.java:39-120 | not ready: the IllegalStateException and nothing changes; ready: the list is sorted in place by start time and the result is `NormalizeSpec` |
| NormalizatorSamples.Merge | src/main/java/org/seismograph/utils/fouriersolver/NormalizatorSamples.java:145-166 | the list sorted stably by start time, and the output is the concatenation of its amplitudes |
| NormalizatorSamples.MergeProperties | src/main/java/org/seismograph/utils/fouriersolver/NormalizatorSamples.java:145-166 | the order is sorted, a permutation, stable for equal start times, and the output length is the total sample count |
| NormalizatorSamples.CopyBlock | src/main/java/org/seismograph/utils/fouriersolver/NormalizatorSamples.java:161-164 | copies one block after the first `pos` outputs |
| BlockSamples.ConcatLength | src/main/java/org/seismograph/utils/fouriersolver/NormalizatorSamples.java:151-156 | the concatenation holds the total number of samples |
| BlockSamples.TotalLengthPermutation | src/main/java/org/seismograph/utils/fouriersolver/NormalizatorSamples.java:147-156 | reordering the blocks, as sorting does, does not change the total number of samples (used by both merges) |
| NormalizatorSamples.WindowWeights | src/main/java/org/seismograph/utils/fouriersolver/NormalizatorSamples.java:178-193 | the window has `length` weights |
| NormalizatorSamples.GenerateSignalHammingWindow | src/main/java/org/seismograph/utils/fouriersolver/NormalizatorSamples.java:178-193 | the loop fills the Hamming weights |
| NormalizatorSamples.Windowed | src/main/java/org/seismograph/utils/fouriersolver/NormalizatorSamples.java:126-135 | windowing keeps the length |
| NormalizatorSamples.FinalWindowing | src/main/java/org/seismograph/utils/fouriersolver/NormalizatorSamples.java:126-135 | every sample is multiplied in place by its window weight |
| NormalizatorSamples.WindowedIsHamming | src/main/java/org/seismograph/utils/fouriersolver/NormalizatorSamples.java:178-193 | windowing with the generated window is the same Hamming window as the triangulation pipeline's |
| NormalizatorSamples.FirKernel | src/main/java/org/seismograph/utils/fouriersolver/NormalizatorSamples.java:208-233 | the kernel has `taps` coefficients |
| NormalizatorSamples.DesignFirLowPass | src/main/java/org/seismograph/utils/fouriersolver/NormalizatorSamples.java:208-233 | the loop computes the windowed-sinc kernel |
| NormalizatorSamples.KernelCentre | src/main/java/org/seismograph/utils/fouriersolver/NormalizatorSamples.java:218-224 | the centre coefficient is 2 cutoff times its Hamming weight |
| NormalizatorSamples.Convolution | src/main/java/org/seismograph/utils/fouriersolver/NormalizatorSamples.java:248-261 | the full convolution has n + m - 1 values |
| NormalizatorSamples.Convolve | src/main/java/org/seismograph/utils/fouriersolver/NormalizatorSamples.java:248-261 | the double loop computes `y[k] = sum over i + j = k of x[i] h[j]` |
| NormalizatorSamples.AccumulateRow | src/main/java/org/seismograph/utils/fouriersolver/NormalizatorSamples.java:254-258 | one outer step adds row i to every output |
| NormalizatorSamples.ConvolveImpulse | src/main/java/org/seismograph/utils/fouriersolver/NormalizatorSamples.java:248-261 | convolving with the unit impulse returns the signal |
| NormalizatorSamples.Lowpass | src/main/java/org/seismograph/utils/fouriersolver/NormalizatorSamples.java:195-206 | the output is the convolution with the designed kernel |
| NormalizatorSamples.CubicHermiteEnds | src/main/java/org/seismograph/utils/fouriersolver/NormalizatorSamples.java:333-352 | the curve passes through y1 at t = 0 and y2 at t = 1 |
| NormalizatorSamples.CubicHermiteConstant | src/main/java/org/seismograph/utils/fouriersolver/NormalizatorSamples.java:333-352 | a constant is reproduced |
| NormalizatorSamples.InterpolateAtSample | src/main/java/org/seismograph/utils/fouriersolver/NormalizatorSamples.java:311-331 | at an integer position the interpolation returns that sample, with clamped neighbours at the edges |
| NormalizatorSamples.ResampleLength | src/main/java/org/seismograph/utils/fouriersolver/NormalizatorSamples.java:272-283 | the new length is floor(len newFs / oldFs) |
| NormalizatorSamples.ResamplePositionInRange | src/main/java/org/seismograph/utils/fouriersolver/NormalizatorSamples.java:285-288 | every position i oldFs / newFs lies in [0, len) |
| NormalizatorSamples.ResampledAtPosition | src/main/java/org/seismograph/utils/fouriersolver/NormalizatorSamples.java:285-308 | sample i is the cubic interpolation at that position |
| NormalizatorSamples.Resampled | src/main/java/org/seismograph/utils/fouriersolver/NormalizatorSamples.java:272-309 | the resampled signal has `ResampleLength` samples |
| NormalizatorSamples.Resample | src/main/java/org/seismograph/utils/fouriersolver/NormalizatorSamples.java:272-309 | the loop computes `Resampled` |
| NormalizatorSamples.ResampleSample | src/main/java/org/seismograph/utils/fouriersolver/NormalizatorSamples.java:285-308 | one sample of the loop |
| NormalizatorSamples.ResampleSameRate | src/main/java/org/seismograph/utils/fouriersolver/NormalizatorSamples.java:272-309 | resampling at the same rate returns the signal |
| NormalizatorSamples.RemoveBaseline | src/main/java/org/seismograph/utils/fouriersolver/NormalizatorSamples.java:93-102 | the samples become the demeaned samples (`Demeaned`, whose sum is zero by `SignalMath.DemeanedSumsToZero`) |
| NormalizatorSamples.MaxAbs | src/main/java/org/seismograph/utils/fouriersolver/NormalizatorSamples.java:108-111 | the peak magnitude is non-negative |
| NormalizatorSamples.MaxAbsIsMax | src/main/java/org/seismograph/utils/fouriersolver/NormalizatorSamples.java:108-111 | it bounds every \|sample\| and, when positive, is attained |
| NormalizatorSamples.MaxAbsLoop | src/main/java/org/seismograph/utils/fouriersolver/NormalizatorSamples.java:108-111 | the loop computes `MaxAbs` |
| NormalizatorSamples.PeakNormalized | src/main/java/org/seismograph/utils/fouriersolver/NormalizatorSamples.java:113-117 | normalisation keeps the length |
| NormalizatorSamples.PeakNormalizedRange | src/main/java/org/seismograph/utils/fouriersolver/NormalizatorSamples.java:107-119 | with a positive peak every sample lies in [-1, 1] and one is +-1; an all-zero signal is returned unchanged |
| NormalizatorSamples.NormalizePeak | src/main/java/org/seismograph/utils/fouriersolver/NormalizatorSamples.java:113-117 | the samples are divided in place by the peak when it is positive |
| NormalizatorSamples.Smooth | src/main/java/org/seismograph/utils/fouriersolver/NormalizatorSamples.java:46-102 | lowpass when 100 < sourceFs, resample to 100 Hz, remove the baseline |
| NormalizatorSamples.PipelineProperties | src/main/java/org/seismograph/utils/fouriersolver/NormalizatorSamples.java:39-120 | every normalized output lies in [-1, 1] and either reaches +-1 or is all zero |
| SignalNormalization.SignalNormalization.constructor | src/main/java/org/seismograph/utils/fouriersolver/SignalNormalization.java:8-14 | keeps the observer only when it is a NormalizatorSamples, else null |
| SignalNormalization.SignalNormalization.NotifySubscriber | src/main/java/org/seismograph/utils/fouriersolver/SignalNormalization.java:16-20 | forwards to `accepting` only when there is a normalizer |
| SignalNormalization.SignalNormalization.NormalizeOpenly | src/main/java/org/seismograph/utils/fouriersolver/SignalNormalization.java:22-29 | an empty array without a normalizer; otherwise `normalize`, including its not-ready error, with the normalizer's list left sorted by start time when it was ready and unchanged when it was not |
| StableSort.SortBy | src/main/java/org/seismograph/utils/fouriersolver/SeismicSignalExtractor.java:63 | sorting keeps the length and the multiset of elements |
| StableSort.SortBySorted | src/main/java/org/seismograph/utils/fouriersolver/SeismicSignalExtractor.java:63 | the result is sorted by the key |
| StableSort.SortByStable | src/main/java/org/seismograph/utils/fouriersolver/SeismicSignalExtractor.java:63 | elements with equal keys keep their relative order (stable, as List.sort) |
| StableSort.FirstMinIndex | src/main/java/org/seismograph/utils/download/IRISWaveformsDownloader.java:286-288 | the index of the first element with the minimal key |
| StableSort.SortByHead | src/main/java/org/seismograph/utils/download/IRISWaveformsDownloader.java:286-288 | the head of the sorted list is the first element with the minimal key |
| MiniSeed.KeyOrder | src/main/java/org/seismograph/utils/fouriersolver/SeismicSignalExtractor.java:63 | the integer key orders valid date-times exactly as `LocalDateTime.compareTo`, and equal keys mean equal date-times |
| MiniSeed.FieldAt | src/main/java/org/seismograph/utils/fouriersolver/SeismicSignalExtractor.java:164-168 | a field parses exactly when its range is inside the string and `Integer.parseInt` accepts it |
| MiniSeed.ExtractNanosRange | src/main/java/org/seismograph/utils/fouriersolver/SeismicSignalExtractor.java:179-200 | the nanoseconds lie in [0, 10^9) and are 0 without a fraction |
| MiniSeed.ExtractNanosScaling | src/main/java/org/seismograph/utils/fouriersolver/SeismicSignalExtractor.java:184-196 | more than nine digits are cut to nine; fewer are padded, i.e. multiplied by 10^(9 - k) |
| MiniSeed.TransformedTimeRoundTrip | src/main/java/org/seismograph/utils/fouriersolver/SeismicSignalExtractor.java:161-176 | parsing a printed start time `YYYY,DDD,HH:MM:SS.ffff` gives back the date-time it printed |
| MiniSeed.FormatBtimeLayout | src/main/java/org/seismograph/utils/fouriersolver/SeismicSignalExtractor.java:164-168 | each field of the printed time sits at the ranges [0,4), [5,8), [9,11), [12,14), [15,17) |
| MiniSeed.ParseDigits | src/main/java/org/seismograph/utils/fouriersolver/SeismicSignalExtractor.java:164-168 | `Integer.parseInt` of unsigned digits is their value while it fits |
| MiniSeed.DecodingDispatch | src/main/java/org/seismograph/utils/fouriersolver/SeismicSignalExtractor.java:202-226 | no Blockette 1000 or codes 1/3/10/11 give the widened ints; 4/5 the doubles; any other code the unsupported-encoding error |
| MiniSeed.GenerateDecodingAmplitudes | src/main/java/org/seismograph/utils/fouriersolver/SeismicSignalExtractor.java:202-226 | returns `DecodedAmplitudes` |
| MiniSeed.CastToDouble | src/main/java/org/seismograph/utils/fouriersolver/SeismicSignalExtractor.java:228-234 | each int widened, same length and order |
| MiniSeed.TranslateToList | src/main/java/org/seismograph/utils/fouriersolver/SeismicSignalExtractor.java:236-242 | the doubles copied, same length and order |
| MiniSeed.ReadAllConverts | src/main/java/org/seismograph/utils/fouriersolver/SeismicSignalExtractor.java:117-135 | the result converts the records before end of file, in read order |
| MiniSeed.ReadAllSkipsCorrupt | src/main/java/org/seismograph/utils/fouriersolver/SeismicSignalExtractor.java:127-128 | a corrupt record is skipped |
| MiniSeed.ReadAllStopsAtEof | src/main/java/org/seismograph/utils/fouriersolver/SeismicSignalExtractor.java:129-131 | everything after end of file is ignored |
| SeismicSignalExtractor.AmplitudesAsArray | src/main/java/org/seismograph/utils/fouriersolver/SeismicSignalExtractor.java:267-269 | the array holds the amplitudes in order |
| SeismicSignalExtractor.ConvertToLocalSample | src/main/java/org/seismograph/utils/fouriersolver/SeismicSignalExtractor.java:138-159 | the block is `ConvertSpec` of the record |
| SeismicSignalExtractor.GetDataRecords | src/main/java/org/seismograph/utils/fouriersolver/SeismicSignalExtractor.java:109-136 | the read loop returns `ReadAll` of the stream |
| SeismicSignalExtractor.ChannelBlocks | src/main/java/org/seismograph/utils/fouriersolver/SeismicSignalExtractor.java:45-53 | only blocks of that channel, at most as many as were read |
| SeismicSignalExtractor.GroupByChannel | src/main/java/org/seismograph/utils/fouriersolver/SeismicSignalExtractor.java:42-53 | the map from channel to its blocks in read order |
| SeismicSignalExtractor.GroupedAppend | src/main/java/org/seismograph/utils/fouriersolver/SeismicSignalExtractor.java:45-53 | adding a block appends it to its channel's list |
| SeismicSignalExtractor.ConcatAmplitudes | src/main/java/org/seismograph/utils/fouriersolver/SeismicSignalExtractor.java:68-71 | the amplitudes of the blocks concatenated |
| SeismicSignalExtractor.MergeChannel | src/main/java/org/seismograph/utils/fouriersolver/SeismicSignalExtractor.java:58-83 | one channel merged: sorted blocks, concatenated amplitudes, metadata of the earliest block |
| SeismicSignalExtractor.MergeEach | src/main/java/org/seismograph/utils/fouriersolver/SeismicSignalExtractor.java:56-84 | one merged entry per channel of the grouping |
| SeismicSignalExtractor.MergeGroups | src/main/java/org/seismograph/utils/fouriersolver/SeismicSignalExtractor.java:56-86 | the merged map equals `MergeSpec` |
| SeismicSignalExtractor.MergeByChannel | src/main/java/org/seismograph/utils/fouriersolver/SeismicSignalExtractor.java:30-87 | the result equals `MergeByChannelSpec`, including the errors of a key without '.' and of unreadable records |
| SeismicSignalExtractor.MergeSpecKeys | src/main/java/org/seismograph/utils/fouriersolver/SeismicSignalExtractor.java:42-74 | exactly one entry per distinct channel code |
| SeismicSignalExtractor.MergeByChannelMeaning | src/main/java/org/seismograph/utils/fouriersolver/SeismicSignalExtractor.java:36-83 | each entry's amplitudes are its channel's blocks concatenated in stable start-time order; rate and start from the earliest block; codes and lat/lon as given; as many amplitudes as the channel's blocks hold |
| FourierSeriesComputer.AsArray | src/main/java/org/seismograph/utils/fouriersolver/FourierSeriesComputer.java:186-193 | the array holds the amplitudes in order |
| FourierSeriesComputer.ConvertToLocalSample | src/main/java/org/seismograph/utils/fouriersolver/FourierSeriesComputer.java:70-84 | the block is `ConvertSpec` of the record |
| FourierSeriesComputer.GetDataRecords | src/main/java/org/seismograph/utils/fouriersolver/FourierSeriesComputer.java:45-68 | the read loop returns `ReadAll` of the stream |
| FourierSeriesComputer.ConvertAgrees | src/main/java/org/seismograph/utils/fouriersolver/FourierSeriesComputer.java:70-168 | this conversion agrees with the extractor's on amplitudes, rate, start time and errors |
| MainFourierSolver.EvenHalf | src/main/java/org/seismograph/utils/fouriersolver/MainFourierSolver.java:21-26 | `even[i] = x[2i]`, half the length |
| MainFourierSolver.Transform | src/main/java/org/seismograph/utils/fouriersolver/MainFourierSolver.java:14-41 | the transform keeps the length |
| MainFourierSolver.Fft | src/main/java/org/seismograph/utils/fouriersolver/MainFourierSolver.java:14-41 | the recursive method computes `Transform` |
| MainFourierSolver.Butterflies | src/main/java/org/seismograph/utils/fouriersolver/MainFourierSolver.java:31-39 | the butterfly loop computes `Combined` |
| MainFourierSolver.ZeroPadded | src/main/java/org/seismograph/utils/fouriersolver/MainFourierSolver.java:49-51 | the padded array equals the signal on its prefix and is zero elsewhere |
| MainFourierSolver.Analyze | src/main/java/org/seismograph/utils/fouriersolver/MainFourierSolver.java:43-54 | pads to the next power of two and transforms |
| MainFourierSolver.PaddedLength | src/main/java/org/seismograph/utils/fouriersolver/MainFourierSolver.java:44-47 | the padded length is the smallest power of two >= n (1 for n <= 1) |
| MainFourierSolver.TransformOfOne | src/main/java/org/seismograph/utils/fouriersolver/MainFourierSolver.java:17-19 | a single sample v gives (v, 0) |
| MainFourierSolver.TransformButterfly | src/main/java/org/seismograph/utils/fouriersolver/MainFourierSolver.java:32-39 | `X[n] + X[n+N/2] = 2 FE[n]` |
| MainFourierSolver.TransformAgrees | src/main/java/org/seismograph/utils/fouriersolver/MainFourierSolver.java:14-41 | this transform agrees with the triangulation pipeline's FFT on the same samples |
| MainFourierSolver.ToComplexHomomorphic | src/main/java/org/seismograph/utils/dataonly/ReducedComplex.java:7-22 | the conversion between the two complex records preserves add, sub and mul |
| Dataonly.AddThenSub | src/main/java/org/seismograph/utils/dataonly/ReducedComplex.java:7-15 | `a.add(b).sub(b)` = a |
| Dataonly.AddCommutes | src/main/java/org/seismograph/utils/dataonly/ReducedComplex.java:7-10 | `add` is commutative |
| Dataonly.MulProperties | src/main/java/org/seismograph/utils/dataonly/ReducedComplex.java:17-22 | `mul` is commutative with (1, 0) as identity |
| Dataonly.EqualsIsEquality | src/main/java/org/seismograph/utils/dataonly/ReducedComplex.java:29-33 | `equals` holds exactly for an equal record, never for null, and is reflexive and symmetric |
| Dataonly.HashAgreesWithEquals | src/main/java/org/seismograph/utils/dataonly/ReducedComplex.java:35-37 | equal records have equal hash codes |
| Removal.SameAsDataonly | src/main/java/org/seismograph/utils/removal/ReducedComplex.java:9-41 | the deprecated record behaves exactly as the data-only one |
| Removal.ArithmeticLaws | src/main/java/org/seismograph/utils/removal/ReducedComplex.java:9-26 | add-then-sub, commutativity of add and mul, (1, 0) as identity |
| Removal.EqualsAndHash | src/main/java/org/seismograph/utils/removal/ReducedComplex.java:33-41 | `equals` is componentwise equality, consistent with `hashCode` |
| JacksonQuakeParser.JacksonQuakeParser.constructor | src/main/java/org/seismograph/utils/JacksonQuakeParser.java:56-58 | the default threshold 4.0 and an empty list |
| JacksonQuakeParser.JacksonQuakeParser.WithThreshold | src/main/java/org/seismograph/utils/JacksonQuakeParser.java:64-66 | the clamped threshold |
| JacksonQuakeParser.JacksonQuakeParser.ValidateThreshold | src/main/java/org/seismograph/utils/JacksonQuakeParser.java:217-225 | negative values give 4.0, values above 12 give 12.0, others are kept; the list is unchanged |
| JacksonQuakeParser.ClampedThresholdRange | src/main/java/org/seismograph/utils/JacksonQuakeParser.java:217-225 | the threshold lies in [0, 12], values in range are kept, and clamping is idempotent |
| JacksonQuakeParser.ConvertToMwMonotone | src/main/java/org/seismograph/utils/JacksonQuakeParser.java:205-211 | each conversion is strictly increasing |
| JacksonQuakeParser.RoundToTenthBounds | src/main/java/org/seismograph/utils/JacksonQuakeParser.java:233 | rounding to a tenth moves a value by at most 0.05 |
| JacksonQuakeParser.InvalidMagnitudeProperties | src/main/java/org/seismograph/utils/JacksonQuakeParser.java:231-235 | magnitudes above threshold + 0.05 pass, and rejection is downward closed |
| JacksonQuakeParser.StoredMagnitudeRounds | src/main/java/org/seismograph/utils/JacksonQuakeParser.java:130 | the stored magnitude is the moment magnitude rounded to a tenth |
| JacksonQuakeParser.FMod | src/main/java/org/seismograph/utils/JacksonQuakeParser.java:250 | Java's `%` on doubles: sign of the dividend, magnitude below the divisor |
| JacksonQuakeParser.NormalizedLon | src/main/java/org/seismograph/utils/JacksonQuakeParser.java:250-254 | the normalised longitude lies in (-180, 180] |
| JacksonQuakeParser.NormalizedLonProperties | src/main/java/org/seismograph/utils/JacksonQuakeParser.java:250-254 | longitudes in (-180, 180] are kept and full turns are ignored |
| JacksonQuakeParser.NotEurasiaBox | src/main/java/org/seismograph/utils/JacksonQuakeParser.java:242-257 | outside the box lat in [-10, 82], lon in [-10, 180], independent of full turns |
| JacksonQuakeParser.RemoveZ | src/main/java/org/seismograph/utils/JacksonQuakeParser.java:263-268 | the time string without its 'Z' characters |
| JacksonQuakeParser.CollectedAreAccepted | src/main/java/org/seismograph/utils/JacksonQuakeParser.java:101-136 | every collected pair comes from an accepted feature, with that feature's distance under the measure in use (for `update`, the swapped call as written) |
| JacksonQuakeParser.CollectIgnoresMeasure | src/main/java/org/seismograph/utils/JacksonQuakeParser.java:101-136 | the distance measure changes only the distances: the same feeds fail and the same features are collected in the same order |
| JacksonQuakeParser.CollectCount | src/main/java/org/seismograph/utils/JacksonQuakeParser.java:101-108 | the update fails exactly when some earthquake has an unparsable time |
| JacksonQuakeParser.OnlyEarthquakes | src/main/java/org/seismograph/utils/JacksonQuakeParser.java:105 | features whose evtype is not "ke" are ignored |
| JacksonQuakeParser.NearestProperties | src/main/java/org/seismograph/utils/JacksonQuakeParser.java:139-148 | at most five features, the nearest ones, in non-decreasing distance order, taken from the pairs |
| JacksonQuakeParser.JacksonQuakeParser.Update | src/main/java/org/seismograph/utils/JacksonQuakeParser.java:89-162 | unparsable JSON or a bad time keeps the list; otherwise the list is replaced by `Nearest(pairs)`, the pairs ranked by the distance as the program computes it (`AsWrittenMeasure`) |
| JacksonQuakeParser.JacksonQuakeParser.Top5Earthquakes | src/main/java/org/seismograph/utils/JacksonQuakeParser.java:182-184 | a copy of at most five features |
| JacksonQuakeParser.AsWrittenMeasuresSwappedPoint | src/main/java/org/seismograph/utils/JacksonQuakeParser.java:115-119 | the code as written measures the distance to the point with latitude and longitude swapped |
| JacksonQuakeParser.DistanceMeasuresTheQuake | src/main/java/org/seismograph/utils/JacksonQuakeParser.java:115-119 | the corrected distance measures the quake itself |
| JavaText.Trim | src/main/java/org/seismograph/utils/download/IRISWaveformsDownloader.java:252 | `String.trim`: no trimmable character at either end |
| JavaText.IndexOf | src/main/java/org/seismograph/utils/fouriersolver/SeismicSignalExtractor.java:180 | `indexOf(c, from)`: the first occurrence at or after `from`, or -1 if there is none |
| JavaText.LastIndexOf | src/main/java/org/seismograph/utils/outing/NormalizedWaveformTXTWriter.java:62 | `lastIndexOf`: the last occurrence, or -1 |
| JavaText.Split | src/main/java/org/seismograph/utils/download/IRISWaveformsDownloader.java:158 | `split` on one character: the fields hold no separator |
| JavaText.FieldsJoin | src/main/java/org/seismograph/utils/download/IRISWaveformsDownloader.java:158 | joining the fields gives back the string |
| JavaText.JoinFields | src/main/java/org/seismograph/utils/download/IRISWaveformsDownloader.java:158 | splitting joined separator-free fields gives them back |
| JavaText.KeepAsciiDigits | src/main/java/org/seismograph/utils/fouriersolver/SeismicSignalExtractor.java:184-185 | `replaceAll("[^0-9]", "")` keeps only ASCII digits |
| JavaText.ParseInt | src/main/java/org/seismograph/utils/fouriersolver/SeismicSignalExtractor.java:164-168 | a parsed value fits in an int |
| IrisWaveformsDownloader.ExtractStationKey | src/main/java/org/seismograph/utils/download/IRISWaveformsDownloader.java:155-171 | the key `StationKeyOf` of the query, or the malformed-query error |
| IrisWaveformsDownloader.LastParamFound | src/main/java/org/seismograph/utils/download/IRISWaveformsDownloader.java:158-164 | a parameter with the prefix is found |
| IrisWaveformsDownloader.QueryParams | src/main/java/org/seismograph/utils/download/IRISWaveformsDownloader.java:293 | a query built from plain codes splits into its two parameters |
| IrisWaveformsDownloader.StationKeyRoundTrip | src/main/java/org/seismograph/utils/download/IRISWaveformsDownloader.java:155-171 | `extractStationKey` of a built query is NET.STA |
| IrisWaveformsDownloader.QueryHasKey | src/main/java/org/seismograph/utils/download/IRISWaveformsDownloader.java:155-171 | every built query has a key |
| IrisWaveformsDownloader.DefaultIsCodes | src/main/java/org/seismograph/utils/download/IRISWaveformsDownloader.java:317-342 | the default station string is "NET STA" of printable codes |
| IrisWaveformsDownloader.FallbackTable | src/main/java/org/seismograph/utils/download/IRISWaveformsDownloader.java:317-342 | the first-match decision table of default stations |
| IrisWaveformsDownloader.FallbackRoundTrip | src/main/java/org/seismograph/utils/download/IRISWaveformsDownloader.java:317-342 | the key of the fallback query is NET.STA of the chosen default |
| IrisWaveformsDownloader.ClassifyLineProperties | src/main/java/org/seismograph/utils/download/IRISWaveformsDownloader.java:251-275 | blank, '#' and short lines are skipped; candidates carry the trimmed codes, a non-excluded key, the parsed coordinates and their distance; a bad number aborts the scan |
| IrisWaveformsDownloader.ClassifyStationProperties | src/main/java/org/seismograph/utils/download/IRISWaveformsDownloader.java:261-274 | abort iff a coordinate fails to parse; skip iff the key is excluded |
| IrisWaveformsDownloader.ScanLine | src/main/java/org/seismograph/utils/download/IRISWaveformsDownloader.java:252-275 | one line classified as `ClassifyLine` specifies |
| IrisWaveformsDownloader.CollectCandidates | src/main/java/org/seismograph/utils/download/IRISWaveformsDownloader.java:249-281 | the loop collects `Candidates`, stopping at the first bad number |
| IrisWaveformsDownloader.CandidatesFromLines | src/main/java/org/seismograph/utils/download/IRISWaveformsDownloader.java:251-276 | every candidate comes from a line and none is excluded |
| IrisWaveformsDownloader.NearestIsFirstClosest | src/main/java/org/seismograph/utils/download/IRISWaveformsDownloader.java:284-288 | the chosen station is the first with the minimal distance |
| IrisWaveformsDownloader.NearestStationProperties | src/main/java/org/seismograph/utils/download/IRISWaveformsDownloader.java:180-307 | the result is never excluded, and is null exactly when there is no candidate and the fallback is excluded |
| IrisWaveformsDownloader.FirstSearchFindsStation | src/main/java/org/seismograph/utils/download/IRISWaveformsDownloader.java:296-306 | the first search, with nothing excluded, always finds a station |
| IrisWaveformsDownloader.StrokeWithNearestStation | src/main/java/org/seismograph/utils/download/IRISWaveformsDownloader.java:180-307 | returns `NearestStation` |
| IrisWaveformsDownloader.WidenSearch | src/main/java/org/seismograph/utils/download/IRISWaveformsDownloader.java:93-102 | one retry marks the station visited, widens the radius by 10 and searches again |
| IrisWaveformsDownloader.GenerateWaveformResponse | src/main/java/org/seismograph/utils/download/IRISWaveformsDownloader.java:47-148 | the result of `Download` |
| IrisWaveformsDownloader.RetryRadii | src/main/java/org/seismograph/utils/download/IRISWaveformsDownloader.java:87-131 | at most three retries, only after 204, with radius + 10 (k + 1) at retry k |
| IrisWaveformsDownloader.RetryRequests | src/main/java/org/seismograph/utils/download/IRISWaveformsDownloader.java:87-143 | every retried station but the last returned 204, and a result means status 200 from the last station tried |
| IrisWaveformsDownloader.RunShape | src/main/java/org/seismograph/utils/download/IRISWaveformsDownloader.java:47-143 | the whole run: radii 20 + 10k, at most 4 requests, a result only with status 200 |
| IrisWaveformsDownloader.RetryNeverRevisits | src/main/java/org/seismograph/utils/download/IRISWaveformsDownloader.java:93-102 | no retry requests a visited station twice |
| IrisWaveformsDownloader.SearcherAvoidsVisited | src/main/java/org/seismograph/utils/download/IRISWaveformsDownloader.java:266-303 | the station search never returns a visited station |
| EarthquakeMonitor.EarthquakeMonitor.constructor | src/main/java/org/seismograph/utils/EarthquakeMonitor.java:25-31 | no observers and no data |
| EarthquakeMonitor.EarthquakeMonitor.Attach | src/main/java/org/seismograph/utils/EarthquakeMonitor.java:35-39 | appends the observer |
| EarthquakeMonitor.EarthquakeMonitor.Detach | src/main/java/org/seismograph/utils/EarthquakeMonitor.java:41-45 | removes the first occurrence |
| EarthquakeMonitor.RemoveFirst | src/main/java/org/seismograph/utils/EarthquakeMonitor.java:42 | the list shrinks by one exactly when the observer is subscribed |
| EarthquakeMonitor.RemoveFirstAbsent | src/main/java/org/seismograph/utils/EarthquakeMonitor.java:42 | detaching an unsubscribed observer changes nothing |
| EarthquakeMonitor.RemoveFirstPresent | src/main/java/org/seismograph/utils/EarthquakeMonitor.java:42 | only the first occurrence is cut out and the rest keeps its order |
| EarthquakeMonitor.RemoveFirstMultiset | src/main/java/org/seismograph/utils/EarthquakeMonitor.java:42 | one copy of the observer leaves the multiset |
| EarthquakeMonitor.AttachThenDetach | src/main/java/org/seismograph/utils/EarthquakeMonitor.java:35-45 | attaching a new observer and detaching it restores the list |
| EarthquakeMonitor.EarthquakeMonitor.NotifyObservers | src/main/java/org/seismograph/utils/EarthquakeMonitor.java:47-53 | nothing without data; otherwise one `update(data)` per observer, in order |
| EarthquakeMonitor.NotificationsInOrder | src/main/java/org/seismograph/utils/EarthquakeMonitor.java:49-51 | the i-th call goes to the i-th observer with the data |
| EarthquakeMonitor.NotifiedOncePerSubscription | src/main/java/org/seismograph/utils/EarthquakeMonitor.java:49-51 | each observer gets one call per subscription |
| EarthquakeMonitor.EarthquakeMonitor.LaunchingMonitor | src/main/java/org/seismograph/utils/EarthquakeMonitor.java:64-75 | the same body changes nothing; a new one is stored and then every observer is notified |
| NormalizedWaveformTxtWriter.ChangeExtensionMeaning | src/main/java/org/seismograph/utils/outing/NormalizedWaveformTXTWriter.java:60-68 | a dot-free name gains ".ext"; otherwise everything from the last dot on is replaced |
| NormalizedWaveformTxtWriter.ChangeExtensionIdempotent | src/main/java/org/seismograph/utils/outing/NormalizedWaveformTXTWriter.java:60-68 | rewriting twice to a dot-free extension equals rewriting once |
| NormalizedWaveformTxtWriter.LastDotBeforeExtension | src/main/java/org/seismograph/utils/outing/NormalizedWaveformTXTWriter.java:62 | the last dot of base.ext is the one before ext |
| NormalizedWaveformTxtWriter.GenerateFilenameTxt | src/main/java/org/seismograph/utils/outing/NormalizedWaveformTXTWriter.java:54-58 | the name ends in ".txt" and is a fixed point |
| NormalizedWaveformTxtWriter.WriteValues | src/main/java/org/seismograph/utils/outing/NormalizedWaveformTXTWriter.java:28-39 | the text written is `Layout` of the values |
| NormalizedWaveformTxtWriter.TokenBreaks | src/main/java/org/seismograph/utils/outing/NormalizedWaveformTXTWriter.java:33-38 | a value's text holds a line break exactly when it is the seventh of its line |
| NormalizedWaveformTxtWriter.LayoutLineBreaks | src/main/java/org/seismograph/utils/outing/NormalizedWaveformTXTWriter.java:28-39 | n values give floor(n / 7) line breaks |
| NormalizedWaveformTxtWriter.LayoutSpaces | src/main/java/org/seismograph/utils/outing/NormalizedWaveformTXTWriter.java:30-31 | every value is followed by one space: n spaces |
| EarthquakeLocalizer.AppendEvent | src/main/java/org/seismograph/utils/fouriersolver/EarthquakeLocalizer.java:341-363 | the prepared stations of one group are appended after the earlier ones: still distinct, with arrival 0.0, and the earlier entries are kept |
| IrisWaveformsDownloader.CandidateNotExcluded | src/main/java/org/seismograph/utils/download/IRISWaveformsDownloader.java:266-270 | a line that yields a candidate never yields an excluded station |
| IrisWaveformsDownloader.ScanFields | src/main/java/org/seismograph/utils/download/IRISWaveformsDownloader.java:255-275 | the fields of one line are classified as `ClassifyFields` specifies |
| IrisWaveformsDownloader.ScanStation | src/main/java/org/seismograph/utils/download/IRISWaveformsDownloader.java:261-274 | one station line is classified as `ClassifyStation` specifies |
| IrisWaveformsDownloader.SplitDefault | src/main/java/org/seismograph/utils/download/IRISWaveformsDownloader.java:297-298 | splitting a default "NET STA" string on ' ' and trimming gives back both codes |
| JacksonQuakeParser.CollectNonePersists | src/main/java/org/seismograph/utils/JacksonQuakeParser.java:152-161 | once a feature's time fails to parse, the whole update fails, whatever follows |
| JacksonQuakeParser.TruncatedRemainder | src/main/java/org/seismograph/utils/JacksonQuakeParser.java:250 | Java's remainder takes the sign of the dividend and stays below the divisor in magnitude |
| JacksonQuakeParser.RoundToTenthMonotone | src/main/java/org/seismograph/utils/JacksonQuakeParser.java:233 | rounding to a tenth is monotone |
| MainFourierSolver.OddHalf | src/main/java/org/seismograph/utils/fouriersolver/MainFourierSolver.java:21-26 | `odd[i] = x[2i+1]`, half the length |
| MainFourierSolver.Combined | src/main/java/org/seismograph/utils/fouriersolver/MainFourierSolver.java:31-39 | the combined spectrum has twice the half length |
| MainFourierSolver.CombinedAgrees | src/main/java/org/seismograph/utils/fouriersolver/MainFourierSolver.java:31-39 | this butterfly step agrees with the triangulation pipeline's on the same halves |
| RealMath.Wrap32 | src/main/java/org/seismograph/utils/dataonly/ReducedComplex.java:35-37 | 32-bit int arithmetic: the result lies in the int range and agrees with x modulo 2^32 |
| Removal.ConversionBack | src/main/java/org/seismograph/utils/removal/ReducedComplex.java:9-41 | converting a data-only record to the deprecated one and back gives the same record |
| SeismicSignalExtractor.ChannelBlocksNonEmpty | src/main/java/org/seismograph/utils/fouriersolver/SeismicSignalExtractor.java:45-53 | every channel in the grouping has at least one block |
| StableSort.Insert | src/main/java/org/seismograph/utils/fouriersolver/SeismicSignalExtractor.java:63 | inserting adds one element and keeps the multiset otherwise |
| StableSort.InsertSorted | src/main/java/org/seismograph/utils/fouriersolver/SeismicSignalExtractor.java:63 | inserting into a sorted list keeps it sorted |
| MiniSeed.NineDigits | src/main/java/org/seismograph/utils/fouriersolver/SeismicSignalExtractor.java:184-196 | the fraction digits are cut or padded to exactly nine ASCII digits |
| EarthquakeLocalizer.PickTriples | src/main/java/org/seismograph/utils/fouriersolver/EarthquakeLocalizer.java:41-153 | the loop over the triples, as `PickFrom` specifies from the first triple |
| EarthquakeLocalizer.AnchorWindows | src/main/java/org/seismograph/utils/fouriersolver/EarthquakeLocalizer.java:76-93 | the search-window bounds and the windowed anchor are those of `WindowsAround` the pick |
| TriangulationPipeline.InverseRealParts | src/main/java/org/seismograph/utils/fouriersolver/TriangulationPipeline.java:296-300 | the first convLen real parts of the inverse transform of the spectrum product |
| NormalizedWaveformTxtWriter.WriteValue | src/main/java/org/seismograph/utils/outing/NormalizedWaveformTXTWriter.java:30-38 | one value's text is appended and the counter moves to the next position modulo 7 |

## Left out

- **I/O and external services.**
  - Network access (the catalogue download, the FDSN station and dataselect services),
    file reading and writing, directory creation, threads and the scheduler are left out.
  - The service responses are parameters or functions: `stationService`, `download`,
    `parseTime`, `parseDouble`, the JSON tree as a list of features, and the record stream
    as a list of read results.
  - Building URLs is reduced to the query string that `extractStationKey` reads.
- **Floating point.**
  - NaN, infinities, signed zero and rounding errors of `double` are not modelled. Where
    Java would produce NaN or infinity, the model names the outcome instead:
    - the estimate `NotANumber` in the solver;
    - an infinite STA/LTA ratio for a silent long window;
    - `Unresolved` for an event whose estimate is NaN.
  - `Double.compare` is modelled as the order on reals, so the special ordering of -0.0 and
    NaN is left out.
  - `Double.toString` is the parameter `show`, and `Objects.hash` of a double is the
    parameter `doubleHash`.
- **Text.**
  - `trim` removes the characters up to U+0020, as Java's does.
  - The `isBlank` test on the station reply is not modelled on its own. The lines of a
    blank body are all skipped by the scan, so the outcome is the same.
  - A line break is '\n'; the `\r?\n` split is a split on '\n' followed by `trim`.
  - `Integer.parseInt` accepts ASCII digits only.
- TdoaLocalizer.Localize: requires a non-zero wave speed. Java would divide by zero and
  produce NaN or infinity.
- NormalizatorSamples.Resample: requires positive sampling rates, and
  `NormalizatorSamples.NormalizatorSamples.Normalize` requires that every accepted block has
  one. Java silently produces an empty or non-finite signal for a zero or negative rate.
- TriangulationPipeline.ApplyHamming: requires a length other than 1.
  `NormalizatorSamples.WindowWeights` and `EarthquakeLocalizer.Preprocess` require the same.
  The Hamming window of length 1 divides 0 by 0 in Java.
- FftUtils.NextPow2: requires v <= 2^30. Above that, Java's `int` doubling overflows and
  the loop never ends. `TriangulationPipeline.CrossCorrelation`,
  `TriangulationPipeline.EstimateDelaySeconds` and `MainFourierSolver.Analyze` inherit the
  bound.
- MainFourierSolver.Fft: requires a power-of-two length. The private method is only called
  from `analyze`, which pads to one.
- EarthquakeLocalizer.PickPWaveArrivals: requires three things:
  - at most 2^29 samples per station (`SampleBound`), which keeps the correlation length
    within the 2^30 bound of `FftUtils.NextPow2`;
  - a non-zero sampling rate on every anchor station (`AnchorRates`), since the anchor
    arrival is the pick divided by the rate;
  - distinct `StationData` objects, which `prepareData` always creates.
- EarthquakeLocalizer.AnchorWindows: computes `(int) fs`, `10 * fsInt`, `40 * fsInt`,
  `6 * fsInt`, `2 * fsInt`, `pick - 10 * fsInt` and `searchStart + 40 * fsInt` as unbounded
  integers. In Java, `(int) fs`
  saturates at 2^31 - 1 and the products wrap once |fs| exceeds about 5.4 * 10^7 Hz. For
  such rates Java's search and anchor windows differ from the model's.
  `EarthquakeLocalizer.PickPWaveArrivals` inherits this gap.
- TriangulationPipeline.Slice: computes `startIndex + length` as an unbounded integer, where
  Java's `int` sum can wrap. Only the window bounds of such extreme rates reach that case.
- EarthquakeLocalizer.PickPWaveArrivals: states nothing about the arrival times after an
  empty-correlation error. Java throws from the middle of the loop, so the arrivals of the
  earlier events and stations are already written at that point.
- TriangulationPipeline.WindowLengths: does not model the narrowing of `Math.round`'s `long`
  to `int`, nor the `int` overflow of `staN * 2`. Both matter only for windows longer than
  2^30 samples.
- EarthquakeLocalizer.PrepareData: requires that every BHZ signal with coordinates has a
  length other than 1 (the Hamming window above).
- NormalizatorSamples.Merge: copies into a fresh array. Aliasing between the list passed to
  `accepting` and the caller's list is not modelled.
- Simple getters and `toString` methods are left out.
- IrisWaveformsDownloader.RetryNeverRevisits: holds for stations whose network and station
  codes contain no '&' (`PlainCodes`), which keeps the key read back from a query unambiguous.
- JacksonQuakeParser.JacksonQuakeParser.Update: ranks the quakes by the distance as the
  program computes it, with latitude and longitude swapped (see Findings). The intended
  ranking is `CollectPairs` with `IntendedMeasure`; `CollectIgnoresMeasure` shows that only
  the order and the distances differ.
- EarthquakeMonitor: observers are compared by identity, as the observers of this system do
  not override `equals`. `shutdownMonitor` has an empty body and is left out.
- The JSON downloader for the EMSC catalogue, the other file writers and the user interface
  are not part of this model.

## Findings

| source | as written | input that shows it | evidently intended | confidence | as-written member | corrected member |
|---|---|---|---|---|---|---|
| src/main/java/org/seismograph/utils/JacksonQuakeParser.java:115-119 | the haversine call passes the quake's longitude where a latitude is expected, and its latitude where a longitude is expected | an earthquake exactly at the observer's point (Krasnodar, latitude 45.04, longitude 38.98): the code measures the distance to (38.98, 45.04), which is not 0 km | distance from the observer to the quake's own latitude and longitude | not executed | JacksonQuakeParser.QuakeDistanceAsWritten, JacksonQuakeParser.AsWrittenMeasuresSwappedPoint | JacksonQuakeParser.QuakeDistance, JacksonQuakeParser.DistanceMeasuresTheQuake |
