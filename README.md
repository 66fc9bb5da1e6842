# Breathing-rate logger: frame pipeline model

The logger reads frames from an Acconeer A111 radar's sleep-breathing processor and prints
one record per wall-clock second: the unix second, the smoothed breathing rate in bpm
(or nothing), and `/`-joined note tokens. This project models, in Dafny, what happens to
each frame between the processor and the printout. There are two versions of the script.

The full logger (`a111_breathing_rasp_0902_v2.py`) works in five stages:

- **Extraction.** It coerces fields with `safe_float`, which refuses booleans. It resolves
  the rate with `bpm_from_res`, trying hertz keys first and then bpm keys. It normalises
  the warm-up progress with `norm_init_progress`.
- **SNR.** It computes its own SNR from the power spectrum: the peak bin over the median of
  the positive bins outside a five-bin window around the peak. When that is not possible it
  falls back to the frame's own `snr` field.
- **Gate.** A frame must pass the warm-up, SNR and band checks. Then comes a peak-prominence
  test. Then comes a step/ratio test against the last smoothed value, which can raise
  ZeroDivisionError.
- **Smoothing.** Accepted values go into a `deque(maxlen=smooth_window)`. The smoothed value
  is its mean or `sorted(q)[len(q)//2]`.
- **Emitter.** A catch-up emitter writes one record for every second from the cursor up to
  `floor(now)`.

The earlier logger (`a111_breathing_rasp_0902_v1.py`) has the same loop shape, but it
differs from the full logger in these ways:

- Its `safe_float` accepts booleans: True reads as 1.0 and False as 0.0.
- For a non-dict frame, the progress and the SNR read as 0.0 (from `False`). The full logger
  reads 1.0 and no SNR.
- Its gate has only the three basic checks, on the frame's reported SNR. There is no
  prominence test and no step/ratio test, so it never raises.
- Its smoothing is a fixed five-value mean. There is no `--smooth-window` or `--smooth`.
- It emits at most one record per frame: an `if now >= next_tick` instead of a catch-up
  `while`.
- Its notes have no `held=1` token and no debug tokens. `raw=` is written for any rejected
  frame with a raw value, without the band condition.
- Its `--f-low` default is 0.08 Hz rather than 0.12 Hz.

Modules:

- `Wrappers`: Option and Result.
- `Frames`: Python values and frame dicts, `res.get`, the first-match key search and the
  exceptions.
- `Stats`: `sorted`, `sum`, the mean, `sorted(q)[len(q)//2]`, `np.median`, and the k largest
  values.
- `Band`: the breathing band in bpm and the three basic checks, shared by both versions.
- `Smoothing`: the deque and its reduction.
- `Output`: note tokens, records, the held value and the catch-up pass.
- `ExtractV2`, `SnrV2`, `GateV2` and `PipelineV2`: the full logger.
- `ExtractV1` and `PipelineV1`: the earlier logger.
- `Versions`: lemmas comparing the two.

Each version's loop state is a `Pipeline` class with these fields: the deque `buf`,
`lastGood`, `lastGoodT` and the cursor `nextTick`. `Step` is one pass of the loop body, and
`Run` is the loop over a sequence of `(frame, clock time)` pairs.

Each method is proved against a pure specification over the value `Output.LoopState`:
- `Pass` is one pass of the loop body. In the full logger it yields the new state and the
  records, or the exception the pass raises.
- `RunSpec` folds `Pass` over the observed frames. In the full logger it stops at the first
  exception.
- `ValidState` is the invariant every pass keeps.

The lemmas about these functions state what the loop guarantees.

The median smoothing reads `sorted(q)[len(q)//2]`, which is the **upper** middle element for
an even count. For `[10,12,14,16]` a lower-middle reading gives 12 and `np.median` gives 13;
the code gives 14, and so does the model (`Stats.EvenCountUpperMiddle`).

## Model

| member | source | states |
|---|---|---|
| ExtractV2.SafeFloat | a111_breathing_rasp_0902_v2.py:12-19 | booleans give None; a value is returned exactly for a finite number, and it is that number |
| ExtractV2.SafeFloatExamples | a111_breathing_rasp_0902_v2.py:12-19 | True/False and a non-finite value give None; 3.25 gives 3.25 |
| Frames.AndGet | a111_breathing_rasp_0902_v2.py:139 | `isinstance(res, dict) and res.get(k)` is False for a non-dict, the field (None if missing) for a dict |
| Frames.FirstMatchFindsFirstHit | a111_breathing_rasp_0902_v2.py:25-32 | the key loop finds nothing iff no key yields a number, and otherwise the value of the first key that does |
| Frames.FirstMatchAgrees | a111_breathing_rasp_0902_v2.py:25-32 | two frames/coercions agreeing on every key's coerced value find the same first match |
| Frames.RateBpmResolves | a111_breathing_rasp_0902_v2.py:21-33 | None for a non-dict; 60 × the first hertz hit; the first bpm hit only when no hertz key hits; None iff neither list hits |
| Frames.RateBpmAgrees | a111_breathing_rasp_0902_v2.py:21-33 | two dicts/coercions agreeing on every rate key give the same bpm |
| ExtractV2.BpmFromRes | a111_breathing_rasp_0902_v2.py:23-24 | a non-dict frame has no bpm |
| ExtractV2.HertzBeatsBpm | a111_breathing_rasp_0902_v2.py:25-28 | `f_est` 0.25 Hz beats a `bpm` field of 99: 15 bpm |
| ExtractV2.BooleanFieldIgnored | a111_breathing_rasp_0902_v2.py:12-33 | a boolean field gives the same bpm as the field being absent |
| ExtractV2.NormInitProgress | a111_breathing_rasp_0902_v2.py:35-40 | absent/unusable gives 1.0; a value above 1 is divided by 100; any other value is kept as it is; a percentage up to 100 gives at most 1; `ip >= 0.99` iff absent, a fraction in [0.99, 1] or a percentage >= 99 |
| ExtractV2.InitProgressExamples | a111_breathing_rasp_0902_v2.py:35-40 | 50 and 0.5 both give 0.5; no field or a non-dict gives 1.0 |
| ExtractV2.RawInitProgress | a111_breathing_rasp_0902_v2.py:36-37 | no value for a non-dict frame or a missing field; otherwise the coerced field |
| ExtractV2.ReportedSnr | a111_breathing_rasp_0902_v2.py:138-139 | a non-dict frame reports no SNR; a dict reports its coerced `snr` field |
| SnrV2.ArgMax | a111_breathing_rasp_0902_v2.py:126 | the index holds the maximum, and no earlier index holds it |
| SnrV2.Positives | a111_breathing_rasp_0902_v2.py:132 | every kept value is strictly positive |
| SnrV2.PositivesMembers | a111_breathing_rasp_0902_v2.py:132 | x is kept iff x occurs and x > 0 |
| SnrV2.NoiseSetMembers | a111_breathing_rasp_0902_v2.py:127-132 | x is in the noise set iff x > 0 and x sits in a bin more than 2 below or at least 3 above the peak |
| SnrV2.NoiseSetNonEmpty | a111_breathing_rasp_0902_v2.py:127-133 | the noise set is non-empty iff some bin outside the window is positive |
| SnrV2.PeakToNoisePositive | a111_breathing_rasp_0902_v2.py:123-134 | the ratio exists iff the spectrum has > 8 bins, is all finite, has a positive bin and a non-empty noise set; it is then > 0 |
| SnrV2.SnrSource | a111_breathing_rasp_0902_v2.py:118-139 | the SNR is 10·log10(ratio) when the custom path applies, otherwise the frame's `snr` field; none for a non-dict |
| SnrV2.WindowMask | a111_breathing_rasp_0902_v2.py:129-130 | the mask array is false exactly on [lo, hi) |
| SnrV2.Select | a111_breathing_rasp_0902_v2.py:131 | masked selection keeps the bins left of the window, then the bins right of it |
| SnrV2.KeepPositive | a111_breathing_rasp_0902_v2.py:132 | the loop keeps exactly the positive values, in order |
| SnrV2.MaskedNoise | a111_breathing_rasp_0902_v2.py:127-132 | the array computation yields the noise set |
| SnrV2.EstimateSnr | a111_breathing_rasp_0902_v2.py:118-139 | the SNR step computes the SNR the gate sees |
| Stats.SortIsSortedPermutation | a111_breathing_rasp_0902_v2.py:172 | `sorted` yields an ascending permutation of its input |
| Stats.SortedPermutationUnique | a111_breathing_rasp_0902_v2.py:172 | two ascending sequences with the same multiset are equal, so any sort agrees with the model's |
| Stats.InsertKeepsSorted | a111_breathing_rasp_0902_v2.py:172 | inserting into an ascending sequence keeps it ascending |
| Stats.SortOfSorted | a111_breathing_rasp_0902_v2.py:172 | sorting an ascending sequence leaves it unchanged |
| Stats.LargestAreLargest | a111_breathing_rasp_0902_v2.py:154-155 | the k values taken are ascending, drawn from the input with multiplicity, and no value left out exceeds the smallest of them |
| Stats.UpperMiddleBounded | a111_breathing_rasp_0902_v2.py:172 | `sorted(q)[len(q)//2]` is an element of q, so it lies in any bounds of q |
| Stats.MiddlesOfSorted | a111_breathing_rasp_0902_v2.py:172 | on an ascending buffer both medians read the middle positions |
| Stats.EvenCountUpperMiddle | a111_breathing_rasp_0902_v2.py:172 | `[10,12,14,16]` smooths to 14 (upper middle), whereas `np.median` gives 13 |
| Stats.SumBounds | a111_breathing_rasp_0902_v2.py:174 | a sum of n values in [lo, hi] lies in [n·lo, n·hi] |
| Stats.MeanBounded | a111_breathing_rasp_0902_v2.py:174 | the mean of values in [lo, hi] lies in [lo, hi] |
| Stats.MedianPositive | a111_breathing_rasp_0902_v2.py:134 | `np.median` of positive values is positive |
| Smoothing.DequePush | a111_breathing_rasp_0902_v2.py:170 | the deque keeps `len + 1` values while below `maxlen`, and `maxlen` values after that; they are the last values of q + [x], so the oldest are evicted first (a `maxlen` of 0 keeps nothing) |
| Smoothing.PushBounded | a111_breathing_rasp_0902_v2.py:170 | pushing an in-band value onto in-band values keeps every value in band |
| Smoothing.SmoothBounded | a111_breathing_rasp_0902_v2.py:171-174 | smoothing a non-empty in-band buffer succeeds and stays in band |
| GateV2.Denominator | a111_breathing_rasp_0902_v2.py:164 | `max(1e-6, last)` is positive and at least `last` |
| GateV2.AcceptedIffAllChecksPass | a111_breathing_rasp_0902_v2.py:141-166 | accepted iff warm-up, SNR and band pass, the prominence test passes when reached, and the step and both ratio bounds hold once a smoothed value exists |
| GateV2.FirstValueNeverStepRejected | a111_breathing_rasp_0902_v2.py:162-166 | with no smoothed value the step test is skipped |
| GateV2.VerdictRaisesOnlyOnZeroRatio | a111_breathing_rasp_0902_v2.py:162-166 | the gate raises iff `max_ratio` is 0, a smoothed value exists, the frame passed every earlier test including the step, and its ratio is not positive; the error is ZeroDivisionError |
| GateV2.ProminenceOnFiniteSpectrum | a111_breathing_rasp_0902_v2.py:151-160 | on a finite spectrum, the three top bins are the three largest, and the test passes iff top/second >= threshold or second <= 0 |
| GateV2.BandExample | a111_breathing_rasp_0902_v2.py:141-149 | with the defaults (7.2-42 bpm), full progress and SNR 12, 15 bpm passes the basic checks and 100 bpm fails them |
| GateV2.StepExample | a111_breathing_rasp_0902_v2.py:162-166 | from a smoothed 15 with the defaults, 25 (step 10) and 23 (step 8) are rejected and 20 (step 5, ratio 1.33) is accepted |
| GateV2.ProminenceGateInactiveAsWritten | a111_breathing_rasp_0902_v2.py:152-158 | with the guard false the verdict ignores the spectrum; a flat-peaked spectrum is accepted |
| GateV2.ProminenceGateEnforced | a111_breathing_rasp_0902_v2.py:152-158 | with the guard true, acceptance implies top/second >= `prominence_min` when second > 0 |
| GateV2.EqualTopPeaksFail | a111_breathing_rasp_0902_v2.py:154-158 | on any finite spectrum of at least 3 bins, two equal positive top bins fail any threshold above 1 |
| GateV2.FlatPeaksRejectedWhenEnforced | a111_breathing_rasp_0902_v2.py:152-158 | with the guard true the flat-peaked spectrum is rejected |
| PipelineV2.DebugBpm | a111_breathing_rasp_0902_v2.py:197-200 | the debug estimate exists iff the field coerces, and is 60 × its value |
| Output.NotesOfSlots | a111_breathing_rasp_0902_v2.py:182-200 | tokens come in the fixed order; `held=1` iff held; `init=` always; each other token iff its value is present |
| Output.PresentInOrder | a111_breathing_rasp_0902_v2.py:182-200 | tokens of rank-ordered slots come out in rank order |
| Output.PresentMembers | a111_breathing_rasp_0902_v2.py:182-200 | a token is emitted iff the slot of its rank holds it |
| PipelineV2.NotesV2Tokens | a111_breathing_rasp_0902_v2.py:182-200 | notes ordered `held`, `snr`, `init`, `raw`, `f_est`, `f_dft`; `raw=` iff raw exists, the frame was rejected and raw is in band; debug tokens only with `--debug` |
| Output.Shown | a111_breathing_rasp_0902_v2.py:183-188 | a value is shown iff a smoothed value exists and at most `hold_last_for` seconds have passed; it is that value |
| Output.TickCount | a111_breathing_rasp_0902_v2.py:178 | floor(now) − next + 1 seconds once `now` has reached the cursor, none before |
| Output.CatchUp | a111_breathing_rasp_0902_v2.py:178-205 | one record per counted second, second `next + i`, all with the same bpm and notes |
| Output.CatchUpCoversElapsedSeconds | a111_breathing_rasp_0902_v2.py:178-205 | the seconds emitted are <= now, strictly increasing, end at floor(now), and the next cursor is past now |
| Output.CatchUpExample | a111_breathing_rasp_0902_v2.py:178-205 | cursor 101 at 103.4 emits 101, 102 and 103 identically |
| PipelineV2.PushSmoothed | a111_breathing_rasp_0902_v2.py:169-174 | after a push the deque fits `maxlen` and stays in band; smoothing raises iff `maxlen` is 0 (IndexError for median, ZeroDivisionError for mean) |
| Band.CatchUpShowsInBand | a111_breathing_rasp_0902_v2.py:177-205 | a pass showing an in-band value shows only in-band values |
| PipelineV2.Measure | a111_breathing_rasp_0902_v2.py:114-139 | the measured observation is the frame's progress, SNR, raw bpm, spectrum and debug estimates |
| PipelineV2.Pipeline.constructor | a111_breathing_rasp_0902_v2.py:97-102 | empty deque, no smoothed value, time 0, cursor floor(t0) + 1; the state is valid |
| PipelineV2.Pipeline.SmoothedInBand | a111_breathing_rasp_0902_v2.py:168-175 | the smoothed value always lies in the band |
| PipelineV2.Pipeline.Accept | a111_breathing_rasp_0902_v2.py:169-175 | the pushed deque (with eviction), its smoothed value and time `now`, cursor unchanged, exactly as `Accepted`; on the exception of an empty deque the state is unchanged and the error is reported; the state stays valid |
| PipelineV2.Pipeline.Admit | a111_breathing_rasp_0902_v2.py:141-175 | the verdict and the new state are those of `Admitted`: an accepted frame is pushed and re-smoothed as `Accepted`, a rejected one changes nothing, and an exception of the gate or the smoothing leaves the state unchanged |
| PipelineV2.Pipeline.Emit | a111_breathing_rasp_0902_v2.py:177-205 | the `while` loop emits the catch-up pass and leaves the cursor past `now` |
| PipelineV2.Pipeline.Update | a111_breathing_rasp_0902_v2.py:141-205 | the new state and the records, or the exception with the state unchanged, are exactly those of `Pass` on the observation; the state stays valid |
| PipelineV2.Pipeline.Step | a111_breathing_rasp_0902_v2.py:106-205 | one loop pass on a frame: exactly `Pass` on the frame's observation |
| PipelineV2.Observed | a111_breathing_rasp_0902_v2.py:106-139 | one observation per frame, in order, each with its clock time |
| PipelineV2.AcceptedKeepsValid | a111_breathing_rasp_0902_v2.py:169-175 | accepting an in-band value, when smoothing does not raise, keeps the deque within `maxlen`, in band, and the smoothed value equal to its smoothing |
| PipelineV2.PassProceeds | a111_breathing_rasp_0902_v2.py:141-205 | once the gate and the smoothing update (`Admitted`) have not raised, the pass prints the catch-up records of this frame's held value and notes, and moves the cursor by the seconds counted up to `now` |
| PipelineV2.PassRaises | a111_breathing_rasp_0902_v2.py:141-175 | a pass raises iff the gate raises (ZeroDivisionError) or it accepts with `maxlen` 0 (IndexError for median, ZeroDivisionError for mean); so only when `max_ratio` or `maxlen` is 0 |
| PipelineV2.PassSmooths | a111_breathing_rasp_0902_v2.py:141-175 | a rejected frame leaves deque, smoothed value and its time unchanged; an accepted one is in band, is pushed as the last element, and the new deque's smoothed value, stamped `now`, becomes current |
| PipelineV2.PassKeepsValid | a111_breathing_rasp_0902_v2.py:141-175 | a pass that does not raise keeps the deque within `maxlen`, in band, and the smoothed value equal to the deque's smoothing |
| PipelineV2.PassRecords | a111_breathing_rasp_0902_v2.py:177-205 | a pass that does not raise prints consecutive seconds from the cursor, in-band values only, and moves the cursor by their number, past `now` |
| PipelineV2.PassKeepsOrder | a111_breathing_rasp_0902_v2.py:141-205 | the logger's pass function keeps the state valid and prints in order, for every state, frame and time |
| PipelineV2.RunStopsAtFirstError | a111_breathing_rasp_0902_v2.py:105-206 | without an exception every frame is consumed; with one, it is raised by the last frame consumed, from the final state, and the frames before it run without exception to that state and those records |
| PipelineV2.RunRecords | a111_breathing_rasp_0902_v2.py:105-206 | a run leaves a valid state; its records cover consecutive seconds from the start cursor with no gap or repeat, the cursor ends just after them, every shown value is in band, and without an exception the cursor ends past the last clock time |
| PipelineV2.RunAfterPass | a111_breathing_rasp_0902_v2.py:105-206 | a run split before a frame continues with that frame's pass: an exception ends it in the state before, otherwise it goes on from the new state after the pass's records |
| PipelineV2.RunWithoutErrors | a111_breathing_rasp_0902_v2.py:105-206 | with `max_ratio` non-zero and `maxlen` positive no exception ends the run and every frame is consumed |
| PipelineV2.Pipeline.Run | a111_breathing_rasp_0902_v2.py:105-206 | the final state, the records, the exception that ended the loop and the number of frames consumed are exactly those of `RunSpec` over the observed frames; the state stays valid |
| ExtractV1.SafeFloat | a111_breathing_rasp_0902_v1.py:12-17 | True gives 1.0 and False gives 0.0; otherwise a value exactly for a finite number |
| ExtractV1.BpmFromRes | a111_breathing_rasp_0902_v1.py:21-22 | a non-dict frame has no bpm |
| ExtractV1.BooleanHertzCounts | a111_breathing_rasp_0902_v1.py:12-26 | a True `f_est` reads as 1 Hz, i.e. 60 bpm, whatever else the frame holds |
| ExtractV1.RawInitProgress | a111_breathing_rasp_0902_v1.py:34 | a non-dict frame coerces `False` to 0.0; a dict gives its coerced `init_progress` field |
| ExtractV1.NormInitProgress | a111_breathing_rasp_0902_v1.py:33-38 | absent gives 1.0; a non-dict gives 0.0; a value above 1 is divided by 100; any other value is kept as it is; `ip >= 0.99` iff absent, a fraction in [0.99, 1] or a percentage >= 99 |
| ExtractV1.ReportedSnr | a111_breathing_rasp_0902_v1.py:97 | 0.0 for a non-dict, the coerced `snr` field otherwise |
| PipelineV1.AcceptsIffChecksPass | a111_breathing_rasp_0902_v1.py:104-108 | accepted iff `ip >= 0.99`, SNR absent or >= `snr_min`, and raw in [60·f_low, 60·f_high] |
| PipelineV1.NonDictNeverAccepted | a111_breathing_rasp_0902_v1.py:97-108 | a non-dict frame never passes warm-up |
| PipelineV1.NotesV1Tokens | a111_breathing_rasp_0902_v1.py:120-131 | never `held=1`; `snr=` iff known; `init=` always; `raw=` iff raw exists and the frame was rejected, with no band condition |
| PipelineV1.Pipeline.constructor | a111_breathing_rasp_0902_v1.py:78-85 | empty deque, no mean, time 0, cursor floor(t0) + 1; the state is valid |
| PipelineV1.Pipeline.MeanInBand | a111_breathing_rasp_0902_v1.py:110-113 | the mean always lies in the band |
| PipelineV1.Pipeline.Accept | a111_breathing_rasp_0902_v1.py:110-113 | the deque pushed (five at most), its mean and time `now`, cursor unchanged, exactly as `Accepted`; the state stays valid |
| PipelineV1.Pipeline.Update | a111_breathing_rasp_0902_v1.py:104-134 | the new state and the record, if any, are exactly those of `Pass` on the observation; the state stays valid |
| PipelineV1.Pipeline.Step | a111_breathing_rasp_0902_v1.py:97-134 | one loop pass on a frame: exactly `Pass` on the frame's observation |
| PipelineV1.Observed | a111_breathing_rasp_0902_v1.py:89-99 | one observation per frame, in order, each with its clock time |
| PipelineV1.AcceptedKeepsValid | a111_breathing_rasp_0902_v1.py:110-113 | accepting an in-band value keeps at most five in-band values and the mean equal to their mean |
| PipelineV1.PassKeepsValid | a111_breathing_rasp_0902_v1.py:104-113 | a pass keeps at most five in-band values, and the mean equal to their mean |
| PipelineV1.PassAverages | a111_breathing_rasp_0902_v1.py:104-113 | a rejected frame leaves deque, mean and its time unchanged; an accepted one is in band, is pushed as the last element, and the mean of the new deque, stamped `now`, becomes current |
| PipelineV1.PassRecord | a111_breathing_rasp_0902_v1.py:115-134 | a record is printed iff `now >= next_tick`; it is for the cursor's second, shows an in-band value or none, and the cursor then moves by one; otherwise the cursor stays |
| PipelineV1.RunRecords | a111_breathing_rasp_0902_v1.py:88-134 | a run leaves a valid state, prints at most one record per frame for consecutive seconds from the start cursor, shows only in-band values, and ends the cursor just after them, where `Cursor` says |
| PipelineV1.RunAfterPass | a111_breathing_rasp_0902_v1.py:88-134 | a run split before a frame continues after that frame's record from the state its pass leaves |
| PipelineV1.Pipeline.Run | a111_breathing_rasp_0902_v1.py:88-134 | the final state and the records are exactly those of `RunSpec` over the observed frames; the state stays valid |
| Versions.SafeFloatDiffersOnlyOnBooleans | a111_breathing_rasp_0902_v1.py:12-17 | the two `safe_float`s differ exactly on booleans |
| Versions.BpmAgreesWithoutBooleans | a111_breathing_rasp_0902_v1.py:19-31 | without booleans in the rate fields both versions extract the same bpm |
| Versions.BooleanHertzSplitsVersions | a111_breathing_rasp_0902_v1.py:23-26 | a True `f_est` gives 60 bpm in v1 and is ignored by v2 |
| Versions.NonDictFrame | a111_breathing_rasp_0902_v1.py:33-38 | a non-dict frame: v1 reads progress and SNR as 0.0, v2 reads progress 1.0 and no SNR; neither has a bpm |

## Left out

- The Acconeer SDK is not part of this model: the client, the session setup, `get_next` and
  `Processor.process`. Each frame is an input value of the loop.
- argparse is not modelled. Options are a `Config` value, with the defaults as `DEFAULTS`.
- The v2 script reads `args.out_csv` (line 93), but the option is `--out` (line 62). That
  lookup raises AttributeError before the loop starts. The model starts at the loop, so it
  assumes the script got past this point.
- `print`, the CSV file, `datetime.now().strftime` and the `.2f` rendering are not modelled.
  A record holds the unix second, the optional bpm value and the note tokens with their real
  values. The `[DEBUG] keys:` print is left out as well.
- `time.time()` is not modelled. Each frame comes with the clock time it was read at.
  `t0` is a constructor parameter.
- IEEE-754 arithmetic is not modelled. Values are mathematical reals, and a `Sample` in a
  spectrum is finite, ±inf or NaN. `float()` parsing of strings is folded into `VNum`, and
  any other object is `VOther`.
- `math.log10` is a function parameter whose values are not modelled. Its exceptions (for
  example a zero peak) cannot occur on the custom path, because the ratio is proved positive.
- The generic `except Exception` around the SNR block covers only the cases the model
  represents. A spectrum that `np.asarray` cannot turn into a one-dimensional float array is
  not a `VList`, so it never takes the custom path.
- `KeyboardInterrupt`, the `finally` cleanup, and the client disconnect are not modelled.
- A negative `--smooth-window` makes `deque` raise at startup. In the model `smoothWindow`
  is a `nat`, so that case does not arise.
- When smoothing raises (a `maxlen` of 0), Python has already appended to the deque, but the
  model reports the exception with the state unchanged. The exception ends the program, so
  the difference cannot be observed.
- ExtractV2.BpmFromRes and ExtractV1.BpmFromRes: their own contracts state only the non-dict
  case. The key priority is stated once, for any coercion, by `Frames.RateBpmResolves`.

## Findings

| source | as written | input that shows it | evidently intended | confidence | as-written member | corrected member |
|---|---|---|---|---|---|---|
| a111_breathing_rasp_0902_v2.py:153 | the prominence test is guarded by `'np' in globals()`, but `numpy` is imported inside `main` (line 122), so `np` is a local name and the guard is always false: the test never runs | defaults, progress 1.0, no SNR, raw 15 bpm, spectrum `[1, 4, 4]` (top/second = 1 < 1.6): accepted | reject a frame whose largest bin is less than `prominence_min` times the second largest | not executed | GateV2.ProminenceGateInactiveAsWritten | GateV2.ProminenceGateEnforced |

The gate, `Pass`, `Update`, `Step` and `Run` take the value of the guard as the parameter
`npInGlobals`. `false` is the code as written. `true` is the intended behaviour, for which
`GateV2.ProminenceGateEnforced` and `GateV2.FlatPeaksRejectedWhenEnforced` are proved.
