# SPICE pitch demo: a verified model of the streaming and naming core

This project models the core of the SPICE pitch-detection web demo (`spice.js`).
The microphone feeds the page chunks of 1024 samples, and a script-processor callback handles each one.
That callback runs a three-step cycle:

- Steps 0 and 1 each run half of the model's partial outputs (the constant-Q transform) on the active window of 3072 samples.
- Step 2 runs the combining call when that window is full, then rotates the buffers.

After the combining call, the following happens:

- The frame-wise pitches and confidences are averaged over the confident interior frames.
- The result is named as a note with a `+`/`-` deviation mark.
- The result is handed to the note handler.
- The note renderer draws every third truthy note on a staff, with an octave number.
- A spectrogram column is built by summing analyser bins per semitone.

Modules, one file each:

- `SpiceConstants` (`spice_constants.dfy`): the demo's constants.
- `PitchMath` (`pitch_math.dfy`): `label2hz`, `hz2note` and `analyzerBin2Note`. `Math.pow(2, .)` and `Math.log2` are function parameters; the arithmetic around them is exact over the reals.
- `NoteNames` (`note_names.dfy`):
  - `getNoteStr` and `NoteRenderer.formatNote_`, as pure functions.
  - `Math.round(x)` is `floor(x + 0.5)`.
- `ConfidenceAggregator` (`confidence.dfy`):
  - `getPitchAndConfidence` and `getConfidentPitch` as loops.
  - Each loop is proved against a specification function: `PitchesOf`/`ConfidencesOf` and `ConfidentPitch`.
- `ModelAdapter` (`model_adapter.dfy`): `runModel` (a loop writing into the output dictionary) and `runModelFinal`.
  - The pretrained model is an `Engine` value: `execute(window, name)` gives one output, and `executeFinal(outputs)` gives the index-aligned (uncertainties, labels) pair.
- `StreamCoordinator` (`coordinator.dfy`): the `onaudioprocess` closure.
  - `Step`/`Run` specify it on values.
  - The class `AudioProcessor` holds the closure's variables as fields.
  - Its method `OnAudioProcess` is proved to follow `Step`, and to keep an invariant that ties the output dictionary and the note-handler reports to the chunks received.
- `NoteRendering` (`note_renderer.dfy`): the `draw_note` counter as a class `NoteRenderer`, proved against the `Decimated` function.
- `Spectrogram` (`spectrogram.dfy`): the semitone bucketing loop of `renderFreqDomain` on two arrays, proved against `FedSum`/`FedCount`.

Two consequences of the code are worth stating plainly:

- **The first report comes with the sixth chunk.** `samplesToUse` starts as `[]`, so at the end of the first cycle the size guard skips the combining call. The sixth chunk's callback then reports on chunks 1-3 (`NoReportBeforeSixthCallback`, `FirstReport`, `TwoCycles`).
- **5.6 gives "A-".** It rounds to 6 with a deviation of -0.4, below -0.3 (`NoteNames.NoteStrExamples`).

## Model

| member | source | states |
|---|---|---|
| PitchMath.Label2Hz | spice.js:141-146 | a label's frequency is positive (zero) exactly when 2^(cqt_bin/12) is; its octave law is LabelOctave |
| PitchMath.LabelOctave | spice.js:141-146 | when pow2 doubles per unit exponent, raising the label by 12 / PT_SLOPE raises the CQT bin by exactly 12 and doubles the frequency |
| PitchMath.NoteOctave | spice.js:148-157 | when log2 gains 1 per doubling, twice a non-zero frequency is exactly 12 semitones higher |
| PitchMath.Hz2Note | spice.js:148-157 | frequency 0 gives note 0; otherwise note - 0.5 is 12 * log2(freq / 10) |
| PitchMath.AnalyzerBin2Note | spice.js:177-182 | bin 0 is semitone 0; any other bin is hz2note of its frequency, bin * 8000 / 512 = bin * 15.625 Hz; its laws are BinOctave, BinNoteMonotone and BinNoteAboveHalf |
| PitchMath.BinOctave | spice.js:177-182 | when log2 gains 1 per doubling, twice a non-zero bin is exactly 12 semitones higher |
| PitchMath.BinNoteMonotone | spice.js:177-182 | for an increasing log2, a higher positive bin never has a lower semitone |
| PitchMath.BinNoteAboveHalf | spice.js:177-182 | for an increasing log2 with log2(1) = 0, every bin from 1 up is at least semitone 0.5, because bin 1 (15.625 Hz) lies above fmin (10 Hz) |
| PitchMath.LabelToNoteRoundTrip | spice.js:141-157 | when log2 inverts pow2, hz2note(label2hz(l)) is the label's CQT bin plus the half-bin offset 0.5 |
| NoteNames.Round | spice.js:160 | Math.round lands within half a unit: r - 0.5 <= x < r + 0.5 |
| NoteNames.NameIndex | spice.js:166 | the table index is always within 0..11 and congruent to r - 6 modulo 12 |
| NoteNames.BaseName | spice.js:166 | the table name of a rounded note is one letter A-G, optionally followed by '#' |
| NoteNames.Suffix | spice.js:168-173 | "+" iff deviation > 0.3, "-" iff < -0.3, "" iff within [-0.3, 0.3] |
| NoteNames.GetNoteStr | spice.js:159-175 | the name is "" exactly when the rounded note is below 6 |
| NoteNames.NamesAreWellFormed | spice.js:161-162 | every table name is a letter A-G, optionally followed by '#' |
| NoteNames.NamesAreDistinct | spice.js:161-162 | the 12 table names are pairwise distinct |
| NoteNames.SuffixMarksDeviation | spice.js:163-174 | a named note ends in '+' iff its deviation exceeds 0.3 and in '-' iff it is below -0.3 |
| NoteNames.NameRepeatsEveryOctave | spice.js:163-174 | note and note + 12 get the same string |
| NoteNames.SameNameSamePitchClass | spice.js:159-175 | two notes with the same non-empty string have rounded notes 12k apart and the same deviation mark |
| NoteNames.NoteStrExamples | spice.js:159-175 | 5 -> "", 6 -> "A", 6.3 -> "A", 6.31 -> "A+", 6.35 -> "A+", 5.6 -> "A-", 5.7 -> "A", 21 -> "C" |
| NoteNames.FloorOfTwelfth | spice.js:502 | dividing a non-negative integer by 12 over the reals and flooring is integer division |
| NoteNames.Octave | spice.js:502 | Math.round((r - 6 + 3) / 12) - 1 equals (r + 3) div 12 - 1 |
| NoteNames.FormatNote | spice.js:494-504 | no name exactly when the rounded note is below 6; otherwise getNoteStr(note) is exactly the name followed by the deviation mark, and the octave is (r + 3) div 12 - 1 |
| NoteNames.FormatAgreesWithNoteStr | spice.js:494-504 | formatNote_ has no name exactly when getNoteStr is ""; otherwise the mark has at most one character, getNoteStr = name + mark, and the name is getNoteStr with the mark removed |
| NoteNames.OctaveRisesEveryTwelve | spice.js:501-502 | twelve semitones up: same name, octave one higher |
| NoteNames.OctaveChangesAtC | spice.js:501-502 | one semitone up raises the octave exactly when the new name is "C", else keeps it |
| NoteNames.FormatNoteExamples | spice.js:494-504 | 5 -> none, 6 -> A/-1, 20 -> B/0, 21 -> C/1, 66 -> A/4 |
| ConfidenceAggregator.ConfidencesOf | spice.js:98-101 | one confidence per uncertainty, each with confidence + uncertainty = 1 |
| ConfidenceAggregator.PitchesOf | spice.js:102-105 | one pitch per label, each its label2hz |
| ConfidenceAggregator.GetPitchAndConfidence | spice.js:97-107 | the push loops build exactly PitchesOf(labels) and ConfidencesOf(uncertainties), index by index |
| ConfidenceAggregator.KeptUpTo | spice.js:114-122 | at most k - 1 frames are kept below index k (index 0 never) |
| ConfidenceAggregator.Kept | spice.js:113-118 | at most n - 2 frames are kept (the borders never), each with confidence at least 0.8; KeptMembers states exactly which |
| ConfidenceAggregator.ConfidentPitch | spice.js:123-126 | the aggregate is (0, 0) when no frame is kept |
| ConfidenceAggregator.GetConfidentPitch | spice.js:109-127 | the accumulator loop returns ConfidentPitch: the means over the kept frames, or (0, 0) |
| ConfidenceAggregator.KeptStep | spice.js:115-121 | one more index grows the kept frames by that frame, and both sums by its values, exactly when it is confident |
| ConfidenceAggregator.KeptUpToMembers | spice.js:114-118 | a frame is kept below k iff it is a confident index in 1..k-1 |
| ConfidenceAggregator.KeptMembers | spice.js:113-118 | the kept frames are exactly the confident ones at indices 1..n-2 |
| ConfidenceAggregator.NothingConfident | spice.js:123-125 | nothing is kept iff every interior confidence is below 0.8, and then the result is exactly (0, 0) |
| ConfidenceAggregator.SumPitchBounds | spice.js:119 | n pitches within [lo, hi] sum to within [n lo, n hi] |
| ConfidenceAggregator.SumConfAtLeast | spice.js:120 | n confidences of at least lo sum to at least n lo |
| ConfidenceAggregator.MeanBounds | spice.js:126 | a sum within [n lo, n hi] divided by n lies in [lo, hi] |
| ConfidenceAggregator.MeanAtLeast | spice.js:126 | a sum of at least n lo divided by n is at least lo |
| ConfidenceAggregator.MeanPitchWithin | spice.js:119-126 | the mean of pitches within [lo, hi] is within [lo, hi] |
| ConfidenceAggregator.MeanConfAtLeast | spice.js:120-126 | the mean of confidences of at least 0.8 is at least 0.8 |
| ConfidenceAggregator.KeptAreConfident | spice.js:116-118 | every kept frame's confidence is at least 0.8 |
| ConfidenceAggregator.MeansAreBounded | spice.js:109-127 | when a frame is kept, the mean confidence is >= 0.8 and the mean pitch lies within any bounds of the kept pitches |
| ConfidenceAggregator.PitchRange | spice.js:119-126 | every kept pitch lies between the smallest and the largest |
| ConfidenceAggregator.MeanBetweenExtremes | spice.js:109-127 | when a frame is kept, the mean pitch lies between the smallest and the largest kept pitch, and the mean confidence reaches 0.8 |
| ConfidenceAggregator.BordersIgnoredUpTo | spice.js:113-114 | values at index 0 and at the last index do not change the kept frames |
| ConfidenceAggregator.BordersIgnored | spice.js:113-114 | overwriting the first and the last frame never changes the aggregate |
| ConfidenceAggregator.BorderAndThresholdExample | spice.js:109-127 | confidences [0.9, 0.9, 0.2, 0.9, 0.9] average indices 1 and 3 only, giving ((p1 + p3) / 2, 0.9) |
| ModelAdapter.PartialRun | spice.js:269-279 | fewer than 3072 samples: dictionary unchanged; otherwise the keys gain exactly the requested names, each set to its output, and every other key keeps its value |
| ModelAdapter.RunModel | spice.js:269-279 | the write loop leaves the dictionary PartialRun describes |
| ModelAdapter.FinalFrame | spice.js:281-292 | the combining run's pitches and confidences are index-aligned: one pitch per label, each its label2hz, and one confidence per uncertainty, each 1 - uncertainty |
| ModelAdapter.RunModelFinal | spice.js:281-292 | returns FinalFrame: aligned lists of the combining run's label count |
| StreamCoordinator.LogModelData | spice.js:71-82 | a frequency, note and name are reported exactly when confidence >= 0.8; the note is hz2note of the frequency and the name is its getNoteStr; otherwise all three are empty |
| StreamCoordinator.FinalReport | spice.js:356-362 | the cycle's report carries the aggregate confidence, and is the empty report with confidence 0 when no interior frame was confident |
| StreamCoordinator.CompleteCycle | spice.js:356-362 | the combining call, aggregation and log produce FinalReport of the dictionary |
| StreamCoordinator.ReportHasNoteIffSomeFrameConfident | spice.js:356-362 | a report carries a note exactly when some interior frame of the combined output was confident |
| StreamCoordinator.ExpectedOutput | spice.js:340-353 | the dictionary during a cycle: empty for a short window, never a name outside the twelve, each entry the output on the current window |
| StreamCoordinator.Step | spice.js:336-376 | one callback: the step advances 0, 1, 2, 0; at steps 0 and 1 the chunk joins the pending buffer; at step 2 the pending buffer with the chunk becomes the window, the pending buffer starts empty, and a full window is logged |
| StreamCoordinator.Run | spice.js:336-376 | after n callbacks the step is n mod 3 |
| StreamCoordinator.PartialRunAdvancesCycle | spice.js:340-353 | steps 0 and 1 move the dictionary from the outputs requested before the step to those requested before the next |
| StreamCoordinator.ConcatSnoc | spice.js:338 | appending a chunk appends its samples |
| StreamCoordinator.RunSnoc | spice.js:336-376 | one more callback is one more Step |
| StreamCoordinator.RunCounts | spice.js:338-375 | after n chunks: step = n mod 3, 1024 pending samples per step, window empty in the first cycle and 3072 samples afterwards, n/3 - 1 combining calls after the first cycle |
| StreamCoordinator.CountStep | spice.js:338-375 | one callback advances those counts by one chunk |
| StreamCoordinator.RunBuffers | spice.js:338-374 | the pending buffer is exactly the chunks of the current cycle, and the window exactly the previous cycle's three chunks (after a step-2 callback: the three chunks of that cycle, pending buffer empty) |
| StreamCoordinator.BufferStep | spice.js:338-374 | one callback preserves that buffer correspondence |
| StreamCoordinator.PushWithinCycle | spice.js:338-353 | at steps 0 and 1 the chunk joins the pending buffer and the window stays |
| StreamCoordinator.PushAndRotate | spice.js:364-375 | at step 2 the pending buffer with the chunk becomes the window and the pending buffer is emptied |
| StreamCoordinator.ConcatLength | spice.js:338 | k chunks of 1024 samples make 1024 k samples |
| StreamCoordinator.RunFinalWindows | spice.js:356-363 | the j-th combining call saw exactly chunks 3j, 3j+1, 3j+2, and one call was made per cycle after the first |
| StreamCoordinator.FullChunksInit | spice.js:337 | a prefix of full chunks is full |
| StreamCoordinator.FullChunksSlice | spice.js:337 | any slice of full chunks is full |
| StreamCoordinator.FullChunksSnoc | spice.js:337 | appending a full chunk keeps all chunks full |
| StreamCoordinator.WindowIsFull | spice.js:356 | after the first cycle the window always has exactly 3072 samples, so the size guard passes |
| StreamCoordinator.WindowStep | spice.js:356-374 | one callback logs the window exactly when it closes a cycle after the first |
| StreamCoordinator.WindowsExtend | spice.js:338 | windows cut from the chunks received stay the same as chunks arrive |
| StreamCoordinator.FinalCallSeesAllOutputs | spice.js:340-363 | when the combining call fires, the dictionary holds exactly the 12 names of lines 344 and 351, each the output on the current window |
| StreamCoordinator.CallbackKeepsConsistent | spice.js:336-376 | one callback keeps the closure's invariant (buffers follow Run, dictionary current, reports those of the logged windows) |
| StreamCoordinator.PartialStepKeepsOutputs | spice.js:340-353 | steps 0 and 1 keep the window and bring the dictionary to the next step |
| StreamCoordinator.CombiningStepKeepsReports | spice.js:354-375 | step 2 appends a report exactly when it logs the window |
| StreamCoordinator.AudioProcessor.constructor | spice.js:323-334 | the closure starts at step 0 with empty buffers, dictionary and report list |
| StreamCoordinator.AudioProcessor.OnAudioProcess | spice.js:336-383 | push the chunk; steps 0/1 run the partial outputs and advance; step 2 reports FinalReport of the dictionary only on a full window, makes the pending buffer the window, and clears the pending buffer and the dictionary; the state follows Step and the invariant is kept |
| StreamCoordinator.TwoCycles | spice.js:336-376 | six callbacks: no report after the first cycle, then exactly one, on the 12 outputs of chunks 1-3 |
| StreamCoordinator.NoReportBeforeSixthCallback | spice.js:356 | before the sixth chunk nothing has been reported |
| StreamCoordinator.FirstReport | spice.js:356-362 | after six chunks the single report is the one computed on the first three chunks |
| StreamCoordinator.ConcatOfThree | spice.js:338 | three chunks concatenate in order |
| NoteRendering.TruthyValues | spice.js:436 | at most one counted value per note |
| NoteRendering.Decimated | spice.js:436 | no more notes are drawn than are counted |
| NoteRendering.Formatted | spice.js:440 | the staff holds formatNote_ of each drawn note, in order |
| NoteRendering.DecimatedLength | spice.js:436 | one note is drawn for every three counted |
| NoteRendering.DecimatedPicksEveryThird | spice.js:436 | the k-th drawn note is the (3k+3)-th counted note |
| NoteRendering.NineNotesThreeDrawings | spice.js:436 | nine non-null, non-zero notes give exactly three drawings: the 3rd, 6th and 9th |
| NoteRendering.AllTruthy | spice.js:436 | when every note is truthy, every note is counted |
| NoteRendering.NoteRenderer.constructor | spice.js:431 | the count starts at 0 with an empty staff |
| NoteRendering.NoteRenderer.DrawNote | spice.js:434-440 | null and 0 return without counting; otherwise the count rises by one and the note is drawn iff the new count is a multiple of 3; the state stays Decimated of all notes received |
| Spectrogram.FedSum | spice.js:208-212 | a semitone no bin feeds sums to 0 |
| Spectrogram.FedCount | spice.js:209-213 | at most one contribution per bin |
| Spectrogram.BinNotes | spice.js:207 | one rounded semitone per bin |
| Spectrogram.RoundMonotone | spice.js:207 | Math.round never decreases |
| Spectrogram.BinNotesInRange | spice.js:188-207 | for an increasing log2 with log2(1) = 0, every bin's rounded semitone lies in 0..lastSemitone, so every write of the loop lands inside the lastSemitone + 1 rows |
| Spectrogram.BucketBySemitone | spice.js:188-217 | one row per semitone up to that of bin |freq| (lastSemitone + 1), each row the sum and the count of the bins feeding it under the map Math.round(analyzerBin2Note(i)) |
| Spectrogram.Accumulate | spice.js:202-217 | for any bin-to-semitone map: two fresh arrays whose row j is the sum and the count of the bins feeding semitone j (its own bin, or a skipped semitone back-filled by the next bin) |
| Spectrogram.NoGaps | spice.js:210-215 | every semitone in 1..(the last bin's semitone) is fed by some bin, whatever the order of the bins |
| Spectrogram.NothingAboveTheBins | spice.js:206-217 | a semitone above every bin's is fed by none |
| Spectrogram.FedSumBounds | spice.js:208-213 | with byte magnitudes each row's sum lies in [0, 255 count] |
| Spectrogram.NoInt32Overflow | spice.js:202-213 | with 512 byte-valued bins no row sum or count reaches 2^31: the Int32Array additions never wrap |

## Left out

- TensorFlow.js internals are not modelled: `tf.tensor`, `tf.reshape`, `dataSync`, and the in-place reshape of the dictionary's entries in `runModelFinal`. The engine is a pair of functions whose outputs are already decoded.
- RunModel: the engine gives one output per requested name; the positional `out[i]` pairing of `model.execute` is taken as correct.
- RunModel: the input window is taken to have at most 3072 samples, which the reshape to `[3072]` demands. The coordinator proves every window it passes has 0 or 3072 samples.
- `Math.pow`, `Math.log2` and IEEE double rounding are not modelled: the transcendentals are parameters, and all arithmetic is over the reals.
- ConfidenceAggregator.GetConfidentPitch: requires at least as many confidences as interior pitches (`Aligned`). A shorter confidence list reads `undefined` in JavaScript; `runModelFinal` never produces one.
- StreamCoordinator.LogModelData: the `toFixed`/`padStart` text of the frequency and the confidence, and the `&nbsp;` placeholder, are not modelled. The report keeps the numbers and `None` in their place.
- `noteHandlerCallback` is a recorded list of reports (`AudioProcessor.reports`) rather than a call into the page.
- The chunk length is fixed at 1024 samples, the script processor's buffer size.
- `renderFreqDomain`'s drawing is not modelled: the canvas, colours and the pitch-track overlay. The current pitch and confidence lists it receives are therefore not part of the coordinator's state.
- Spectrogram.BucketBySemitone: requires `log2` to be increasing on the positive reals with `log2(1) = 0`, as `Math.log2` is. The parameter stands for that function and its double rounding is not modelled. From these two facts `BinNotesInRange` proves that every write lands inside the array, so writes out of range (which an Int32Array ignores) are not modelled.
- Spectrogram.BucketBySemitone: the semitone map is computed for all bins before the loop rather than inside it. It is a pure function of the bin index, so the sums are the same.
- Spectrogram.Accumulate: the Int32Array wrap-around is not modelled; `NoInt32Overflow` shows it cannot happen for the analyser's 512 byte bins.
- NoteRendering.NoteRenderer.DrawNote: `NaN` (also falsy in JavaScript) is not a value of the model's notes. Notes are `null` or reals.
- NoteRendering.NoteRenderer.DrawNote: the VexFlow rendering is not modelled. That covers the clef and stave choice, accidentals, the scroll groups and their `setTimeout` removal.
- NoteRendering.NoteRenderer.DrawNote: the async mutex is not modelled. Draws are taken to run one at a time, in call order.
- NoteRendering.NoteRenderer.DrawNote: for a drawn note below semitone 5.5, `formatNote_` returns `""`, and the destructuring would give `undefined` for the name and the octave. The staff records `NoName` there.
- The engine is taken never to throw, so the failure path is not modelled. Nothing in `spice.js` catches an exception from `model.execute` or `tf.reshape`:
  - A throw inside `runModel` skips `++step`.
  - A throw in `runModelFinal` skips the rotation: `step` stays 2, the pending buffer keeps growing by 1024 samples per callback, and the combining call is retried on every callback.
- Browser I/O is not modelled: `getUserMedia`, the `AudioContext` and analyser setup, `logStatus` and `handleError`.
- `smooth` and `avg` are never called and are not modelled.
- `getGrayColor`, `getRedColor`, `noDigits` and `twoDigits` build display strings only and are not modelled.
