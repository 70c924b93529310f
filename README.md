# Sample: a verified model of the pipeline's decision logic

This pipeline takes batches of songs and produces audio samples. Its
scripts do five things:

- separate each song into stems;
- combine the bass, vocals and other stems of a song and write the
  combination reversed;
- estimate key and tempo and write them into the file name;
- cut tracks into 4-bar and 8-bar slices on the beat grid;
- delete near-silent files.

Around these steps the scripts do file I/O and call foreign models. This
project models the decisions those scripts make and proves properties of
them: which files are picked, how names are built and parsed back, how
buffers are padded, summed, sliced and flipped, and which key wins.

Listings, file contents, chroma vectors and beat times are inputs to the
model. Each write, rename, move or deletion the scripts perform is returned
as a value.

Modules, one per concern:

- `Wrappers`: the `Option` type.
- `Seqs`: list filtering with an `if` condition, defined from the back so
  that appending loops follow it step by step.
- `Text`: Python's `lower`, `endswith`, `rsplit(sep, 1)`, `os.path.splitext`,
  `os.path.basename`, `os.path.join` and `str(int)`.
- `KeyDetector`: `estimate_key_advanced` after the chroma is computed, and
  the renaming done by `label_files_with_key_bpm` (AdvancedKeyDetector.py).
- `KeyTemplates`: the template constants checked against the search. Each
  template, transposed to a tonic `k`, is recognised as key `k` in its own
  mode. Each of the 46 rival candidates for the untransposed templates has
  a one-line lemma `<T>TemplateVs<M>At<k>`, evaluated exactly from the
  constants. The dispatcher lemmas listed below gather them.
- `BeatSlicer`: `slice_4bars` (SmallSlices.py) and `slice_audio_by_8bars`
  (Slicer.py). Both are one loop, parameterised by the number of beats per
  slice (16 or 32) and by the name tag.
- `StemMixer`: `combine_stems` and `reverse_wav_file` (Reverser.py).
  - The fold runs over arrays. A shorter buffer is zero-padded into a fresh
    one, as `np.zeros_like` does, and the stem is then added in place.
  - It is proved equal to a sample-wise sum function.
- `Reversal`: `parse_filename` and `process_reversal` (Reverser.py).
  - The stem dictionary is grouped from the listing.
  - The bass, vocals and other stems are selected in that order.
  - Each song's step either skips the song, fails on a rate mismatch, or
    writes the combined file and its reversal.
- `Splitter`: the input filter of `process_audio_files` and the stem file
  naming of `move_demucs_files` (Splitter.py). It covers the round trip
  into Reverser.py's `parse_filename`.
- `CleanSilent`: `remove_silent_audio_recursively` (CleanSilent.py), with
  the folder walk given as its entries.

The rate-mismatch `ValueError` of `combine_stems` is not caught anywhere in
`process_reversal`. A mismatch therefore ends the whole run at that song:
the songs after it are not processed. The model follows the code here
(`ReversalRun.Failed`, `Reversal.FailureIsFinal`). This differs from a
reading in which the error only cancels the one combination and the batch
goes on.

## Model

| member | source | states |
|---|---|---|
| KeyDetector.Profile | AdvancedKeyDetector.py:8-13 | Both key templates have twelve bins. |
| KeyDetector.Rotate | AdvancedKeyDetector.py:53 | The rolled chroma has twelve bins. |
| KeyDetector.RotateAt | AdvancedKeyDetector.py:53 | Bin `j` of `np.roll(chroma, -shift)` holds bin `(j + shift) % 12` of the chroma. |
| KeyDetector.Dot | AdvancedKeyDetector.py:55-56 | `np.dot` of two twelve-bin vectors. `ScoreOfTransposed` states how the scores built on it move under transposition. |
| KeyDetector.Score | AdvancedKeyDetector.py:53-56 | The score of one of the 24 candidates: the dot product of the rolled chroma with the mode's template. `ScoreOfTransposed` relates it across transpositions. |
| KeyDetector.ShiftMode | AdvancedKeyDetector.py:58-67 | The mode a shift settles on: major only when its score is strictly larger. `ShiftScore` and `EstimateKey` state the tie going to minor. |
| KeyDetector.IsBestKey | AdvancedKeyDetector.py:48-69 | The specification of the search: tonic in range, the mode its shift settles on, no higher score among the 24 candidates, and every earlier shift strictly lower. `EstimateKeySpec` and `BestKeyUnique` tie it to `EstimateKey`. |
| KeyDetector.ShiftScore | AdvancedKeyDetector.py:55-67 | Each shift settles on its mode. The score it competes with is that mode's score, and it is at least both the major and the minor score. |
| KeyDetector.EstimateKey | AdvancedKeyDetector.py:48-69 | The search always returns a key, with a tonic below 12. The mode is major exactly when the major score is strictly larger, so ties go to minor. No score among the 24 candidates is higher than the key's. Every candidate at an earlier shift scores strictly lower, so the earliest best shift wins. |
| KeyDetector.EstimateKeySpec | AdvancedKeyDetector.py:52-67 | A key meeting the search's postconditions meets the best-key predicate. Together with `BestKeyUnique`, the predicate then pins down the one key the search returns. |
| KeyDetector.BestKeyUnique | AdvancedKeyDetector.py:58-67 | At most one key meets that predicate, so the strict tie-breaks make the result unique. |
| KeyDetector.KeyName | AdvancedKeyDetector.py:61-67 | The label `"<pitch class> major"` or `"<pitch class> minor"`. `KeyNameIsPlain` and `KeyNameInjective` state its properties. |
| KeyDetector.KeyNameIsPlain | AdvancedKeyDetector.py:61-67 | The label "<pitch class> major/minor" has no underscore, dot or slash, so it cannot disturb the later splits of a file name. |
| KeyDetector.KeyNameInjective | AdvancedKeyDetector.py:17-18 | Different keys get different labels. |
| KeyDetector.RenameWithInstrument | AdvancedKeyDetector.py:95-101 | If the root contains an underscore, the new name is `stem_<bpm>BPM_<key>_instrument` followed by the old extension, with stem and instrument split at the last underscore. |
| KeyDetector.RenameWithoutUnderscore | AdvancedKeyDetector.py:102-106 | If the root has no underscore, the new name is `root_<bpm>BPM_<key>` followed by the old extension. |
| KeyDetector.RenameKeepsExtension | AdvancedKeyDetector.py:106 | Splitting the new name gives back the original extension. |
| KeyDetector.RenamedWithKeyBpm | AdvancedKeyDetector.py:95-106 | The new file name. `RenameWithInstrument`, `RenameWithoutUnderscore`, `RenameKeepsExtension` and `LabelRoundTrip` state its two branches, the kept extension and the round trip. |
| KeyDetector.LabelRoundTrip | AdvancedKeyDetector.py:95-106 | A labelled `<stem>_<instrument>` file still parses with Reverser.py's `parse_filename`. The base is `<stem>_<bpm>BPM_<key>` and the instrument is the lower-cased old instrument. |
| KeyDetector.LabelFilesWithKeyBpm | AdvancedKeyDetector.py:85-108 | One rename for each entry whose lower-cased name ends in `.mp3` or `.wav`, in listing order. Each rename carries the best key of that file's chroma and the new name built from it and the tempo. An empty selection renames nothing. |
| KeyDetector.IsKeyInput | AdvancedKeyDetector.py:86 | `f.lower().endswith((".mp3", ".wav"))`. `Filter`'s membership ensures, through `LabelFilesWithKeyBpm`, states that exactly the entries it accepts are renamed. |
| KeyDetector.LabelEach | AdvancedKeyDetector.py:91-108 | Given the keys the loop in `EstimateKeys` computes, every selected file gets one rename, in order, to its labelled name. |
| KeyDetector.EstimateKeys | AdvancedKeyDetector.py:91-93 | Each file gets the best key of its own chroma. |
| KeyTemplates.Transposed | AdvancedKeyDetector.py:8-13 | A template transposed by `k` semitones still has twelve bins. |
| KeyTemplates.TransposedAt | AdvancedKeyDetector.py:53 | Transposing moves bin `j` of a template to bin `(j + k) % 12`. |
| KeyTemplates.RotateTwice | AdvancedKeyDetector.py:53 | Rolling twice is rolling by the sum of the shifts, modulo 12. |
| KeyTemplates.ScoreOfTransposed | AdvancedKeyDetector.py:53-56 | Scoring a transposed vector at shift `s` is scoring the original at shift `(s - k) mod 12`. |
| KeyTemplates.MajorTemplateBeatsMajor | AdvancedKeyDetector.py:8-10 | On the major template, every other shift in major mode scores strictly below shift 0 in major mode. |
| KeyTemplates.MajorTemplateBeatsMinor | AdvancedKeyDetector.py:8-13 | On the major template, every shift in minor mode scores strictly below shift 0 in major mode. |
| KeyTemplates.MinorTemplateBeatsMajor | AdvancedKeyDetector.py:8-13 | On the minor template, every shift in major mode scores strictly below shift 0 in minor mode. |
| KeyTemplates.MinorTemplateBeatsMinor | AdvancedKeyDetector.py:11-13 | On the minor template, every other shift in minor mode scores strictly below shift 0 in minor mode. |
| KeyTemplates.TransposedMajorBeatsMajor | AdvancedKeyDetector.py:55 | On the major template transposed to `k`, major scores at shifts other than `k` stay strictly below its own key's score. |
| KeyTemplates.TransposedMajorBeatsMinor | AdvancedKeyDetector.py:56 | On the major template transposed to `k`, every minor score stays strictly below its own key's score. |
| KeyTemplates.TransposedMajorRecognised | AdvancedKeyDetector.py:48-69 | The major template transposed to any tonic `k` is the best key `k` major. |
| KeyTemplates.TransposedMinorBeatsMajor | AdvancedKeyDetector.py:55 | On the minor template transposed to `k`, every major score stays strictly below its own key's score. |
| KeyTemplates.TransposedMinorBeatsMinor | AdvancedKeyDetector.py:56 | On the minor template transposed to `k`, minor scores at shifts other than `k` stay strictly below its own key's score. |
| KeyTemplates.TransposedMinorRecognised | AdvancedKeyDetector.py:48-69 | The minor template transposed to any tonic `k` is the best key `k` minor. |
| KeyTemplates.TransposedTemplateRecognised | AdvancedKeyDetector.py:48-69 | For every tonic and both modes, a template transposed to that tonic is recognised as that key. |
| BeatSlicer.SegmentCount | SmallSlices.py:27-32 | The number of slices `n` satisfies `n * bps <= len(beats) < (n + 1) * bps`, where `bps` is the number of beats per slice. It is zero exactly when there are fewer than `bps` beats. |
| BeatSlicer.SegmentFits | SmallSlices.py:35-38 | Every counted slice has all of its `bps` beats. |
| BeatSlicer.SegmentBounds | SmallSlices.py:36-39 | A slice's start and end beat indices are ordered and both lie in `0..len(beats)-1`. |
| BeatSlicer.SegmentBoundsClamp | Slicer.py:38-42 | Slice `i` starts at beat `i * bps` and ends at beat `(i + 1) * bps` or at the last beat. It is clamped to the last beat exactly when it is the final slice and `bps` divides the beat count. |
| BeatSlicer.SegmentsAbut | SmallSlices.py:36-39 | Each slice ends on the beat where the next one starts. |
| BeatSlicer.TruncToInt | SmallSlices.py:41-42 | `int(x)` truncates toward zero: it is at most `x` for non-negative `x` and at least `x` for negative `x`, and always within 1 of `x`. |
| BeatSlicer.SampleIndexMonotone | SmallSlices.py:41-42 | For non-negative times, a later time never falls on an earlier sample. |
| BeatSlicer.SampleIndex | SmallSlices.py:41-42 | `int(t * 44100)`. `TruncToInt` and `SampleIndexMonotone` state its bounds and its order. |
| BeatSlicer.SliceIndex | SmallSlices.py:43 | A slice end index is clamped to `0..len`. An index already inside that range is kept as is. |
| BeatSlicer.PySlice | SmallSlices.py:43 | `signal[start:end]` is the plain subsequence for in-range ordered bounds, empty when the end is not after the start, and never longer than the signal. |
| BeatSlicer.PySliceSplit | SmallSlices.py:43 | Two slices that meet at an index are the slice spanning both, with no sample lost or repeated. |
| BeatSlicer.SegmentNameInjective | SmallSlices.py:45 | Different slice numbers give different names `<base>_<tag>_segment_<k>.wav`. |
| BeatSlicer.SegmentNameIsPlain | SmallSlices.py:45 | A slice name contains no slash. |
| BeatSlicer.SegmentName | SmallSlices.py:45 | `<base>_<tag>_segment_<k>.wav`. `SegmentNameInjective` and `SegmentNameIsPlain` state its properties. |
| BeatSlicer.SliceBase | SmallSlices.py:34 | The base name, the file name without folder or extension, contains no slash. |
| BeatSlicer.SliceByBeats | SmallSlices.py:27-47 | The shared slicing loop, also that of Slicer.py:29-52. It writes one slice for each full group of beats, and none below one group. Write `i` is the planned slice: the signal between the samples its start and end beats fall on, written at 44100 Hz under the name numbered `i + 1` in the output folder. |
| BeatSlicer.PlannedSlice | SmallSlices.py:36-47 | The write for slice `i`: the signal between the samples of its start and end beats, at 44100 Hz, under its numbered name. `SliceByBeats`, `PlannedPathsDistinct` and `SlicesTile` state its properties. |
| BeatSlicer.SliceFourBars | SmallSlices.py:26-47 | `slice_4bars` uses 16 beats per slice and the tag `4bar`. It writes `len(beats) // 16` planned slices to pairwise different paths. |
| BeatSlicer.SliceEightBars | Slicer.py:28-52 | `slice_audio_by_8bars` uses 32 beats per slice and the tag `8bar`. It writes `len(beats) // 32` planned slices to pairwise different paths. |
| BeatSlicer.PlannedPathsDistinct | SmallSlices.py:45-46 | Two different slices of one file have different output paths. |
| BeatSlicer.PlannedWritesDistinct | Slicer.py:48-52 | Writes that follow the plan go to pairwise different paths. |
| BeatSlicer.SlicesTile | SmallSlices.py:36-43 | For ordered beat times, the first `n` slices laid end to end are the signal from the first beat's sample to the end of slice `n - 1`: no overlap and no gap. |
| BeatSlicer.FortyBeatsInFourBars | SmallSlices.py:31-39 | 40 beats give two 16-beat slices, covering beats 0 to 16 and 16 to 32. |
| BeatSlicer.SixtyFourBeatsInEightBars | Slicer.py:34-42 | 64 beats give two 32-beat slices, and the second is clamped to beat 63. |
| BeatSlicer.TooFewBeats | SmallSlices.py:27-29 | Fewer beats than one slice needs give no slices. |
| StemMixer.MaxLen | Reverser.py:30-39 | The longest stem's length bounds every stem and is attained by one of them when there are stems. With no stems it is 0. |
| StemMixer.Mix | Reverser.py:25-41 | The mix is as long as the longest stem. Each sample is the sum, over the stems long enough to have it, of their samples at that index. |
| StemMixer.SumAt | Reverser.py:30-41 | The value `combined_data += stem_data` leaves at one index after all stems. `Mixes`, `MixesStep` and `SumAtBeyond` state that it is the zero-padded sum. |
| StemMixer.MixesUnique | Reverser.py:31-41 | A list of stems has exactly one mix. |
| StemMixer.FirstRateMismatch | Reverser.py:25-28 | Gives the first stem whose rate differs from the first stem's, or proves all rates equal. |
| StemMixer.Combine | Reverser.py:16-43 | The three outcomes of combining stems. An empty list gives nothing to combine. Otherwise a rate mismatch is reported at the first differing stem, and it occurs exactly when the rates are not all equal. Otherwise the result is the mix at the first stem's rate. |
| StemMixer.SumAtBeyond | Reverser.py:31-41 | Past the end of the longest stem, every sum is zero. |
| StemMixer.MixesStep | Reverser.py:30-41 | Adding the next stem, zero-padded, to the zero-padded mix of the stems before it gives the mix of one stem more. |
| StemMixer.ToArray | Reverser.py:22 | The buffer holds the decoded samples. |
| StemMixer.ZeroPadded | Reverser.py:33-34 | `np.zeros_like` followed by `padded[:len(data)] = data` gives the data, then zeros. |
| StemMixer.AddInto | Reverser.py:41 | `combined += stem` adds sample by sample, in place. |
| StemMixer.PadAndAdd | Reverser.py:26-41 | One step of the fold. The result is as long as the longer of the mix and the stem. Each sample is the old mix's sample plus the stem's, with missing samples taken as zero. The result is the old buffer or a fresh one. When it is a fresh one, the old buffer keeps its contents. |
| StemMixer.CombineStems | Reverser.py:6-44 | The array fold computes exactly `Combine`. |
| StemMixer.SingleStemMix | Reverser.py:21-22 | A single stem is written unchanged. |
| StemMixer.MaxLenGrows | Reverser.py:36-39 | The running mix never gets shorter as stems are added. |
| StemMixer.MixExample | Reverser.py:31-41 | Five samples of 1 mixed with three samples of 2 give `[3, 3, 3, 1, 1]`. |
| StemMixer.Reversed | Reverser.py:52 | `np.flipud` keeps the length, and output sample `i` is input sample `n - 1 - i`. |
| StemMixer.ReversedTwice | Reverser.py:52 | Flipping twice gives the original. |
| StemMixer.ReverseWavFile | Reverser.py:46-56 | The file is written reversed, at its own rate and length, to `out_path`, or over `in_path` when no output path is given. |
| StemMixer.ReverseWavFileTwice | Reverser.py:46-56 | Reversing a reversed file restores its audio. |
| Reversal.ParseFilenameParts | Reverser.py:103-117 | The instrument never contains an underscore. Without an underscore in the extensionless name, the result is that name with instrument "unknown". Otherwise the base is the text before the last underscore and the instrument the lower-cased text after it. |
| Reversal.ParseStemFileName | Reverser.py:108-117 | `<base>_<instrument>.wav` parses back into the base and the lower-cased instrument, provided the instrument has no underscore. |
| Reversal.ParseFilename | Reverser.py:103-117 | `parse_filename`. `ParseFilenameParts`, `ParseStemFileName` and `LabelRoundTrip` state what it returns. |
| Reversal.StemKey | Reverser.py:70-75 | A `.wav` entry is filed under its parsed song and instrument, any other entry nowhere. |
| Reversal.IsWav | Reverser.py:71 | `filename.lower().endswith(".wav")`. Through `StemKey`, `GroupedStems` states that only the entries it accepts are filed. |
| Reversal.Grouped | Reverser.py:67-78 | `stems_dict` after the collecting loop. `GroupedStems` states which path each song and instrument keeps, `GroupStems` that the loop builds it. |
| Reversal.BaseOrder | Reverser.py:76-81 | The dictionary's iteration order, by first insertion. `BaseOrderKeys` states that it lists each key once. |
| Reversal.LastStemFile | Reverser.py:70-78 | Gives the last listing entry filed as a given song and instrument, or proves there is none. |
| Reversal.GroupedStems | Reverser.py:70-78 | A song has a path for an instrument exactly when some `.wav` entry is filed under them. The path kept is the one joined from the last such entry: a later file overwrites an earlier one. |
| Reversal.BaseOrderKeys | Reverser.py:76-81 | The songs are visited once each, and they are exactly the keys of the stem dictionary. |
| Reversal.GroupedSnoc | Reverser.py:70-78 | One more listing entry leaves the dictionary and its order unchanged, or files that entry under its song and instrument. A new song goes last. |
| Reversal.FileStem | Reverser.py:76-78 | `stems_dict[base][instrument] = path`, which creates the song's entry, last in iteration order, when the song is new. |
| Reversal.GroupStems | Reverser.py:67-78 | The collecting loop builds the grouped dictionary and its insertion order. |
| Reversal.ExistingInOrder | Reverser.py:83-91 | The paths combined are the bass, vocals and other paths in that order, using only the ones present. There are none exactly when all three are missing. |
| Reversal.CollectExisting | Reverser.py:83-87 | The loop gathers the needed instruments' paths, in the order bass, vocals, other. |
| Reversal.ExistingAmong | Reverser.py:83-87 | The needed instruments' paths that exist. `ExistingInOrder` states their order and when there are none. |
| Reversal.OutputNamesDistinct | Reverser.py:93-100 | Different songs get different combined names and different reversed names, and never does a combined name equal a reversed one. |
| Reversal.CombinedName | Reverser.py:93 | `<base>_BassVocalsOther.wav`. `OutputNamesDistinct` states that it is injective and never a reversed name. |
| Reversal.ReversedName | Reverser.py:100 | `<base>_BassVocalsOther_reversed.wav`. `OutputNamesDistinct` states that it is injective. |
| Reversal.ReadAll | Reverser.py:21-26 | Each path is read in order. |
| Reversal.SongStepOf | Reverser.py:83-101 | A song is skipped exactly when none of its three stems exists. It fails exactly when it has stems whose rates are not all equal, and the error names one of its stems. Otherwise the step writes `Combine` of the stems under the combined name, and that audio flipped, at the same rate, under the reversed name. |
| Reversal.FailureIsFinal | Reverser.py:27-28 | Once a song's rate mismatch has ended the run, no later song adds a write or changes the error. |
| Reversal.RunOver | Reverser.py:81-101 | The songs' steps in order, stopping at the first rate error. `FailureIsFinal` states that the failure is final, `ReverseSongs` that the loop computes it. |
| Reversal.ReverseSong | Reverser.py:82-101 | The loop body for one song computes exactly its step. |
| Reversal.ProcessReversal | Reverser.py:58-101 | `process_reversal` performs the steps of the songs in dictionary order and stops at the first failure. |
| Reversal.ReverseSongs | Reverser.py:81-101 | The song loop computes that run. |
| Splitter.InputPaths | Splitter.py:133-135 | Never selects more inputs than the listing has entries. |
| Splitter.InputPathsSelect | Splitter.py:133-135 | A plain file is separated exactly when it is listed and its lower-cased name ends in `.mp3`, `.wav`, `.flac`, `.ogg` or `.m4a`. |
| Splitter.IsSupportedInput | Splitter.py:7 | A lower-cased name ending in one of `SUPPORTED_EXTENSIONS`. `InputPathsSelect` states the selection it makes. |
| Splitter.SelectInputs | Splitter.py:133-137 | The loop selects those inputs, in listing order. |
| Splitter.StemFileNameParses | Splitter.py:101-105 | Reverser.py's `parse_filename` applied to `<base>_<instrument>.wav` gives the input's base and the lower-cased instrument, provided the instrument has no underscore. |
| Splitter.StemFileName | Splitter.py:101-105 | `<input base>_<stem>.wav`. `StemFileNameParses` and `StemFileNameInjective` state its round trip and injectivity. |
| Splitter.PlannedMoves | Splitter.py:102-107 | Never more moves than files. |
| Splitter.MoveDemucsFiles | Splitter.py:100-109 | The renaming loop performs exactly the planned moves. |
| Splitter.PlannedMovesSelect | Splitter.py:102-107 | A plain file of the song folder is moved to its stem name exactly when its name ends in `.wav`. |
| Splitter.WavCaseDiffers | Splitter.py:103 | The move filter is case-sensitive, unlike the input filter. `X.WAV` is separated, but a stem file `bass.WAV` is not moved. |
| Splitter.WavSplits | Splitter.py:104 | A name ending in `.wav` splits into the rest of the name and `.wav`. |
| Splitter.StemFileNameInjective | Splitter.py:103-107 | Different `.wav` stem files get different destinations. |
| CleanSilent.Flatten | CleanSilent.py:28-29 | The rows laid end to end. Its own contract only bounds the length by the last row; `FlattenHolds` states what flattening keeps: every sample of every row, and nothing else. |
| CleanSilent.FlattenHolds | CleanSilent.py:28-29 | A value is in the flattened data exactly when it is in one of the rows. |
| CleanSilent.Samples | CleanSilent.py:26-29 | The data the peak is measured over, flattened when it has several channels. `FlattenHolds` states that it holds exactly the samples of every channel. |
| CleanSilent.MaxAbs | CleanSilent.py:31 | `np.max(np.abs(data))` bounds every absolute sample and is attained. It is missing exactly for empty data, where numpy raises. |
| CleanSilent.IsSilentMeans | CleanSilent.py:25-35 | A file is deleted exactly when it was read, has samples, and every absolute sample is strictly below the threshold. |
| CleanSilent.IsSilent | CleanSilent.py:25-32 | The deletion test. `IsSilentMeans` and `AtThresholdKept` state exactly when it holds. |
| CleanSilent.AtThresholdKept | CleanSilent.py:32 | A file whose loudest sample is exactly at the threshold is kept. |
| CleanSilent.AudioPaths | CleanSilent.py:17-23 | Never more paths than walk entries. |
| CleanSilent.AudioPathsSelect | CleanSilent.py:17-23 | The examined paths are exactly the joined paths of the walk entries whose names pass the filter. |
| CleanSilent.IsAudioFile | CleanSilent.py:13-21 | A lower-cased name ending in one of the valid extensions. `AudioPathsSelect` states the selection it makes. |
| CleanSilent.RemoveSilent | CleanSilent.py:13-37 | `removed_files` is the examined audio paths, in walk order, filtered by the deletion rule. An unreadable file or one without samples is skipped, and the walk goes on. |
| CleanSilent.RemovedFiles | CleanSilent.py:15-35 | Each path is removed at most once, provided the walk meets it once. A path is removed exactly when it is an examined audio path that is silent, and every other file is left in place. |
| Text.Lower | Reverser.py:116 | Lower-casing keeps the length and maps each character on its own. |
| Text.LowerKeepsPunctuation | Reverser.py:116 | Lower-casing neither adds nor removes an underscore or a dot. |
| Text.EndsWith | Reverser.py:71 | `str.endswith`. `PlannedMovesSelect` and `WavCaseDiffers` state how the filters built on it select. |
| Text.LastIndexOf | Reverser.py:114 | Finds the last occurrence of a character, or proves that it does not occur. |
| Text.RSplitOnce | Reverser.py:114 | `rsplit(sep, 1)` rebuilds the string, leaves no separator in the right part, and splits exactly when the separator occurs. |
| Text.RSplitOnceOf | AdvancedKeyDetector.py:96 | The split at the last separator is the only split whose right part has no separator. |
| Text.SplitExt | Reverser.py:108 | `splitext` rebuilds the name. Its extension is empty without a dot, and otherwise starts with the last dot. |
| Text.SplitExtOf | AdvancedKeyDetector.py:95 | A root followed by a single-dot extension splits back into them. |
| Text.Basename | Splitter.py:101 | `basename` is a slash-free suffix of the path, and the path itself when the path has no slash. |
| Text.BasenameOfJoin | Reverser.py:73 | The base name of a file name joined onto a folder is the file name. |
| Text.PathJoin | Reverser.py:73 | POSIX `os.path.join` for two components. `BasenameOfJoin` and `PathJoinInjective` state its properties. |
| Text.PathJoinInjective | Reverser.py:73 | Different plain file names joined onto one folder give different paths. |
| Text.NatToString | AdvancedKeyDetector.py:101 | `str(n)` is a non-empty string of digits. |
| Text.NatToStringInjective | SmallSlices.py:45 | Different numbers are rendered differently. |
| Seqs.Filter | AdvancedKeyDetector.py:86 | `[f for f in files if keep(f)]` never adds entries, and keeps exactly the entries that `keep` accepts. |
| Seqs.FilterNoDuplicates | CleanSilent.py:35 | Filtering a list without duplicates gives a list without duplicates. |

## Left out

- Feature extraction and beat tracking are foreign models with floating
  point numerics: librosa's `hpss`, `chroma_cqt` and `beat_track`,
  `estimate_bpm` with its rounding, and madmom's beat processors. The chroma
  vector, the rounded tempo and the beat times are inputs to the model.
- Audio I/O and filesystem changes are not performed by the model:
  - `sf.read` and `Signal` are given as a function from path to decoded
    data, or as the loaded signal;
  - `sf.write`, `os.rename`, `shutil.move` and `os.remove` are returned as
    write, rename or move records, or as the removed paths;
  - `os.listdir` and `os.walk` are given as sequences in an unspecified
    order;
  - `os.makedirs` is not modelled.
- The Demucs subprocess of Splitter.py is not modelled, nor are the
  temporary folder, its cleanup, and the search for the `htdemucs` and song
  folders (Splitter.py:10-98). `MoveDemucsFiles` takes the song folder and
  its listing as given.
- MasterProcess.py is not part of this model. It only orchestrates
  subprocesses.
- The `main` functions, the command-line handling, printing, and
  Slicer.py's hard-coded folders are not modelled.
  - The 8-bar slicer takes its output folder as a parameter.
  - The folder loop around `slice_audio_by_8bars` (Slicer.py:58-62) is not
    modelled.
  - `process_audio_files`'s exit on a missing input folder is not
    modelled.
- Samples are exact reals. The float32 accumulation of the combined buffer
  is not modelled, nor NaN values. Once a longer stem is padded, the source's
  accumulator also becomes float64; the model does not tell the two apart.
- KeyDetector.Score and KeyDetector.EstimateKey compute the dot products over
  exact reals, not numpy's float64. A tie that is exact over the reals can
  break either way in float64: between modes, or between shifts. The rounding
  can then flip the strict `>` tie-breaks, so the source may return a
  different key than the model on such inputs.
- BeatSlicer.SampleIndex multiplies beat times by 44100 over exact reals. The
  float64 rounding of `t * 44100` before `int()` can move a slice bound by
  one sample, which the model does not capture.
- KeyDetector.LabelFilesWithKeyBpm and Reversal.ProcessReversal take
  `analyse` and `read` as total functions, and BeatSlicer.SliceByBeats takes
  the loaded signal as given. In the source, these calls raise uncaught when
  they fail:
  - `librosa.load` in `detect_key_bpm` (AdvancedKeyDetector.py:93);
  - `sf.read` (Reverser.py:21, 26, 51);
  - madmom's `Signal` and beat tracking (SmallSlices.py:16-23, Slicer.py:17).

  Such a failure ends the run part-way, after the earlier renames and writes
  have happened. The model does not represent that outcome. CleanSilent is
  the only part where a failed read is modelled, because its source catches
  it.
- KeyDetector.EstimateKey: the running best starts at minus infinity, which
  the model encodes with an empty best key, so the first candidate always
  wins. With NaN scores the source could return None; the model has no NaN,
  so it always returns a key.
- KeyDetector.LabelFilesWithKeyBpm reads `analyse` as fixed per original
  name. The source fixes `files` before the loop and renames as it goes
  (AdvancedKeyDetector.py:86, 93, 106-108). A rename onto a name that comes
  later in the listing therefore changes that later file: `os.rename`
  overwrites it, and the next iteration analyses the moved audio. An example
  is a folder holding `A_bass.mp3` and `A_120BPM_C major_bass.mp3`. The model
  does not capture the overwrite, the lost audio, or the re-analysis of the
  moved file. Its contract gives each rename the key and tempo of the
  original file under that name.
- KeyDetector.LabelFilesWithKeyBpm requires every chroma to have twelve
  bins, which `np.mean(chroma_cqt(...), axis=1)` always gives.
- StemMixer.AudioFile holds mono samples only.
  - Multi-channel stems in `combine_stems` and `reverse_wav_file` are not
    modelled, and neither is numpy broadcasting for mixed channel layouts.
  - `np.flipud` flips frames: on a multi-channel file it reverses the rows,
    and the model's `Reversed` is generic over the element type.
  - Multi-channel data is modelled only in CleanSilent, which flattens it.
- Reversal.SongStepOf reverses the exact combined samples. The source
  writes the combined file with `sf.write` and no subtype, which gives a
  PCM_16 WAV, and reverses what it reads back (Reverser.py:43, 51-55). Those
  samples are quantised to 16 bits and clipped to [-1, 1). A sum of three
  stems can go past full scale. The model captures neither the
  quantisation nor the clipping.
- Text.Lower lower-cases ASCII letters only. Python's Unicode case mapping
  is not modelled.
- Text.SplitExt splits at the last dot. The leading-dot exception of
  `os.path.splitext` (a name such as `.wav` has an empty extension) is not
  modelled.
- Text.PathJoin follows POSIX `os.path.join` for two components.
- CleanSilent.RemoveSilent takes `silence_threshold` as a parameter. The
  source's default of `1e-4` (CleanSilent.py:5) is one value of it.
- CleanSilent.RemoveSilent does not model a failing `os.remove`. The source
  also catches that error and leaves the path out of `removed_files`.
