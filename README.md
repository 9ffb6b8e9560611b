# Speech-decoding datasets: index and shape bookkeeping

This project models the index and shape bookkeeping of `data/datasets.py`,
the data pipeline that pairs brain-signal windows (EEG or MEG) with windows
of the stimulus audio. It covers two corpora:

- **Brennan 2018** (`Brennan2018Dataset`). Every subject heard the same
  audio. The brain tensor (subjects, channels, time) is shifted by the
  neural latency against the audio track (`shift_brain_signal`). Both are
  then cut into windows of `seq_len` samples, and every subject's brain
  windows are paired with the same audio windows (`batchfy`).
- **Gwilliams 2022** (`Gwilliams2022Dataset`). Recordings are stored under
  keys `subject{NN}_sess{s}_task{t}`.
  - `trim_nosound_regions` drops the leading annotations that carry the
    silence marker `sound_id == -1`. It then keeps one column range per
    maximal run of equal `sound_id` after them. A later run of -1 is kept as
    a range of its own, like any other run.
  - The real duration of every stimulus is kept per task
    (`update_real_durations`). It is used to cut the stimulus audio (the
    cutoff rule of `audio_preproc`).
  - `batchfy` windows each recording and the audio of its task. It checks
    that the two window counts agree, tags every window with the subject
    index parsed back out of the key, and concatenates everything.

Representation:

- Tensors are nested sequences over an abstract element type (module
  `Tensors`).
- Python's slicing, negative indexing, `int()` truncation and `str.split`
  are stated exactly (modules `PyLang` and `PyText`). `str`, `str.zfill` and
  `int(str)` are stated for what the keys hold: unsigned ASCII digit
  strings, optionally signed and space-padded for `int(str)`.
- Every Python exception the modelled code can raise is a `PyError` inside
  a `Result` (module `Outcomes`).
- Times are integer microseconds.
- `batchfy` is the `Gwilliams2022Dataset` class's method over the
  recordings in the dict's iteration order. It is proved equal to a specification
  (`BatchfyOf`), built from one pure function per recording
  (`RecordingBatch`).
- `update_real_durations` is a method that updates the durations map in
  place.

Behaviour of the code that the model states as written:

- The latency is `int(srate * shift / 1000)`, truncated toward zero, not
  rounded.
- The shifted tensors are never truncated to a common length.
- A latency that truncates to 0 samples empties the audio (`Y[:, :-0]`), so
  `batchfy`'s length assertion fails (`ZeroLatencyFailsBuild`). With a
  0 ms latency, 2 subjects and 1000 samples, for example, the dataset
  cannot be built.
- The duration comparison raises ValueError (it does not only warn) when the
  two lists have different lengths and neither has length one, because
  numpy cannot broadcast them (`UpdateRealDurations`).
- `X[:, :-trim]` with `trim == 0` empties a Gwilliams recording, so a
  recording whose length is an exact multiple of the window contributes no
  window (`WindowCount`, `ExactMultipleRecordingFails`).
- The subject index is read from the last two characters of the subject
  token only. Subject numbers above 99 are misread (`ThreeDigitSubjectsMisread`,
  `SubjectsCollide`), which does not affect the 27 subjects the corpus has.

## Model

| member | source | states |
|---|---|---|
| PyLang.Trunc | data/datasets.py:34 | `int()` of a number truncates toward zero: the result is within one of the argument, on the side of zero |
| PyLang.TruncDiv | data/datasets.py:370 | `int(µs / 1000)` truncates toward zero for either sign, unlike Dafny's Euclidean division |
| PyLang.Index | data/datasets.py:219-220 | a Python index is valid exactly when `-n <= i < n`, and reads position `i` or `n + i` |
| PyLang.Slice | data/datasets.py:370 | `s[start:stop]` has `Bound(stop) - Bound(start)` elements after negative bounds count from the end and both are clamped to `[0, len]`, and none when the bounds cross |
| PyLang.From | data/datasets.py:36 | `s[start:]` keeps `len - Bound(start)` elements |
| PyLang.Upto | data/datasets.py:37 | `s[:stop]` keeps `Bound(stop)` elements |
| PyLang.UptoNonNegative | data/datasets.py:321 | `s[:k]` for `k >= 0` is the first `k` elements, or all of `s` when `k` exceeds its length |
| PyLang.UptoNegative | data/datasets.py:37 | `s[:-k]` for `k > 0` drops the last `k` elements, leaving nothing when `k` reaches the length |
| PyLang.FromNonNegative | data/datasets.py:36 | `s[k:]` for `k >= 0` drops the first `k` elements, leaving nothing when `k` reaches the length |
| PyLang.FromNegative | data/datasets.py:242 | `s[-k:]` for `k > 0` is the last `k` elements, or all of `s` when it is shorter |
| PyText.Str | data/datasets.py:257 | `str(n)` is a non-empty string of decimal digits without a leading zero, one character exactly when `n < 10` |
| PyText.DigitsValueOfStr | data/datasets.py:257 | the decimal value of `str(n)` is `n` |
| PyText.ParseDigitString | data/datasets.py:242 | `int()` of a non-empty ASCII digit string is its decimal value, leading zeros included |
| PyText.ZFill | data/datasets.py:257 | `zfill` keeps the string as its suffix, pads with '0' on the left and reaches the requested width |
| PyText.Split | data/datasets.py:233 | `split` returns at least one piece and no piece holds the separator |
| PyText.JoinSplit | data/datasets.py:233 | joining the pieces of a split with the separator gives back the string |
| PyText.SplitJoin | data/datasets.py:257 | splitting a join of separator-free pieces gives back the pieces |
| PyText.ParseZFilledStr | data/datasets.py:242 | `int(str(n).zfill(w)) == n` for every `n` and width |
| Keys.TaskOf | data/datasets.py:233 | the task token taken from a key holds no underscore |
| Keys.SubjectToken | data/datasets.py:242 | the subject token is at most the last two characters of the first token |
| Keys.AudioKey | data/datasets.py:341 | `task{t}` is `task` followed by digits whose value is `t`, with no '_' in it |
| Keys.AudioKeyInjective | data/datasets.py:379 | two tasks share an audio (and real-duration) key exactly when they are the same task |
| Keys.SubjectOf | data/datasets.py:242 | the subject read from a key fails only with ValueError, and otherwise lies in `[-10, 98]`: two characters cannot name a subject above 99 |
| Keys.SubjectIndex | data/datasets.py:242 | `int(token) - 1`, and the only failure is ValueError; digit tokens succeed (`SubjectIndexOfDigits`), tokens with a character other than a digit, a sign or ASCII whitespace raise ValueError (`SubjectIndexRejects`), and in general the token succeeds exactly in the form `PyText.ParseIntPadded` and `PyText.ParseIntShape` describe |
| Keys.SubjectIndexOfDigits | data/datasets.py:242 | a token of decimal digits gives its value minus one |
| Keys.SubjectIndexRejects | data/datasets.py:242 | a token holding a character that is not a digit, a sign or ASCII whitespace raises ValueError |
| Keys.SeparatorPaddedTokenRejected | data/datasets.py:242 | the token `"\x1c5"` raises ValueError: U+001C is not whitespace to `int()` |
| PyText.ParseIntRejects | data/datasets.py:242 | `int(s)` raises ValueError when `s` holds a character other than a digit, a sign or the whitespace it strips |
| PyText.ParseIntPadded | data/datasets.py:242 | `int()` of whitespace, an optional sign, a non-empty run of digits and whitespace is the signed value of the digits |
| PyText.ParseIntShape | data/datasets.py:242 | every string `int()` accepts is whitespace, an optional sign, digits and whitespace, and its value is the signed value of those digits |
| PyText.ParseInt | data/datasets.py:242 | `int(s)`; it only computes: `ParseIntPadded` and `ParseIntShape` state both directions of what it accepts and its value, `ParseIntRejects` and `ParseDigitString` the common cases |
| Keys.AsUint8 | data/datasets.py:243 | the uint8 subject tensor stores a value in `[0, 256)`, equal to the index when it is in range |
| Keys.Description | data/datasets.py:257 | the key `subject{NN}_sess{s}_task{t}`; it only computes: `DescriptionTokens`, `TaskRoundTrip` and `SubjectParsed` state what it holds and what reads back from it |
| Keys.DescriptionTokens | data/datasets.py:257 | a recording key splits on '_' into exactly its subject, session and task tokens, the last being the task's audio key |
| Keys.TaskRoundTrip | data/datasets.py:233 | the audio key parsed from a recording key (line 257) is the key the task's audio is stored under (line 341) |
| Keys.SubjectParsed | data/datasets.py:242 | parsing the key of subject index `s` yields `(s + 1) % 100 - 1` |
| Keys.SubjectRoundTrip | data/datasets.py:242 | for the 99 two-digit subject numbers, parsing the key gives back the subject index it was built from |
| Keys.ThreeDigitSubjectsMisread | data/datasets.py:242 | from index 99 on no subject is read back as itself; index 99 reads as -1, stored as 255 |
| Keys.SubjectsCollide | data/datasets.py:242 | subject indices 100 apart are read back as the same subject |
| Keys.SameLastTwoDigits | data/datasets.py:242 | two subject indices whose numbers agree modulo 100 are read back as the same subject |
| Alignment.LatencySamples | data/datasets.py:34 | the latency in samples is non-negative for a non-negative latency |
| Alignment.ShiftBrainSignal | data/datasets.py:26-39 | the shift keeps every subject, channel and audio row and keeps the tensors rectangular |
| Alignment.PositiveShiftAligns | data/datasets.py:34-37 | a positive offset `k` keeps brain samples `k..t` and audio samples `0..t-k`, both of length `t - k` (nothing when `k > t`) |
| Alignment.ZeroShiftEmptiesAudio | data/datasets.py:37 | an offset of 0 leaves the brain untouched and empties every audio row |
| Alignment.NegativeShiftAligns | data/datasets.py:34-37 | a negative offset `-m` keeps the last `m` brain samples and the first `m` audio samples, with equal lengths |
| Brennan.Batchfy | data/datasets.py:84-107 | fails exactly on unequal time lengths (AssertionError) or a non-positive `seq_len`; otherwise yields `S * (T / seq_len)` items in each of X, Y and subject_idxs |
| Brennan.BatchfyItem | data/datasets.py:93-105 | item `s * W + w` is subject `s`'s brain window `[w*L, (w+1)*L)` on every channel, the same audio window for every subject, and subject index `s` |
| Brennan.BatchfyRejoinsBrain | data/datasets.py:88-104 | a subject's brain windows joined along time are the recording up to the dropped remainder: nothing is padded |
| Brennan.BatchfyRejoinsAudio | data/datasets.py:88-105 | the audio windows every subject receives join back into the audio track up to the dropped remainder |
| Brennan.Build | data/datasets.py:71-76 | the built dataset has equally many brain windows, audio windows and subject indices |
| Brennan.BuildCount | data/datasets.py:71-76 | with positive latency `k`, the dataset holds `S * ((T - k) / seq_len)` items |
| Brennan.ZeroLatencyFailsBuild | data/datasets.py:71-76 | a latency truncating to 0 samples makes the length assertion fail on any non-empty data |
| Brennan.Len | data/datasets.py:78-79 | when the three tensors have equal length, `dataset[i]` succeeds exactly for `-len(dataset) <= i < len(dataset)` |
| Brennan.GetItem | data/datasets.py:81-82 | `dataset[i]` succeeds exactly for `-n <= i < n`, returns item `i` (or `n + i`), and raises IndexError otherwise |
| Brennan.GetItemPairsWindows | data/datasets.py:81-82 | reading item `s * W + w` of the windowed dataset returns subject `s`'s brain window `w`, audio window `w` and index `s` |
| Tensors.Windows | data/datasets.py:230 | the time axis is cut into `count` windows, each with every channel and `len` samples |
| Tensors.WindowsRejoin | data/datasets.py:230 | joining a channel of the windows back along time gives that channel's first `count * len` samples |
| Tensors.JoinWindows | data/datasets.py:230 | the first `n` windows of length `len` of a row, joined, are the row's first `n * len` samples |
| Tensors.Chunks | data/datasets.py:236 | `reshape(-1, len)` of a sequence whose length is a multiple of `len` gives `length / len` chunks of `len` elements |
| Tensors.FlattenChunks | data/datasets.py:236 | flattening the chunks gives the sequence back |
| RecordingWindows.WindowCount | data/datasets.py:228-229 | the windows kept by `[:, :-(len % L)]` fit the recording, and are either all whole windows or none |
| RecordingWindows.TrimToWindows | data/datasets.py:228-229 | the trimmed recording keeps each channel's first `WindowCount * L` samples |
| RecordingWindows.BrainWindows | data/datasets.py:228-230 | a recording yields `WindowCount` brain windows, each with all channels |
| RecordingWindows.BrainWindowAt | data/datasets.py:228-230 | brain window `w` holds samples `[w * meg_len, (w+1) * meg_len)` of every channel |
| RecordingWindows.AudioWindows | data/datasets.py:234-236 | the audio yields `channels * WindowCount` windows of `audio_len` samples |
| RecordingWindows.AudioWindowAt | data/datasets.py:234-236 | for one-channel audio, window `j` holds samples `[j * audio_len, (j+1) * audio_len)` |
| RecordingWindows.RecordingBatch | data/datasets.py:227-244 | one recording's turn of the loop yields equally many brain windows, audio windows and subject indices (`WindowCount`), each brain window with all channels |
| RecordingWindows.RecordingBatchSetupErrors | data/datasets.py:228-236 | in source order: zero `meg_len` raises ZeroDivisionError, negative raises ValueError; a task without audio raises KeyError; zero `audio_len` raises ZeroDivisionError, negative raises RuntimeError |
| RecordingWindows.RecordingBatchCountMismatch | data/datasets.py:240 | different brain and audio window counts fail the assertion |
| RecordingWindows.RecordingBatchOutcome | data/datasets.py:240-243 | with a sound configuration and matching counts, the turn succeeds exactly when the key names a subject, and otherwise raises ValueError |
| RecordingWindows.ExactMultipleRecordingFails | data/datasets.py:228-240 | a recording that is an exact multiple of `meg_len` fails the assertion unless its audio also yields no window |
| RecordingWindows.RecordingItem | data/datasets.py:227-244 | item `w` of a recording is brain window `[w*meg_len, (w+1)*meg_len)` and its key's subject as uint8; the audio list is the windows of its task's audio |
| RecordingWindows.RecordingSubjects | data/datasets.py:242-244 | every item of a recording carries the subject index parsed from its key, as uint8 |
| RecordingWindows.DescribedRecording | data/datasets.py:257 | a recording stored under the key of a two-digit subject is paired with its task's audio (line 341) and tagged with the subject index the key was built from (line 242) |
| Gwilliams.Collect | data/datasets.py:226-244 | the loop succeeds exactly when every turn does; otherwise it raises the exception of the first turn that raises one |
| Gwilliams.Windowed | data/datasets.py:226-244 | the loop over the recordings succeeds exactly when every recording's turn does; otherwise it raises the first failing recording's exception |
| Gwilliams.BatchfyOf | data/datasets.py:226-249 | `batchfy` succeeds exactly when the loop does and `torch.cat` gets a non-empty list of tensors with equal channel counts; then X, Y and subject_idxs hold the loop's items, one per window, `TotalWindows` of them |
| Gwilliams.CollectStep | data/datasets.py:226-244 | one more loop turn appends that recording's items, or raises its exception |
| Gwilliams.CollectFailureSticks | data/datasets.py:226-244 | once one recording raises, the whole loop raises that exception |
| Gwilliams.CollectPrefix | data/datasets.py:226-244 | when the loop succeeds, every prefix succeeds and its items begin the items of the whole loop |
| Gwilliams.WindowedLengths | data/datasets.py:226-249 | X, Y and subject_idxs have one entry per window: the sum of the per-recording window counts |
| Gwilliams.BatchfyItem | data/datasets.py:226-249 | item `TotalWindows(recordings before k) + w` (the extra parameter `i`) is brain window `w` of recording `k`, audio window `w` of its task and its key's subject |
| Gwilliams.AllClose | data/datasets.py:381 | the comparison is defined exactly when numpy can broadcast the lists; for equal lengths it is list equality |
| Gwilliams.AllCloseSymmetric | data/datasets.py:381 | the comparison does not depend on argument order, and a list is close to itself |
| Gwilliams.BroadcastHidesLength | data/datasets.py:381 | a one-element list is "close" to every list of copies of its element, whatever its length |
| Gwilliams.WarningMeansDifferent | data/datasets.py:381-382 | the warning implies the lists differ; for equal lengths it is raised exactly when they differ |
| Gwilliams.Cutoff | data/datasets.py:319 | the cutoff fails exactly for a task without durations (KeyError) or a stimulus index out of range (IndexError) |
| Gwilliams.CutWaveform | data/datasets.py:320-323 | a waveform longer than the cutoff keeps its first `cutoff` samples per channel; otherwise it is unchanged and the warning is flagged |
| Gwilliams.NegativeCutoffCountsFromEnd | data/datasets.py:319-321 | a negative cutoff removes that many samples from the end instead of emptying the waveform |
| Gwilliams.Gwilliams2022Dataset.constructor | data/datasets.py:184-188 | the window lengths are the sampling rates times the window length in seconds |
| Gwilliams.Gwilliams2022Dataset.Batchfy | data/datasets.py:222-249 | the loop succeeds exactly when the specification `BatchfyOf` does, leaves its items in X, Y and subject_idxs (one per window, equally many) and returns subject_idxs; on an exception the dataset is unchanged |
| Gwilliams.Gwilliams2022Dataset.Len | data/datasets.py:216-217 | when the three tensors have equal length (as after `batchfy`), `dataset[i]` succeeds exactly for `-len(dataset) <= i < len(dataset)` |
| Gwilliams.Gwilliams2022Dataset.GetItem | data/datasets.py:219-220 | `dataset[i]` succeeds exactly when `i` is a valid index of all three tensors, returns item `i` (counted from the end when negative) of each, and raises IndexError otherwise |
| Gwilliams.Gwilliams2022Dataset.UpdateRealDurations | data/datasets.py:378-386 | the map afterwards holds the new durations under `task{t}`, with every other key unchanged (last write wins); the warning is flagged exactly when the old durations differ; ValueError when they cannot be broadcast |
| Gwilliams.Gwilliams2022Dataset.CutStimulus | data/datasets.py:319-323 | the cutoff step is the stored duration's cutoff applied to the waveform, or its KeyError or IndexError |
| Trimming.ToMicros | data/datasets.py:348-349 | an onset within one hour converts to a time in `[0, 3600 s)` |
| Trimming.HourIgnored | data/datasets.py:348-349 | onsets that differ only in the hour convert to the same time |
| Trimming.ToMicrosMonotone | data/datasets.py:348-349 | within one hour the conversion orders onsets as the clock does |
| Trimming.Starts | data/datasets.py:352-359 | the annotations at which the scan sees a new `sound_id` are in strictly increasing order |
| Trimming.StartsMembers | data/datasets.py:354-359 | an annotation is listed as a start exactly when its `sound_id` differs from the one before it (the sentinel -1 for the first) |
| Trimming.PairUp | data/datasets.py:362 | the reshape into pairs succeeds exactly for an even length, otherwise ValueError |
| Trimming.PairingIsRuns | data/datasets.py:361-362 | dropping the first flat entry, appending the last index and pairing gives each start paired with the annotation before the next start |
| Trimming.NoStartsNoPairs | data/datasets.py:361-362 | without a start the reshape of the lone last index raises ValueError |
| Trimming.Runs | data/datasets.py:352-362 | every run pair is `first <= last` inside the table |
| Trimming.RunsAreMaximal | data/datasets.py:352-362 | each pair is a maximal run of one `sound_id` entered with a new id |
| Trimming.RunsContiguous | data/datasets.py:361 | the runs tile the table: each begins right after the previous one, and the last ends at the final annotation |
| Trimming.LeadingSentinel | data/datasets.py:352-359 | annotations before the first run carry the sentinel -1 |
| Trimming.RunsExist | data/datasets.py:352-362 | there is a run exactly when some annotation carries a real sound |
| Trimming.Cut | data/datasets.py:370 | the cut of a rectangular recording is rectangular, with every channel and as many columns as the slice `[int(start_ms), int(end_ms))` keeps |
| Trimming.TrimNoSound | data/datasets.py:351-376 | trimming fails exactly when no annotation carries a sound: NameError for an empty table, ValueError otherwise; on success it keeps every channel and gives one duration per run |
| Trimming.TrimNoSoundRegions | data/datasets.py:351-376 | the method computes `TrimNoSound`: the concatenated cuts and one duration per run, NameError for an empty table, ValueError when no annotation has a sound |
| Trimming.CutRegions | data/datasets.py:364-376 | the second loop concatenates the cut of every pair and records every pair's duration, in order |
| Trimming.CutsAt | data/datasets.py:366-372 | entry `i` of the cuts is pair `i`'s cut `[int(start_ms), int(end_ms))`, and entry `i` of the durations is its end minus start |
| Trimming.TrimmedWidth | data/datasets.py:366-376 | the trimmed recording is rectangular, as wide as the sum of the runs' slice lengths, with one duration per run |

## Left out

- File loading (`torchaudio.load`, `scipy.io.loadmat`, `mne_bids.read_raw_bids`, `glob`/`natsorted`, `raw.to_data_frame`): I/O. The loaded recordings, audio, annotation tables and durations are parameters.
- Filtering, resampling and `RobustScaler` (`brain_preproc`, `audio_preproc` apart from the cutoff rule): floating-point numerics behind library calls.
- The wav2vec feature extractor: an external pretrained model.
- Disk caching (`torch.save`/`torch.load`/`np.save`/`np.load`) and the cache branches of both `__init__` methods: I/O. The constructor of `Gwilliams2022Dataset` takes the loaded data as parameters.
- Console output (`cprint`, `print`, `cyan`/`yellow`): the "No audio cutoff" and "Real durations are different" warnings are boolean flags.
- `ToyDataset` (random data and cosines) and `baseline_correction` (the identity).
- `ast.literal_eval` of annotation descriptions: annotations carry their `sound_id` already parsed.
- Floating point: times and durations are integer microseconds, and `int(t * 1000)` is truncating division of microseconds by 1000. The latency uses exact reals.
- Tensors with no rows: a nested sequence cannot record their width, so tensors have at least one row.
- `int(str)` strips only the ASCII whitespace around the digits (tab, line feed, vertical tab, form feed, carriage return, space), not the other Unicode whitespace Python also strips.
- The recordings dict is a sequence of (key, matrix) pairs in the dict's iteration order; that its keys are distinct is not modelled.
- Gwilliams.Gwilliams2022Dataset.Batchfy: the loop body is specified by a pure per-recording function (`RecordingBatch`) rather than restated step by step; the numpy-to-torch dtype conversion is not modelled.
- Gwilliams.Gwilliams2022Dataset.UpdateRealDurations: the `np.allclose` tolerance is taken as exact equality, so durations that differ within the tolerance are flagged as different.
- Gwilliams.AllClose: same exact-equality simplification of the `np.allclose` tolerance.
- PyText.ParseInt: `int(str)` accepts only ASCII digits; Python also accepts other Unicode decimal digits and underscores between digits (`int("1_0") == 10`). Subject tokens hold neither.
- PyText.ZFill: no sign handling (`"-5".zfill(3)` is `"-05"` in Python); it is only applied to `str` of a non-negative number.
