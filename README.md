# Audio preparation and timestamp correction for Whisper transcription

`Transcribe.py` is a desktop tool. It copies the WAV files the user picks into
`wav/`, normalizes each one into `amplified_wav/` (mono, loudness-normalized,
raised towards a target peak of -3.0 dBFS), and pads each one with 30 seconds of
silence at both ends into `temp_padded/`. It then runs Whisper on every padded
file and writes a transcript per file into `transcription_with_timestamps/`.
Each segment time in a transcript is moved back onto the original recording's
timeline with `max(t - 30, 0)`.

This project models that pipeline in Dafny and proves its properties:

- `wrappers.dfy` (`Wrappers`): the `Option` type.
- `paths.dfy` (`Paths`): the `.wav` filter and POSIX `basename`, `join` and
  `splitext`. It also derives the transcript name `stem + ".txt"`.
- `audio.dfy` (`AudioModel`): an abstract audio record with a channel count, a
  peak in dBFS, and one frame per millisecond. It holds the gain decision of
  `process_audio` and the `silence + audio + silence` padder of `add_silence`.
- `timestamps.dfy` (`Timestamps`): the timestamp corrector and the per-file
  segment loop.
- `stages.dfy` (`Stages`): directories as maps from names to files, and
  `os.listdir` with the order left open. It also holds the two per-file
  operations, each catching its own failure, and the batch stage that runs
  every listed file and collects one result per file.
- `transcription.dfy` (`Transcription`): `transcribe_audio`. One `try`
  encloses the whole loop, so the first file the engine fails on stops the
  loop.
- `pipeline.dfy` (`Pipeline`): `process_files`. It copies the selection, runs
  the two batch stages, loads the model and transcribes. It returns early on an
  empty selection and on a model-load failure.

Three behaviours of the code are worth stating outright:

- **The peak can end above the target.** The gain step only amplifies
  (`Transcribe.py:39-41`). A clip normalized to -0.1 dBFS therefore leaves at
  -0.1 dBFS, above the -3.0 dBFS target. The output peak is the larger of the
  normalized peak and the target: `AudioModel.ProcessAudio` states this, and
  `AudioModel.PeakCanExceedTarget` gives the -0.1 dBFS case.
- **The first engine failure ends transcription.** One `try` wraps the whole
  loop (`Transcribe.py:62-77`), so the first engine failure ends transcription
  for every later file. The success message is shown anyway
  (`Transcribe.py:110-111`). `Transcription.TranscribeRunStopsAtFirstFailure`
  and `Pipeline.ProcessFiles` state this.
- **Each stage processes every `.wav` entry of its directory.** This includes
  files left by earlier runs, not only the current selection
  (`Transcribe.py:87, 96`). A file that fails normalization in this run is not
  passed on, but the padder still sees whatever an earlier run left under its
  name (`Pipeline.FailedFileNotPassedOn`).

The model also shows one naming edge case. `splitext` gives no extension to a
name whose last dot has only dots before it (such as `.wav`). So `.wav` and
`.wav.wav` both write `.wav.txt` (`Paths.DotOnlyNamesCollide`). In general a
`.wav` name with only dots before its suffix keeps the suffix in its transcript
name (`Paths.DotOnlyWavTranscriptName`). Every other `.wav` name swaps `.wav`
for `.txt` (`Paths.TranscriptNameOfWav`), and such names never collide
(`Paths.TranscriptNameInjective`).

## Model

| member | source | states |
|---|---|---|
| Paths.EndsWith | Transcribe.py:65 | `str.endswith`: the last characters of the name are the suffix; `Paths.EndsWithIsSuffix` gives its meaning |
| Paths.EndsWithIsSuffix | Transcribe.py:65 | a name ends with a suffix exactly when it is some prefix followed by that suffix |
| Paths.LastIndexOf | Transcribe.py:44 | the last index of the character, or -1: the character sits there and appears nowhere after it |
| Paths.Basename | Transcribe.py:44 | `os.path.basename` is a '/'-free suffix of the path, and is the whole path when the path has no '/' |
| Paths.BasenameFollowsSeparator | Transcribe.py:44 | a basename shorter than its path starts right after a '/', so with `Basename`'s own contract it is exactly the text after the last '/' |
| Paths.Join | Transcribe.py:66 | `os.path.join` ends with the name, and an absolute name replaces the directory |
| Paths.BasenameOfJoin | Transcribe.py:99 | the basename of `join(dir, name)` is `name`, for every directory and every '/'-free name |
| Paths.Stem | Transcribe.py:68 | the root of `os.path.splitext` is a prefix of the name; it is either the whole name or stops at a '.' that is the last '.' of the name and has no '/' after it; `Paths.LeadingDotsKept` and `Paths.StemCutsAtLastDot` say which, for every '/'-free name |
| Paths.LeadingDotsKept | Transcribe.py:68 | a '/'-free name whose last '.' has only dots before it, or that has no '.', is its own root |
| Paths.StemCutsAtLastDot | Transcribe.py:68 | a '/'-free name whose last '.' has another character before it is cut at that last '.' |
| Paths.TranscriptName | Transcribe.py:68 | the transcript name ends in `.txt` |
| Paths.TranscriptNameOfWav | Transcribe.py:68 | for an ordinary `.wav` name, the transcript name swaps the `.wav` suffix for `.txt` |
| Paths.DotOnlyWavTranscriptName | Transcribe.py:65-68 | a `.wav` name with only dots before its suffix, such as `..wav`, keeps the suffix: its transcript is the name plus `.txt` |
| Paths.TranscriptNameInjective | Transcribe.py:68 | two ordinary `.wav` names with the same transcript name are the same name |
| Paths.DotOnlyNamesCollide | Transcribe.py:68 | `.wav` and `.wav.wav` both pass the filter and share the transcript `.wav.txt` |
| Paths.WavNames | Transcribe.py:87 | the filter keeps at most the listed names, and only names ending in `.wav` |
| Paths.WavNamesMembership | Transcribe.py:87 | a name survives the filter exactly when it is listed and ends in `.wav` |
| Paths.WavNamesAppend | Transcribe.py:96 | the filter keeps listing order: appending a name appends it to the filtered list exactly when it ends in `.wav` |
| AudioModel.ApplyGain | Transcribe.py:25-27 | `apply_gain(g)` raises the peak by exactly g dB, so a positive gain raises it; channels and frames (silence or sound) are kept |
| AudioModel.ApplyGainCompose | Transcribe.py:25-27 | gains compose by adding their dB values, and a gain of 0 dB changes nothing |
| AudioModel.GainToTarget | Transcribe.py:39-41 | gain is applied only when `target - peak > 0`; the new peak is at least both and equals one of them; the clip is unchanged when already at or above the target; channels and frames are kept |
| AudioModel.GainToTargetIdempotent | Transcribe.py:39-41 | a second gain decision changes nothing |
| AudioModel.PeakCanExceedTarget | Transcribe.py:39-41 | the code never attenuates: a -0.1 dBFS clip stays at -0.1 dBFS with a -3.0 dBFS target |
| AudioModel.ProcessAudio | Transcribe.py:36-41 | after downmix, normalize and gain, the peak is the larger of the normalized peak and the target; under a lawful library the result is mono and as long as the input |
| AudioModel.PadMillis | Transcribe.py:54 | the padding is a whole number of seconds in milliseconds: dividing by 1000 gives the seconds back, with no remainder |
| AudioModel.Silence | Transcribe.py:54 | `AudioSegment.silent(ms)` is `ms` frames long, every frame silent |
| AudioModel.Pad | Transcribe.py:54-55 | the padded clip is longer by twice `seconds * 1000` ms, its middle slice is the original, both ends are silent, and channels and peak are kept |
| AudioModel.Unpad | Transcribe.py:55 | cutting the padding shortens a clip by twice the padding |
| AudioModel.UnpadPad | Transcribe.py:55 | cutting the padding off a padded clip restores the original clip |
| AudioModel.PadFrameAt | Transcribe.py:55 | each millisecond of the padded clip is silent outside the original and is the original's frame shifted by the padding inside it |
| Timestamps.Correct | Transcribe.py:71-72 | the corrected time is never negative, equals `t - silence` exactly when `t >= silence`, and is 0 otherwise |
| Timestamps.CorrectMonotone | Transcribe.py:71-72 | correction keeps the order of times |
| Timestamps.CorrectedRange | Transcribe.py:71-72 | a time within the padded clip corrects into the original duration plus the padding, and a time within the speech region corrects into the original duration |
| Timestamps.CorrectSegment | Transcribe.py:70-73 | a line keeps the segment's text, has non-negative times, and a segment with `start <= end` gives a line with `start <= end` |
| Timestamps.CorrectSegmentExamples | Transcribe.py:71-72 | with 30 s of padding, (35, 40) becomes (5, 10) and (10, 12) becomes (0, 0) |
| Timestamps.WriteTranscript | Transcribe.py:69-73 | the segment loop writes exactly one corrected line per engine segment, in engine order |
| Timestamps.PaddedTimeCorrects | Transcribe.py:54-72 | a millisecond inside the speech region of the padded clip holds the original's frame at the corrected offset, and one inside the leading silence corrects to 0 |
| Stages.ListDir | Transcribe.py:87 | the listing names every directory entry exactly once, in an order left open |
| Stages.ProcessAudioFile | Transcribe.py:33-48 | `process_audio` produces an output exactly when the input decodes; the output peak is at least the target, and under a lawful library the output is mono and as long as the input |
| Stages.AddSilenceFile | Transcribe.py:50-58 | `add_silence` produces an output exactly when the input decodes; the output is longer by twice the padding, and cutting the padding restores the input |
| Stages.ResultFor | Transcribe.py:44-48 | an item fails exactly when its file does not decode; a written item names `join(destination, name)` and a failed one names `join(source, name)` |
| Stages.RunStage | Transcribe.py:89-104 | every listed item is attempted and gets its own result; the destination gains exactly the outputs of the items that succeeded, under the input's basename, and keeps every other entry |
| Stages.ItemOutputPath | Transcribe.py:99 | the output path is `join(destination, name)`, and its basename is the input's name |
| Stages.StageWroteStep | Transcribe.py:89-93 | taking one more item into a stage writes that item's output when it has one |
| Stages.RunItem | Transcribe.py:44-45 | one task writes its output under the input's basename when the operation succeeds, and reports the matching result |
| Stages.FailuresAreTheUndecodableInputs | Transcribe.py:89-104 | a stage reports as many failures as it has undecodable inputs, and writes an output for every other input |
| Stages.StageWroteValid | Transcribe.py:44 | a stage writes only '/'-free entry names |
| Stages.StageIsolation | Transcribe.py:89-104 | replacing one input file, for instance with a corrupt one, changes no other input's output |
| Transcription.TranscribeAudio | Transcribe.py:62-77 | the loop over the listing transcribes `.wav` entries in order, writes `stem.txt` with the corrected lines for each, and stops at the first file the engine fails on |
| Transcription.TranscribeRun | Transcribe.py:62-77 | the transcription loop as a function: it keeps every earlier transcript, adds only `.txt` names, and a reported failure is a listed `.wav` name the engine rejects |
| Transcription.AcceptedPrefix | Transcribe.py:64-67 | counts the files the engine accepts before the first one it fails on |
| Transcription.AcceptedFileStep | Transcribe.py:64-73 | a file the engine accepts at the front of the listing gets its transcript written, and the run goes on with the rest |
| Transcription.RejectedFileStep | Transcribe.py:62-77 | a file the engine fails on at the front stops the run: nothing is written and that file is reported |
| Transcription.FileEntriesCons | Transcribe.py:68-73 | the transcripts of a list of files are the first file's transcript followed by the rest's |
| Transcription.TranscribeRunStopsAtFirstFailure | Transcribe.py:62-77 | the run writes the transcripts of exactly the `.wav` files before the first failure, and reports that file, or no failure when every file is accepted |
| Transcription.WriteEntriesKeys | Transcribe.py:69 | after the writes a transcript name exists exactly when it existed before or some file wrote it |
| Transcription.WriteEntriesUntouched | Transcribe.py:69 | a transcript that no file writes keeps its earlier content |
| Transcription.WriteEntriesContent | Transcribe.py:69 | when no two writes share a name, each file's lines end up under its name |
| Transcription.TranscriptOfEachFile | Transcribe.py:64-73 | when transcript names are distinct, each accepted file's transcript holds exactly one corrected line per engine segment, in order |
| Transcription.OrdinaryNamesHaveOwnTranscripts | Transcribe.py:68 | distinct ordinary `.wav` names have distinct transcript names |
| Pipeline.Defaults | Transcribe.py:123-124 | the program's settings: a target peak of -3.0 dBFS and 30 seconds of padding |
| Pipeline.DefaultSettings | Transcribe.py:123-124 | with those settings each end gets 30 000 ms of silence, a processed clip peaks at -3.0 dBFS or above, and a segment at (35, 40) s of the padded file is written as (5, 10) |
| Pipeline.CopyAll | Transcribe.py:85-86 | copying the selection keeps every earlier entry of `wav/`; `Pipeline.CopyAllKeys` gives its exact set of names and `Pipeline.CopyAllContents` the file under each selected name |
| Pipeline.CopySelection | Transcribe.py:85-86 | the copy loop gives `wav/` with each selected file written under its basename, in selection order |
| Pipeline.CopyAllContents | Transcribe.py:85-86 | after copying, a selected basename holds the last selected file with that basename |
| Pipeline.CopyAllUntouched | Transcribe.py:85-86 | an entry of `wav/` that no selected file is copied onto keeps its contents |
| Pipeline.CopyAllKeys | Transcribe.py:85-86 | after copying, a name is in `wav/` exactly when it was there before or is the basename of a selected file |
| Pipeline.CopyAllValid | Transcribe.py:86 | copying adds only '/'-free entry names |
| Pipeline.WavNamesOfListing | Transcribe.py:87 | filtering a listing picks out exactly the directory's `.wav` entries |
| Pipeline.RunBatchStage | Transcribe.py:87-104 | one batch stage: its inputs are exactly the `.wav` entries of the source directory, each input gets the result the stage gives for its file, and the destination gains exactly the stage's outputs and keeps every other entry |
| Pipeline.ProcessFiles | Transcribe.py:79-111 | an empty selection changes nothing; otherwise `wav/` gains the selection, each stage writes exactly the outputs of the `.wav` entries of its input directory, and a model-load failure leaves the transcripts untouched; with a model, the run reports completion with each stage's report of inputs and per-file results, and the transcripts are those of the stop-at-first-failure loop over a listing of `temp_padded/` |
| Pipeline.FileFlow | Transcribe.py:85-99 | a decodable `.wav` file in `wav/` reaches `temp_padded/` under its own name as its processed audio padded with silence, longer by twice the padding |
| Pipeline.FailedFileNotPassedOn | Transcribe.py:89-97 | a file that fails normalization adds nothing to `amplified_wav/`; whatever an earlier run left there is kept |

## Left out

- Whisper loading and inference are abstract function parameters. `load` maps a model name to an optional engine, and the engine maps a file and a language to optional segments. The CUDA/CPU device choice is not modelled.
- pydub decoding, `set_channels(1)`, `normalize` and `export` are not modelled in detail. A file either decodes (`Decodable`) or not (`Undecodable`). Downmix and normalize are abstract functions, and the `Lawful` predicate states what the pipeline relies on from them: mono output and unchanged duration. Export always succeeds in the model.
- Sample-level floating-point arithmetic and dBFS computation are not modelled. Gain adds to an exact real peak. The `-inf` peak of an all-silent clip is not represented.
- AudioModel.ApplyGain: pydub's `apply_gain` clips samples at full scale, so a real peak never rises above 0 dBFS. The additive model matches only for peaks and targets at or below 0 dBFS, which includes the program's -3.0 dBFS target; `ApplyGainCompose` and the `peakDb >= target` of `Stages.ProcessAudioFile` hold in the library only there.
- The thread pools and the GUI worker thread are not modelled. Each batch stage runs its items one after another. Each item's outcome depends only on its own file, so completion order does not change the result.
- The Tkinter window, file dialog and message boxes are not modelled. The selection is an input, and `RunOutcome` stands for the message boxes that end a run (`Transcribe.py:83, 108, 111`). The model-load failure is the `None` result of `load`.
- Filesystem side effects are not modelled: `os.makedirs`, and failures of `shutil.copy` (for example copying a file onto itself) or of file writes. Directories are values that persist from one run to the next in `Workspace`.
- `os.listdir` order is not fixed. `Stages.ListDir` may return any order.
- The `%.2f` formatting of transcript lines is not modelled. A line is the triple of corrected start, corrected end and text.
- Pipeline.ProcessFiles: the per-item results of the batch stages are returned as values in `RunOutcome`; the source only prints them.
- Stages.RunStage: the source's results are keyed by futures, and a worker exception would be printed by the draining loop. The model has no worker exceptions, because both operations catch their own.
- Application path setup, the PyInstaller bundle and the Whisper assets path are not modelled.
