/**
 * `process_files`: the run that sequences the stages. The selected files are
 * copied into `wav/`, every `.wav` entry of `wav/` is normalized into
 * `amplified_wav/`, every `.wav` entry of `amplified_wav/` is padded into
 * `temp_padded/`, the engine is loaded, and every `.wav` entry of
 * `temp_padded/` is transcribed into `transcription_with_timestamps/`.
 * The run returns early when nothing is selected and when the engine fails
 * to load.
 */
module Pipeline {
  import opened Wrappers
  import opened Paths
  import opened AudioModel
  import opened Stages
  import opened Timestamps
  import opened Transcription

  const WavDirectory: string := "wav"
  const AmplifiedDirectory: string := "amplified_wav"
  const PaddedDirectory: string := "temp_padded"
  const TranscriptionDirectory: string := "transcription_with_timestamps"

  /** The per-run parameters: the target peak in dBFS and the padding in seconds. */
  datatype Config = Config(targetPeakDb: real, silenceSeconds: nat)

  /** `target_max_amplitude = -3.0` and `silence_duration = 30`. */
  const Defaults: Config := Config(-3.0, 30)

  /**
   * What the program's settings mean for one file: 30 000 ms of silence at
   * each end, a processed peak of -3.0 dBFS or above, and a segment heard at
   * (35, 40) s of the padded file written as (5, 10).
   */
  lemma DefaultSettings(a: Audio, lib: AudioLib, text: string)
    ensures PadMillis(Defaults.silenceSeconds) == 30000
    ensures |Pad(a, Defaults.silenceSeconds).frames| == |a.frames| + 60000
    ensures ProcessAudio(a, Defaults.targetPeakDb, lib).peakDb >= -3.0
    ensures CorrectSegment(Segment(35.0, 40.0, text), Defaults.silenceSeconds) == Line(5.0, 10.0, text)
  {
  }

  /** The four working directories, which persist from one run to the next. */
  datatype Workspace = Workspace(wav: Dir, amplified: Dir, padded: Dir, transcripts: Transcripts)

  predicate ValidWorkspace(ws: Workspace) {
    ValidDir(ws.wav) && ValidDir(ws.amplified) && ValidDir(ws.padded)
  }

  /** A file the user picked: its path and its contents. */
  datatype Selected = Selected(path: string, file: WavFile)

  /** What a batch stage reports: the inputs it took, in listing order, and one result per input. */
  datatype StageReport = StageReport(inputs: seq<string>, results: seq<StageResult>)

  /**
   * How a run ends, as the user is told: a warning for an empty selection,
   * an error when the engine does not load, and otherwise success, whatever
   * the per-file results (which the source only prints) were.
   */
  datatype RunOutcome =
    | NoFilesSelected
    | ModelLoadFailed
    | Completed(normalized: StageReport, padded: StageReport, stoppedAt: Option<string>)

  /** `shutil.copy(file, wav_directory)` for each selected file in turn: later copies overwrite earlier ones. */
  function CopyAll(wav: Dir, selection: seq<Selected>): (r: Dir)
    ensures wav.Keys <= r.Keys
    decreases |selection|
  {
    if selection == [] then wav
    else CopyAll(wav[Basename(selection[0].path) := selection[0].file], selection[1..])
  }

  /** The copy loop of `process_files`. */
  method CopySelection(wav: Dir, selection: seq<Selected>) returns (out: Dir)
    ensures out == CopyAll(wav, selection)
  {
    out := wav;
    for i := 0 to |selection|
      invariant CopyAll(out, selection[i..]) == CopyAll(wav, selection)
    {
      assert selection[i..][1..] == selection[i + 1..];
      out := out[Basename(selection[i].path) := selection[i].file];
    }
  }

  /**
   * After copying, `wav/` holds its earlier entries plus one entry per
   * selected basename, and that entry is the last selected file with that
   * basename.
   */
  lemma {:induction false} CopyAllContents(wav: Dir, selection: seq<Selected>, i: nat)
    requires i < |selection|
    requires forall j :: i < j < |selection| ==> Basename(selection[j].path) != Basename(selection[i].path)
    ensures Basename(selection[i].path) in CopyAll(wav, selection)
    ensures CopyAll(wav, selection)[Basename(selection[i].path)] == selection[i].file
    decreases |selection|
  {
    var wav' := wav[Basename(selection[0].path) := selection[0].file];
    if i == 0 {
      CopyAllUntouched(wav', selection[1..], Basename(selection[0].path));
    } else {
      CopyAllContents(wav', selection[1..], i - 1);
    }
  }

  /**
   * After copying, `wav/` holds exactly its earlier entries and the selected
   * basenames, and nothing else.
   */
  lemma {:induction false} CopyAllKeys(wav: Dir, selection: seq<Selected>, n: string)
    ensures n in CopyAll(wav, selection) <==>
      n in wav || exists j :: 0 <= j < |selection| && Basename(selection[j].path) == n
    decreases |selection|
  {
    if selection != [] {
      var rest := selection[1..];
      CopyAllKeys(wav[Basename(selection[0].path) := selection[0].file], rest, n);
      if exists j :: 0 <= j < |rest| && Basename(rest[j].path) == n {
        var j :| 0 <= j < |rest| && Basename(rest[j].path) == n;
        assert selection[j + 1] == rest[j];
      }
      if exists j :: 0 <= j < |selection| && Basename(selection[j].path) == n {
        var j :| 0 <= j < |selection| && Basename(selection[j].path) == n;
        if j > 0 {
          assert rest[j - 1] == selection[j];
        }
      }
    }
  }

  /** An entry that no later selected file is copied onto keeps its contents. */
  lemma {:induction false} CopyAllUntouched(wav: Dir, selection: seq<Selected>, n: string)
    requires n in wav
    requires forall j :: 0 <= j < |selection| ==> Basename(selection[j].path) != n
    ensures n in CopyAll(wav, selection) && CopyAll(wav, selection)[n] == wav[n]
    decreases |selection|
  {
    if selection != [] {
      CopyAllUntouched(wav[Basename(selection[0].path) := selection[0].file], selection[1..], n);
    }
  }

  /** Copying keeps `wav/` a valid directory: every new entry is a basename. */
  lemma {:induction false} CopyAllValid(wav: Dir, selection: seq<Selected>)
    requires ValidDir(wav)
    ensures ValidDir(CopyAll(wav, selection))
    decreases |selection|
  {
    if selection != [] {
      CopyAllValid(wav[Basename(selection[0].path) := selection[0].file], selection[1..]);
    }
  }

  /** The `.wav` entries of a directory. */
  ghost function WavKeys(d: Dir): set<string> {
    set n | n in d && EndsWith(n, WavSuffix)
  }

  /** Filtering a listing by the suffix picks out exactly the directory's `.wav` entries. */
  lemma WavNamesOfListing(listing: seq<string>, d: Dir)
    requires IsListing(listing, d)
    ensures forall n :: n in WavNames(listing) <==> n in d && EndsWith(n, WavSuffix)
    ensures (set n | n in WavNames(listing)) == WavKeys(d)
  {
    forall n ensures n in WavNames(listing) <==> n in d && EndsWith(n, WavSuffix) {
      WavNamesMembership(listing, n);
    }
  }

  /**
   * The report of a stage from `src` covers exactly the `.wav` entries of
   * `src`, each input with the result the stage gives for it.
   */
  ghost predicate Reported(report: StageReport, src: Dir, srcPath: string, dstPath: string, op: StageOp) {
    && (forall n :: n in report.inputs <==> n in src && EndsWith(n, WavSuffix))
    && |report.results| == |report.inputs|
    && (forall i :: 0 <= i < |report.inputs| ==>
          && report.inputs[i] in src
          && report.results[i] == ResultFor(op, src[report.inputs[i]], srcPath, dstPath, report.inputs[i]))
  }

  /**
   * One batch stage of `process_files`: list the source directory, keep its
   * `.wav` entries, and run the stage over them into the destination.
   */
  method RunBatchStage(src: Dir, srcPath: string, dst: Dir, dstPath: string, op: StageOp)
    returns (out: Dir, report: StageReport)
    requires ValidDir(src) && ValidDir(dst)
    ensures ValidDir(out)
    ensures StageWrote(dst, src, WavKeys(src), op, out)
    ensures Reported(report, src, srcPath, dstPath, op)
  {
    var listing := ListDir(src);
    var inputs := WavNames(listing);
    WavNamesOfListing(listing, src);
    var results;
    out, results := RunStage(src, srcPath, inputs, dst, dstPath, op);
    StageWroteValid(dst, src, WavKeys(src), op, out);
    report := StageReport(inputs, results);
  }

  /**
   * The whole run. Nothing happens without a selection. Otherwise the
   * selection is copied, each batch stage handles every `.wav` entry of its
   * input directory (earlier runs' files included), and the engine is
   * loaded; if it fails to load the run ends before transcription, and
   * otherwise the transcription loop runs over a listing of `temp_padded/`
   * and the run reports success, with both stages' reports.
   */
  method ProcessFiles(ws: Workspace, selection: seq<Selected>, cfg: Config, lib: AudioLib,
                      load: string -> Option<Engine>, modelName: string, language: string)
    returns (ws': Workspace, outcome: RunOutcome, paddedListing: seq<string>)
    requires ValidWorkspace(ws)
    ensures ValidWorkspace(ws')
    ensures selection == [] ==> outcome == NoFilesSelected && ws' == ws
    ensures selection != [] ==>
      && ws'.wav == CopyAll(ws.wav, selection)
      && StageWrote(ws.amplified, ws'.wav, WavKeys(ws'.wav), Normalize(cfg.targetPeakDb, lib), ws'.amplified)
      && StageWrote(ws.padded, ws'.amplified, WavKeys(ws'.amplified), AddSilence(cfg.silenceSeconds), ws'.padded)
    ensures selection != [] && load(modelName).None? ==>
      outcome == ModelLoadFailed && ws'.transcripts == ws.transcripts
    ensures selection != [] && load(modelName).Some? ==>
      && outcome.Completed?
      && Reported(outcome.normalized, ws'.wav, WavDirectory, AmplifiedDirectory, Normalize(cfg.targetPeakDb, lib))
      && Reported(outcome.padded, ws'.amplified, AmplifiedDirectory, PaddedDirectory, AddSilence(cfg.silenceSeconds))
      && IsListing(paddedListing, ws'.padded)
      && TranscribeRun(ws'.padded, paddedListing, ws.transcripts, load(modelName).value,
                       cfg.silenceSeconds, language)
         == TranscribeResult(ws'.transcripts, outcome.stoppedAt)
  {
    paddedListing := [];
    if selection == [] {
      ws', outcome := ws, NoFilesSelected;
      return;
    }
    var wav := CopySelection(ws.wav, selection);
    CopyAllValid(ws.wav, selection);
    var amplified, normalized := RunBatchStage(wav, WavDirectory, ws.amplified, AmplifiedDirectory,
                                               Normalize(cfg.targetPeakDb, lib));
    var padded, paddedReport := RunBatchStage(amplified, AmplifiedDirectory, ws.padded, PaddedDirectory,
                                              AddSilence(cfg.silenceSeconds));

    var engine := load(modelName);
    if engine.None? {
      ws', outcome := Workspace(wav, amplified, padded, ws.transcripts), ModelLoadFailed;
      return;
    }
    paddedListing := ListDir(padded);
    var transcripts, stoppedAt := TranscribeAudio(padded, paddedListing, ws.transcripts, engine.value,
                                                  cfg.silenceSeconds, language);
    ws' := Workspace(wav, amplified, padded, transcripts);
    outcome := Completed(normalized, paddedReport, stoppedAt);
  }

  /**
   * The data flow of one file through a run: a decodable `.wav` entry of
   * `wav/` reaches `temp_padded/` under the same name as its mono,
   * gain-decided audio padded with silence, as long as the original plus
   * twice the padding.
   */
  lemma FileFlow(ws: Workspace, ws': Workspace, cfg: Config, lib: AudioLib, n: string)
    requires StageWrote(ws.amplified, ws'.wav, WavKeys(ws'.wav), Normalize(cfg.targetPeakDb, lib), ws'.amplified)
    requires StageWrote(ws.padded, ws'.amplified, WavKeys(ws'.amplified), AddSilence(cfg.silenceSeconds), ws'.padded)
    requires n in ws'.wav && EndsWith(n, WavSuffix) && ws'.wav[n].Decodable?
    ensures n in ws'.amplified && n in ws'.padded
    ensures ws'.padded[n] ==
      Decodable(Pad(ProcessAudio(ws'.wav[n].audio, cfg.targetPeakDb, lib), cfg.silenceSeconds))
    ensures Lawful(lib) ==>
      |ws'.padded[n].audio.frames| == |ws'.wav[n].audio.frames| + 2 * PadMillis(cfg.silenceSeconds)
  {
    assert n in WavKeys(ws'.wav);
    assert Succeeds(ws'.wav, Normalize(cfg.targetPeakDb, lib), n);
    assert n in WavKeys(ws'.amplified);
    assert Succeeds(ws'.amplified, AddSilence(cfg.silenceSeconds), n);
  }

  /**
   * A file that fails normalization is not passed on from this run: its
   * `amplified_wav/` entry, and so what the padder sees under its name, is
   * whatever an earlier run left there, if anything.
   */
  lemma FailedFileNotPassedOn(ws: Workspace, ws': Workspace, cfg: Config, lib: AudioLib, n: string)
    requires StageWrote(ws.amplified, ws'.wav, WavKeys(ws'.wav), Normalize(cfg.targetPeakDb, lib), ws'.amplified)
    requires n in ws'.wav && ws'.wav[n].Undecodable?
    ensures n in ws'.amplified <==> n in ws.amplified
    ensures n in ws'.amplified ==> ws'.amplified[n] == ws.amplified[n]
  {
    assert !Succeeds(ws'.wav, Normalize(cfg.targetPeakDb, lib), n);
  }
}
