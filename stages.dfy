/**
 * The batch stages: directories as values, the two per-file operations
 * (`process_audio` and `add_silence`, each catching its own failure), and the
 * runner that submits every listed file and collects one result per file.
 * The worker pool is modelled as a sequential loop: each item's outcome
 * depends on that item alone, so the order of completion does not matter.
 */
module Stages {
  import opened Wrappers
  import opened Paths
  import opened AudioModel

  /** A file in a stage directory: decodable WAV audio, or a file the decoder rejects. */
  datatype WavFile = Decodable(audio: Audio) | Undecodable

  /** A directory: entry names (no '/') to file contents. */
  type Dir = map<string, WavFile>

  predicate ValidDir(d: Dir) {
    forall n :: n in d ==> '/' !in n
  }

  /** `names` is a listing of `d` as `os.listdir` gives it: each entry once, in some order. */
  ghost predicate IsListing(names: seq<string>, d: Dir) {
    (forall i, j :: 0 <= i < j < |names| ==> names[i] != names[j]) &&
    (forall n :: n in names <==> n in d)
  }

  /** `os.listdir`: every entry exactly once, in an order the model leaves open. */
  method ListDir(d: Dir) returns (names: seq<string>)
    ensures IsListing(names, d)
  {
    names := [];
    var rest := d.Keys;
    while rest != {}
      invariant rest <= d.Keys
      invariant forall n :: n in names <==> n in d && n !in rest
      invariant forall i, j :: 0 <= i < j < |names| ==> names[i] != names[j]
      decreases |rest|
    {
      var n :| n in rest;
      names := names + [n];
      rest := rest - {n};
    }
  }

  /**
   * `process_audio` on one file: an undecodable input is caught and yields
   * no output; otherwise the output is the processed audio, mono and at least
   * as loud as the target.
   */
  function ProcessAudioFile(f: WavFile, target: real, lib: AudioLib): (r: Option<WavFile>)
    ensures r.Some? <==> f.Decodable?
    ensures r.Some? ==> r.value.Decodable? && r.value.audio.peakDb >= target
    ensures r.Some? && Lawful(lib) ==>
      r.value.audio.channels == 1 && |r.value.audio.frames| == |f.audio.frames|
  {
    match f
    case Undecodable => None
    case Decodable(a) => Some(Decodable(ProcessAudio(a, target, lib)))
  }

  /**
   * `add_silence` on one file: an undecodable input is caught and yields no
   * output; otherwise the output is the padded clip, from which cutting the
   * padding restores the input.
   */
  function AddSilenceFile(f: WavFile, seconds: nat): (r: Option<WavFile>)
    ensures r.Some? <==> f.Decodable?
    ensures r.Some? ==>
      && r.value.Decodable?
      && |r.value.audio.frames| == |f.audio.frames| + 2 * PadMillis(seconds)
      && Unpad(r.value.audio, seconds) == f.audio
  {
    match f
    case Undecodable => None
    case Decodable(a) =>
      UnpadPad(a, seconds);
      Some(Decodable(Pad(a, seconds)))
  }

  /** The per-file operation a batch stage runs. */
  datatype StageOp = Normalize(target: real, lib: AudioLib) | AddSilence(seconds: nat)

  function Apply(op: StageOp, f: WavFile): Option<WavFile> {
    match op
    case Normalize(target, lib) => ProcessAudioFile(f, target, lib)
    case AddSilence(seconds) => AddSilenceFile(f, seconds)
  }

  /** What a stage reports for one item: the path it wrote, or the input it failed on. */
  datatype StageResult = Written(output: string) | Failed(input: string)

  /** Whether the stage produces an output for input `n`. */
  predicate Succeeds(src: Dir, op: StageOp, n: string) {
    n in src && Apply(op, src[n]).Some?
  }

  /**
   * `out` is `dst` after a stage over the inputs `names` of `src`: it holds
   * the output of every input that succeeded, under the input's name, and
   * every other entry of `dst` as it was.
   */
  ghost predicate StageWrote(dst: Dir, src: Dir, names: set<string>, op: StageOp, out: Dir) {
    && (forall n :: n in out <==> n in dst || (n in names && Succeeds(src, op, n)))
    && (forall n :: n in out ==>
          out[n] == if n in names && Succeeds(src, op, n) then Apply(op, src[n]).value else dst[n])
  }

  /**
   * The result reported for one item: it fails exactly when its file does
   * not decode, and names the output path under the destination otherwise.
   */
  function ResultFor(op: StageOp, f: WavFile, srcPath: string, dstPath: string, name: string): (r: StageResult)
    ensures r.Failed? <==> f.Undecodable?
    ensures r.Written? ==> r.output == Join(dstPath, name)
    ensures r.Failed? ==> r.input == Join(srcPath, name)
  {
    if Apply(op, f).Some? then Written(Join(dstPath, name)) else Failed(Join(srcPath, name))
  }

  /**
   * One batch stage: every listed file is submitted and awaited. Each item
   * gets its own result, decided by its own file alone; the destination
   * gains exactly the outputs of the items that succeeded, each under the
   * input's basename, and keeps every other entry.
   */
  method RunStage(src: Dir, srcPath: string, names: seq<string>, dst: Dir, dstPath: string, op: StageOp)
    returns (out: Dir, results: seq<StageResult>)
    requires forall n :: n in names ==> n in src && '/' !in n
    ensures StageWrote(dst, src, (set n | n in names), op, out)
    ensures |results| == |names|
    ensures forall i :: 0 <= i < |names| ==>
      results[i] == ResultFor(op, src[names[i]], srcPath, dstPath, names[i])
  {
    out := dst;
    results := [];
    ghost var done: set<string> := {};
    for k := 0 to |names|
      invariant StageProgress(src, srcPath, names, dst, dstPath, op, k, done, out, results)
    {
      var name := names[k];
      var out', result := RunItem(src, srcPath, name, out, dstPath, op);
      StageProgressStep(src, srcPath, names, dst, dstPath, op, k, done, out, results, out', result);
      out, results, done := out', results + [result], done + {name};
    }
    StageProgressDone(src, srcPath, names, dst, dstPath, op, done, out, results);
  }

  /**
   * The state of a stage after its first `k` inputs: `done` holds exactly
   * those inputs, the destination holds their outputs, and each has its result.
   */
  ghost predicate StageProgress(src: Dir, srcPath: string, names: seq<string>, dst: Dir, dstPath: string,
                                op: StageOp, k: nat, done: set<string>, out: Dir, results: seq<StageResult>)
  {
    && k <= |names|
    && (forall n :: n in names ==> n in src && '/' !in n)
    && (forall n :: n in done <==> n in names[..k])
    && StageWrote(dst, src, done, op, out)
    && |results| == k
    && (forall i :: 0 <= i < k ==> results[i] == ResultFor(op, src[names[i]], srcPath, dstPath, names[i]))
  }

  /** Running the task for input `k` extends the progress of a stage by one input. */
  lemma StageProgressStep(src: Dir, srcPath: string, names: seq<string>, dst: Dir, dstPath: string, op: StageOp,
                          k: nat, done: set<string>, out: Dir, results: seq<StageResult>,
                          out': Dir, result: StageResult)
    requires StageProgress(src, srcPath, names, dst, dstPath, op, k, done, out, results)
    requires k < |names|
    requires out' == if Apply(op, src[names[k]]).Some? then out[names[k] := Apply(op, src[names[k]]).value] else out
    requires result == ResultFor(op, src[names[k]], srcPath, dstPath, names[k])
    ensures StageProgress(src, srcPath, names, dst, dstPath, op, k + 1, done + {names[k]}, out', results + [result])
  {
    assert names[k] in names;
    DoneStep(dst, src, names, op, k, done, out, out');
    ResultsStep(src, srcPath, names, dstPath, op, k, results, result);
  }

  /** The outputs part of a stage step: input `k` joins the done set and its output, if any, is written. */
  lemma DoneStep(dst: Dir, src: Dir, names: seq<string>, op: StageOp, k: nat, done: set<string>, out: Dir, out': Dir)
    requires k < |names| && names[k] in src
    requires forall n :: n in done <==> n in names[..k]
    requires StageWrote(dst, src, done, op, out)
    requires out' == if Apply(op, src[names[k]]).Some? then out[names[k] := Apply(op, src[names[k]]).value] else out
    ensures forall n :: n in done + {names[k]} <==> n in names[..k + 1]
    ensures StageWrote(dst, src, done + {names[k]}, op, out')
  {
    StageWroteStep(dst, src, done, op, out, names[k]);
    assert names[..k + 1] == names[..k] + [names[k]];
  }

  /** The results part of a stage step: input `k`'s result is appended. */
  lemma ResultsStep(src: Dir, srcPath: string, names: seq<string>, dstPath: string, op: StageOp,
                    k: nat, results: seq<StageResult>, result: StageResult)
    requires k < |names| && forall n :: n in names ==> n in src
    requires |results| == k
    requires forall i :: 0 <= i < k ==> results[i] == ResultFor(op, src[names[i]], srcPath, dstPath, names[i])
    requires result == ResultFor(op, src[names[k]], srcPath, dstPath, names[k])
    ensures |results + [result]| == k + 1
    ensures forall i :: 0 <= i < k + 1 ==>
      (results + [result])[i] == ResultFor(op, src[names[i]], srcPath, dstPath, names[i])
  {
  }

  /** A stage that has taken all its inputs meets the stage's contract. */
  lemma StageProgressDone(src: Dir, srcPath: string, names: seq<string>, dst: Dir, dstPath: string, op: StageOp,
                          done: set<string>, out: Dir, results: seq<StageResult>)
    requires StageProgress(src, srcPath, names, dst, dstPath, op, |names|, done, out, results)
    ensures StageWrote(dst, src, (set n | n in names), op, out)
    ensures |results| == |names|
    ensures forall i :: 0 <= i < |names| ==>
      results[i] == ResultFor(op, src[names[i]], srcPath, dstPath, names[i])
  {
    assert names[..|names|] == names;
    assert done == (set n | n in names);
  }

  /**
   * Where a stage writes the output for input `name` of `srcPath`:
   * `join(dstPath, basename(join(srcPath, name)))`. The output keeps the
   * input's name.
   */
  function ItemOutputPath(srcPath: string, dstPath: string, name: string): (p: string)
    requires '/' !in name
    ensures p == Join(dstPath, name) && Basename(p) == name
  {
    BasenameOfJoin(srcPath, name);
    BasenameOfJoin(dstPath, name);
    Join(dstPath, Basename(Join(srcPath, name)))
  }

  /** Taking one more input into a stage writes that input's output, if it has one. */
  lemma StageWroteStep(dst: Dir, src: Dir, done: set<string>, op: StageOp, out: Dir, name: string)
    requires StageWrote(dst, src, done, op, out)
    ensures StageWrote(dst, src, done + {name}, op,
      if Succeeds(src, op, name) then out[name := Apply(op, src[name]).value] else out)
  {
  }

  /**
   * One submitted task: run the operation on the file and, when it succeeds,
   * write its output under the input's basename in the destination.
   */
  method RunItem(src: Dir, srcPath: string, name: string, dst: Dir, dstPath: string, op: StageOp)
    returns (out: Dir, result: StageResult)
    requires name in src && '/' !in name
    ensures result == ResultFor(op, src[name], srcPath, dstPath, name)
    ensures out == if Apply(op, src[name]).Some? then dst[name := Apply(op, src[name]).value] else dst
  {
    var inPath, outPath := Join(srcPath, name), ItemOutputPath(srcPath, dstPath, name);
    var outcome := Apply(op, src[name]);
    if outcome.Some? {
      out := dst[Basename(outPath) := outcome.value];
      result := Written(outPath);
    } else {
      out := dst;
      result := Failed(inPath);
    }
  }

  /** The number of failures among a stage's results. */
  function CountFailed(results: seq<StageResult>): nat {
    if results == [] then 0
    else (if results[0].Failed? then 1 else 0) + CountFailed(results[1..])
  }

  /** The number of written outputs among a stage's results. */
  function CountWritten(results: seq<StageResult>): nat {
    if results == [] then 0
    else (if results[0].Written? then 1 else 0) + CountWritten(results[1..])
  }

  /** The number of listed inputs that do not decode. */
  function CountUndecodable(src: Dir, names: seq<string>): nat
    requires forall n :: n in names ==> n in src
  {
    if names == [] then 0
    else (if src[names[0]].Undecodable? then 1 else 0) + CountUndecodable(src, names[1..])
  }

  /**
   * A batch reports exactly as many failures as it has undecodable inputs:
   * one corrupt file among N gives one failure and N - 1 written outputs.
   */
  lemma {:induction false} FailuresAreTheUndecodableInputs(
    src: Dir, srcPath: string, names: seq<string>, dstPath: string, op: StageOp, results: seq<StageResult>)
    requires forall n :: n in names ==> n in src
    requires |results| == |names|
    requires forall i :: 0 <= i < |names| ==>
      results[i] == ResultFor(op, src[names[i]], srcPath, dstPath, names[i])
    ensures CountFailed(results) == CountUndecodable(src, names)
    ensures CountWritten(results) == |names| - CountUndecodable(src, names)
  {
    if names != [] {
      FailuresAreTheUndecodableInputs(src, srcPath, names[1..], dstPath, op, results[1..]);
    }
  }

  /** A stage writes only under names taken from a valid directory, so its destination stays valid. */
  lemma StageWroteValid(dst: Dir, src: Dir, names: set<string>, op: StageOp, out: Dir)
    requires ValidDir(dst) && ValidDir(src)
    requires StageWrote(dst, src, names, op, out)
    ensures ValidDir(out)
  {
  }

  /**
   * Isolation: running a stage with one input file replaced (say, by a
   * corrupt one) writes the same output for every other input.
   */
  lemma StageIsolation(dst: Dir, src: Dir, names: set<string>, op: StageOp, out1: Dir,
                       m: string, f: WavFile, out2: Dir, n: string)
    requires StageWrote(dst, src, names, op, out1)
    requires StageWrote(dst, src[m := f], names, op, out2)
    requires n != m
    ensures n in out1 <==> n in out2
    ensures n in out1 ==> out1[n] == out2[n]
  {
  }
}
