/**
 * `transcribe_audio`: every `.wav` entry of the padded directory, in listing
 * order, goes through the engine, and its segments are written, corrected,
 * to a transcript named after the file. One `try` encloses the whole loop,
 * so the first file the engine fails on ends the loop: later files get no
 * transcript.
 */
module Transcription {
  import opened Wrappers
  import opened Paths
  import opened Stages
  import opened Timestamps

  /** The transcript directory: transcript file names to their lines. */
  type Transcripts = map<string, seq<Line>>

  /**
   * A loaded engine: `model.transcribe(path, language=...)`, which either
   * yields the segments of the file or raises (None).
   */
  datatype Engine = Engine(transcribe: (WavFile, string) -> Option<seq<Segment>>)

  /** The transcripts after the loop, and the file it stopped on, if any. */
  datatype TranscribeResult = TranscribeResult(transcripts: Transcripts, stoppedAt: Option<string>)

  /** `name` is an entry of `padded` that the engine transcribes without raising. */
  predicate EngineAccepts(padded: Dir, engine: Engine, language: string, name: string) {
    name in padded && engine.transcribe(padded[name], language).Some?
  }

  /** The loop of `transcribe_audio` over the listing `names`, starting from the transcripts `out`. */
  function TranscribeRun(padded: Dir, names: seq<string>, out: Transcripts, engine: Engine,
                         silence: nat, language: string): (r: TranscribeResult)
    requires forall n :: n in names ==> n in padded
    ensures out.Keys <= r.transcripts.Keys
    ensures forall t :: t in r.transcripts && t !in out ==> EndsWith(t, TxtSuffix)
    ensures r.stoppedAt.Some? ==>
      && r.stoppedAt.value in names
      && EndsWith(r.stoppedAt.value, WavSuffix)
      && !EngineAccepts(padded, engine, language, r.stoppedAt.value)
    decreases |names|
  {
    if names == [] then TranscribeResult(out, None)
    else
      var name := names[0];
      if !EndsWith(name, WavSuffix) then TranscribeRun(padded, names[1..], out, engine, silence, language)
      else match engine.transcribe(padded[name], language)
        case None => TranscribeResult(out, Some(name))
        case Some(segments) =>
          TranscribeRun(padded, names[1..], out[TranscriptName(name) := TranscriptLines(segments, silence)],
                        engine, silence, language)
  }

  /**
   * The loop as the source runs it: the segment loop writes each file's
   * lines, and the first engine failure leaves the loop.
   */
  method TranscribeAudio(padded: Dir, listing: seq<string>, out: Transcripts, engine: Engine,
                         silence: nat, language: string)
    returns (transcripts: Transcripts, stoppedAt: Option<string>)
    requires forall n :: n in listing ==> n in padded
    ensures TranscribeResult(transcripts, stoppedAt) == TranscribeRun(padded, listing, out, engine, silence, language)
  {
    transcripts, stoppedAt := out, None;
    var i := 0;
    while i < |listing| && stoppedAt.None?
      invariant 0 <= i <= |listing|
      invariant stoppedAt.None? ==>
        TranscribeRun(padded, listing[i..], transcripts, engine, silence, language)
          == TranscribeRun(padded, listing, out, engine, silence, language)
      invariant stoppedAt.Some? ==>
        TranscribeResult(transcripts, stoppedAt) == TranscribeRun(padded, listing, out, engine, silence, language)
    {
      var filename := listing[i];
      if EndsWith(filename, WavSuffix) {
        var result := engine.transcribe(padded[filename], language);
        if result.None? {
          stoppedAt := Some(filename);
        } else {
          var outputName := TranscriptName(filename);
          var lines := WriteTranscript(result.value, silence);
          transcripts := transcripts[outputName := lines];
        }
      }
      i := i + 1;
    }
    if stoppedAt.None? {
      assert listing[i..] == [];
    }
  }

  /**
   * How many `.wav` files, from the front of `files`, the engine accepts
   * before the first it fails on.
   */
  function AcceptedPrefix(padded: Dir, files: seq<string>, engine: Engine, language: string): (k: nat)
    ensures k <= |files|
    ensures forall i :: 0 <= i < k ==> EngineAccepts(padded, engine, language, files[i])
    ensures k < |files| ==> !EngineAccepts(padded, engine, language, files[k])
  {
    if files == [] then 0
    else if !EngineAccepts(padded, engine, language, files[0]) then 0
    else 1 + AcceptedPrefix(padded, files[1..], engine, language)
  }

  /** One transcript file to write: its name and its lines. */
  datatype Entry = Entry(name: string, lines: seq<Line>)

  /**
   * The transcript entry of a file: its transcript name and, when the engine
   * accepts the file, its corrected lines.
   */
  function EntryOf(padded: Dir, engine: Engine, silence: nat, language: string, name: string): Entry {
    var segments := if name in padded then engine.transcribe(padded[name], language) else None;
    Entry(TranscriptName(name), if segments.Some? then TranscriptLines(segments.value, silence) else [])
  }

  /** The transcript entry of each file, in order. */
  function FileEntries(padded: Dir, files: seq<string>, engine: Engine, silence: nat, language: string): (r: seq<Entry>)
    ensures |r| == |files|
    decreases |files|
  {
    if files == [] then []
    else [EntryOf(padded, engine, silence, language, files[0])] + FileEntries(padded, files[1..], engine, silence, language)
  }

  lemma {:induction false} FileEntriesAt(padded: Dir, files: seq<string>, engine: Engine, silence: nat, language: string, j: nat)
    requires j < |files|
    ensures FileEntries(padded, files, engine, silence, language)[j] == EntryOf(padded, engine, silence, language, files[j])
    decreases |files|
  {
    if j > 0 {
      FileEntriesAt(padded, files[1..], engine, silence, language, j - 1);
    }
  }

  lemma FileEntriesCons(padded: Dir, name: string, rest: seq<string>, engine: Engine, silence: nat, language: string)
    ensures FileEntries(padded, [name] + rest, engine, silence, language) ==
      [EntryOf(padded, engine, silence, language, name)] + FileEntries(padded, rest, engine, silence, language)
  {
    assert ([name] + rest)[1..] == rest;
  }

  /** Writing the entries one after the other into `out`; a later entry overwrites an earlier one of the same name. */
  function WriteEntries(out: Transcripts, entries: seq<Entry>): Transcripts
    decreases |entries|
  {
    if entries == [] then out
    else WriteEntries(out[entries[0].name := entries[0].lines], entries[1..])
  }

  /**
   * The outcome of transcribing `files` in order when the engine stops the
   * run at the first file it fails on: the transcripts of the files before
   * that one are written, and that file is reported.
   */
  ghost function PrefixRun(padded: Dir, files: seq<string>, out: Transcripts, engine: Engine,
                           silence: nat, language: string): TranscribeResult
  {
    var k := AcceptedPrefix(padded, files, engine, language);
    TranscribeResult(WriteEntries(out, FileEntries(padded, files[..k], engine, silence, language)),
                     if k < |files| then Some(files[k]) else None)
  }

  /**
   * The loop stops at the first failure: of the listed `.wav` files it
   * writes the transcripts of exactly those before the first one the engine
   * fails on, and reports that one; when the engine accepts them all, it
   * reports no failure.
   */
  lemma {:induction false} TranscribeRunStopsAtFirstFailure(
    padded: Dir, names: seq<string>, out: Transcripts, engine: Engine, silence: nat, language: string)
    requires forall n :: n in names ==> n in padded
    ensures TranscribeRun(padded, names, out, engine, silence, language)
      == PrefixRun(padded, WavNames(names), out, engine, silence, language)
  {
    if names == [] {
      assert WavNames(names) == [];
    } else {
      var name := names[0];
      var rest := WavNames(names[1..]);
      TranscribeRunStopsAtFirstFailure(padded, names[1..], out, engine, silence, language);
      if !EndsWith(name, WavSuffix) {
        assert WavNames(names) == rest;
      } else {
        assert WavNames(names) == [name] + rest;
        if EngineAccepts(padded, engine, language, name) {
          var segments := engine.transcribe(padded[name], language).value;
          var out' := out[TranscriptName(name) := TranscriptLines(segments, silence)];
          TranscribeRunStopsAtFirstFailure(padded, names[1..], out', engine, silence, language);
          AcceptedFileStep(padded, name, rest, out, engine, silence, language);
        } else {
          RejectedFileStep(padded, name, rest, out, engine, silence, language);
        }
      }
    }
  }

  /** A file the engine accepts at the front is written, and the run goes on with the rest. */
  lemma AcceptedFileStep(padded: Dir, name: string, rest: seq<string>, out: Transcripts, engine: Engine,
                         silence: nat, language: string)
    requires EngineAccepts(padded, engine, language, name)
    ensures var segments := engine.transcribe(padded[name], language).value;
      PrefixRun(padded, [name] + rest, out, engine, silence, language)
      == PrefixRun(padded, rest, out[TranscriptName(name) := TranscriptLines(segments, silence)], engine, silence, language)
  {
    var files, k := [name] + rest, AcceptedPrefix(padded, rest, engine, language);
    var segments := engine.transcribe(padded[name], language).value;
    var e := Entry(TranscriptName(name), TranscriptLines(segments, silence));
    assert files[1..] == rest;
    assert AcceptedPrefix(padded, files, engine, language) == 1 + k;
    assert files[..1 + k] == [name] + rest[..k];
    FileEntriesCons(padded, name, rest[..k], engine, silence, language);
    assert EntryOf(padded, engine, silence, language, name) == e;
    WriteEntriesCons(out, e, FileEntries(padded, rest[..k], engine, silence, language));
  }

  /** Writing an entry list that starts with `e` writes `e` first. */
  lemma WriteEntriesCons(out: Transcripts, e: Entry, entries: seq<Entry>)
    ensures WriteEntries(out, [e] + entries) == WriteEntries(out[e.name := e.lines], entries)
  {
    assert ([e] + entries)[1..] == entries;
  }

  /** A file the engine fails on at the front stops the run: nothing is written and it is reported. */
  lemma RejectedFileStep(padded: Dir, name: string, rest: seq<string>, out: Transcripts, engine: Engine,
                         silence: nat, language: string)
    requires name in padded && !EngineAccepts(padded, engine, language, name)
    ensures PrefixRun(padded, [name] + rest, out, engine, silence, language) == TranscribeResult(out, Some(name))
  {
    assert ([name] + rest)[..0] == [];
  }

  /** After the writes, a name is present exactly when it was before or some entry has it. */
  lemma {:induction false} WriteEntriesKeys(out: Transcripts, entries: seq<Entry>, t: string)
    ensures t in WriteEntries(out, entries) <==> t in out || exists i :: 0 <= i < |entries| && entries[i].name == t
    decreases |entries|
  {
    if entries != [] {
      WriteEntriesKeys(out[entries[0].name := entries[0].lines], entries[1..], t);
      if exists i :: 0 <= i < |entries[1..]| && entries[1..][i].name == t {
        var i :| 0 <= i < |entries[1..]| && entries[1..][i].name == t;
        assert entries[i + 1].name == t;
      }
      if exists i :: 0 <= i < |entries| && entries[i].name == t {
        var i :| 0 <= i < |entries| && entries[i].name == t;
        if i > 0 {
          assert entries[1..][i - 1].name == t;
        }
      }
    }
  }

  /** An entry name that no entry writes keeps its earlier content. */
  lemma {:induction false} WriteEntriesUntouched(out: Transcripts, entries: seq<Entry>, t: string)
    requires t in out
    requires forall i :: 0 <= i < |entries| ==> entries[i].name != t
    ensures t in WriteEntries(out, entries) && WriteEntries(out, entries)[t] == out[t]
    decreases |entries|
  {
    if entries != [] {
      WriteEntriesUntouched(out[entries[0].name := entries[0].lines], entries[1..], t);
    }
  }

  /** When no two entries share a name, each entry's lines are what ends up under its name. */
  lemma {:induction false} WriteEntriesContent(out: Transcripts, entries: seq<Entry>, j: nat)
    requires forall a, b :: 0 <= a < b < |entries| ==> entries[a].name != entries[b].name
    requires j < |entries|
    ensures entries[j].name in WriteEntries(out, entries)
    ensures WriteEntries(out, entries)[entries[j].name] == entries[j].lines
    decreases |entries|
  {
    var out' := out[entries[0].name := entries[0].lines];
    if j == 0 {
      WriteEntriesUntouched(out', entries[1..], entries[0].name);
    } else {
      WriteEntriesContent(out', entries[1..], j - 1);
    }
  }

  /**
   * When no two `.wav` files share a transcript name, each accepted file's
   * transcript holds exactly its own corrected segments, one line per
   * segment in engine order.
   */
  lemma TranscriptOfEachFile(padded: Dir, files: seq<string>, out: Transcripts, engine: Engine,
                             silence: nat, language: string, j: nat)
    requires forall n :: n in files ==> EngineAccepts(padded, engine, language, n)
    requires forall a, b :: 0 <= a < b < |files| ==> TranscriptName(files[a]) != TranscriptName(files[b])
    requires j < |files|
    ensures EngineAccepts(padded, engine, language, files[j])
    ensures var w := WriteEntries(out, FileEntries(padded, files, engine, silence, language));
      var segments := engine.transcribe(padded[files[j]], language).value;
      TranscriptName(files[j]) in w &&
      |w[TranscriptName(files[j])]| == |segments| &&
      forall i :: 0 <= i < |segments| ==> w[TranscriptName(files[j])][i] == CorrectSegment(segments[i], silence)
  {
    assert files[j] in files;
    var entries := FileEntries(padded, files, engine, silence, language);
    forall a | 0 <= a < |files| ensures entries[a] == EntryOf(padded, engine, silence, language, files[a]) {
      FileEntriesAt(padded, files, engine, silence, language, a);
    }
    WriteEntriesContent(out, entries, j);
  }

  /** Ordinary, distinct `.wav` names never share a transcript name. */
  lemma OrdinaryNamesHaveOwnTranscripts(files: seq<string>)
    requires forall n :: n in files ==> OrdinaryWavName(n)
    requires forall a, b :: 0 <= a < b < |files| ==> files[a] != files[b]
    ensures forall a, b :: 0 <= a < b < |files| ==> TranscriptName(files[a]) != TranscriptName(files[b])
  {
    forall a, b | 0 <= a < b < |files|
      ensures TranscriptName(files[a]) != TranscriptName(files[b])
    {
      if TranscriptName(files[a]) == TranscriptName(files[b]) {
        TranscriptNameInjective(files[a], files[b]);
      }
    }
  }
}
