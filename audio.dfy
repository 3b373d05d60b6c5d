/**
 * The loudness normalizer and the silence padder, on an abstract audio
 * record: a channel count, the peak level in dBFS, and the clip's content as
 * one frame per millisecond. Applying a gain of g dB adds g to the peak; the
 * sample arithmetic behind it is not modelled.
 */
module AudioModel {

  /**
   * One millisecond of audio: silence, or sound. Sample values are not
   * modelled, so a gain, which rescales every sample, keeps each frame's kind.
   */
  datatype Frame = Silent | Sound

  datatype Audio = Audio(channels: nat, peakDb: real, frames: seq<Frame>)

  /**
   * The audio library's transforms whose internals are not modelled:
   * `set_channels(1)` and `pydub.effects.normalize`.
   */
  datatype AudioLib = AudioLib(toMono: Audio -> Audio, normalize: Audio -> Audio)

  /**
   * What the pipeline relies on from the library: the downmix gives one
   * channel, and neither transform changes the clip's duration; normalizing
   * keeps the channel count.
   */
  ghost predicate Lawful(lib: AudioLib) {
    (forall a :: lib.toMono(a).channels == 1 && |lib.toMono(a).frames| == |a.frames|) &&
    (forall a :: lib.normalize(a).channels == a.channels && |lib.normalize(a).frames| == |a.frames|)
  }

  /** `audio.apply_gain(g)`: raise the level by g dB; a positive gain raises the peak. */
  function ApplyGain(a: Audio, g: real): (r: Audio)
    ensures r.peakDb - a.peakDb == g
    ensures g > 0.0 ==> r.peakDb > a.peakDb
    ensures r.channels == a.channels && r.frames == a.frames
  {
    a.(peakDb := a.peakDb + g)
  }

  /** Gains in dB compose by addition, and a gain of 0 dB changes nothing. */
  lemma ApplyGainCompose(a: Audio, g1: real, g2: real)
    ensures ApplyGain(ApplyGain(a, g1), g2) == ApplyGain(a, g1 + g2)
    ensures ApplyGain(a, 0.0) == a
  {
  }

  /**
   * The gain decision of the normalizer: amplify by `target - peak` only
   * when that factor is positive. The peak ends at the larger of the peak
   * and the target: the clip is never attenuated, and is returned as it is
   * when already at or above the target.
   */
  function GainToTarget(a: Audio, target: real): (r: Audio)
    ensures r.peakDb >= a.peakDb && r.peakDb >= target
    ensures r.peakDb == a.peakDb || r.peakDb == target
    ensures target <= a.peakDb ==> r == a
    ensures r.channels == a.channels && r.frames == a.frames
  {
    var factor := target - a.peakDb;
    if factor > 0.0 then ApplyGain(a, factor) else a
  }

  /** Running the gain decision a second time changes nothing. */
  lemma GainToTargetIdempotent(a: Audio, target: real)
    ensures GainToTarget(GainToTarget(a, target), target) == GainToTarget(a, target)
  {
  }

  /**
   * The output peak is not bounded by the target: a normalized clip that
   * peaks at -0.1 dBFS leaves the normalizer at -0.1 dBFS although the
   * target is -3.0 dBFS.
   */
  lemma PeakCanExceedTarget()
    ensures GainToTarget(Audio(1, -0.1, []), -3.0).peakDb == -0.1
  {
  }

  /**
   * `process_audio` once the file is decoded: downmix to mono, normalize,
   * then the gain decision. Its peak is the larger of the normalized peak
   * and the target; with a lawful library it is mono and as long as the input.
   */
  function ProcessAudio(a: Audio, target: real, lib: AudioLib): (r: Audio)
    ensures Lawful(lib) ==> r.channels == 1 && |r.frames| == |a.frames|
    ensures var n := lib.normalize(lib.toMono(a));
      r.peakDb >= target && r.peakDb >= n.peakDb && (r.peakDb == target || r.peakDb == n.peakDb)
  {
    var mono := lib.toMono(a);
    var normalized := lib.normalize(mono);
    GainToTarget(normalized, target)
  }

  /** The silence of `AudioSegment.silent(duration=seconds * 1000)`, in milliseconds. */
  function PadMillis(seconds: nat): (ms: nat)
    ensures ms / 1000 == seconds && ms % 1000 == 0
  {
    seconds * 1000
  }

  /** A silent clip of `ms` milliseconds. */
  function Silence(ms: nat): (r: seq<Frame>)
    ensures |r| == ms
    ensures forall i :: 0 <= i < ms ==> r[i] == Silent
  {
    seq(ms, _ => Silent)
  }

  /**
   * `silence + audio + silence`: the padded clip is longer by twice the
   * padding, its middle is the original clip, and its two ends are silent.
   * Channel count and peak are those of the original.
   */
  function Pad(a: Audio, seconds: nat): (r: Audio)
    ensures var n := PadMillis(seconds);
      |r.frames| == |a.frames| + 2 * n &&
      r.frames[n..n + |a.frames|] == a.frames &&
      (forall i :: 0 <= i < n ==> r.frames[i] == Silent) &&
      (forall i :: n + |a.frames| <= i < |r.frames| ==> r.frames[i] == Silent)
    ensures r.channels == a.channels && r.peakDb == a.peakDb
  {
    var silence := Silence(PadMillis(seconds));
    a.(frames := silence + a.frames + silence)
  }

  /** Cuts the padding off both ends of a padded clip. */
  function Unpad(p: Audio, seconds: nat): (r: Audio)
    requires |p.frames| >= 2 * PadMillis(seconds)
    ensures |r.frames| == |p.frames| - 2 * PadMillis(seconds)
  {
    var n := PadMillis(seconds);
    p.(frames := p.frames[n..|p.frames| - n])
  }

  /** Padding loses nothing: cutting it off again restores the clip. */
  lemma UnpadPad(a: Audio, seconds: nat)
    ensures Unpad(Pad(a, seconds), seconds) == a
  {
    var p := Pad(a, seconds);
    var n := PadMillis(seconds);
    assert p.frames[n..|p.frames| - n] == a.frames;
  }

  /**
   * Frame by frame: a millisecond of the padded clip is silent before the
   * original starts and after it ends, and is the original's frame shifted
   * by the padding in between.
   */
  lemma PadFrameAt(a: Audio, seconds: nat, i: nat)
    requires i < |Pad(a, seconds).frames|
    ensures var n := PadMillis(seconds);
      Pad(a, seconds).frames[i] == if n <= i < n + |a.frames| then a.frames[i - n] else Silent
  {
    var n := PadMillis(seconds);
    var p := Pad(a, seconds).frames;
    if n <= i < n + |a.frames| {
      assert p[n..n + |a.frames|][i - n] == p[i];
    }
  }
}
