/**
 * The timestamp corrector: the engine reports segment times on the padded
 * timeline, and each time is moved back onto the original recording by
 * subtracting the padding, floored at zero.
 */
module Timestamps {
  import opened AudioModel

  /** A segment as the engine reports it, in seconds on the padded timeline. */
  datatype Segment = Segment(start: real, end: real, text: string)

  /** One transcript line `[start - end] text`, in seconds on the original timeline. */
  datatype Line = Line(start: real, end: real, text: string)

  /** `max(t - silence_duration, 0)` */
  function Correct(t: real, silence: nat): (r: real)
    ensures r >= 0.0
    ensures r == t - silence as real <==> t >= silence as real
    ensures t < silence as real ==> r == 0.0
  {
    var shifted := t - silence as real;
    if 0.0 > shifted then 0.0 else shifted
  }

  /** Correction keeps the order of times. */
  lemma CorrectMonotone(t1: real, t2: real, silence: nat)
    requires t1 <= t2
    ensures Correct(t1, silence) <= Correct(t2, silence)
  {
  }

  /**
   * A time anywhere in the padded clip lands within the original clip plus
   * the trailing padding, and a time inside the speech region lands within
   * the original clip.
   */
  lemma CorrectedRange(t: real, silence: nat, duration: real)
    requires 0.0 <= duration && 0.0 <= t <= duration + 2.0 * silence as real
    ensures 0.0 <= Correct(t, silence) <= duration + silence as real
    ensures t <= silence as real + duration ==> Correct(t, silence) <= duration
  {
  }

  /**
   * Both ends of a segment are corrected, the text is kept, the corrected
   * times are never negative, and a well-ordered segment stays well-ordered.
   */
  function CorrectSegment(seg: Segment, silence: nat): (r: Line)
    ensures r.text == seg.text
    ensures r.start >= 0.0 && r.end >= 0.0
    ensures seg.start <= seg.end ==> r.start <= r.end
  {
    Line(Correct(seg.start, silence), Correct(seg.end, silence), seg.text)
  }

  /** The worked cases: (35, 40) becomes (5, 10) and (10, 12) becomes (0, 0) with 30 s of padding. */
  lemma CorrectSegmentExamples(text: string)
    ensures CorrectSegment(Segment(35.0, 40.0, text), 30) == Line(5.0, 10.0, text)
    ensures CorrectSegment(Segment(10.0, 12.0, text), 30) == Line(0.0, 0.0, text)
  {
  }

  /** The transcript of one file: one corrected line per segment. */
  function TranscriptLines(segments: seq<Segment>, silence: nat): seq<Line> {
    seq(|segments|, i requires 0 <= i < |segments| => CorrectSegment(segments[i], silence))
  }

  /**
   * The segment loop of `transcribe_audio`: writes one line per engine
   * segment, in engine order, each the corrected segment.
   */
  method WriteTranscript(segments: seq<Segment>, silence: nat) returns (lines: seq<Line>)
    ensures |lines| == |segments|
    ensures forall i :: 0 <= i < |segments| ==> lines[i] == CorrectSegment(segments[i], silence)
    ensures lines == TranscriptLines(segments, silence)
  {
    lines := [];
    for k := 0 to |segments|
      invariant |lines| == k
      invariant forall i :: 0 <= i < k ==> lines[i] == CorrectSegment(segments[i], silence)
    {
      var seg := segments[k];
      var startTime := Correct(seg.start, silence);
      var endTime := Correct(seg.end, silence);
      lines := lines + [Line(startTime, endTime, seg.text)];
    }
  }

  /**
   * Padding and correction fit together: a millisecond `i` of the padded clip
   * inside the speech region holds the original's frame `i - padding`, and
   * its time corrects to exactly that offset; inside the leading silence the
   * time corrects to zero.
   */
  lemma PaddedTimeCorrects(a: Audio, silence: nat, i: nat)
    requires i < |Pad(a, silence).frames|
    ensures var n := PadMillis(silence);
      n <= i < n + |a.frames| ==>
        Pad(a, silence).frames[i] == a.frames[i - n] &&
        Correct(i as real / 1000.0, silence) == (i - n) as real / 1000.0
    ensures i < PadMillis(silence) ==>
      Pad(a, silence).frames[i] == Silent && Correct(i as real / 1000.0, silence) == 0.0
  {
    PadFrameAt(a, silence, i);
  }
}
