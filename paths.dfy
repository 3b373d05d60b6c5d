/**
 * File-name handling of the pipeline: the `.wav` suffix filter, POSIX
 * `os.path.join` / `os.path.basename` / `os.path.splitext`, and the name of
 * the transcript written for a padded file.
 */
module Paths {

  const WavSuffix: string := ".wav"
  const TxtSuffix: string := ".txt"

  /** Python's `str.endswith`. */
  predicate EndsWith(s: string, suffix: string) {
    |suffix| <= |s| && s[|s| - |suffix|..] == suffix
  }

  /** A string ends with a suffix exactly when it is some prefix followed by that suffix. */
  lemma EndsWithIsSuffix(s: string, suffix: string)
    ensures EndsWith(s, suffix) <==> exists prefix :: s == prefix + suffix
  {
    if EndsWith(s, suffix) {
      assert s == s[..|s| - |suffix|] + suffix;
    }
    if exists prefix :: s == prefix + suffix {
      var prefix :| s == prefix + suffix;
      assert s[|s| - |suffix|..] == suffix;
    }
  }

  /** Python's `str.rfind` for one character: the last index of `c`, or -1. */
  function LastIndexOf(s: string, c: char): (r: int)
    ensures -1 <= r < |s|
    ensures 0 <= r ==> s[r] == c
    ensures forall i :: r < i < |s| ==> s[i] != c
  {
    if s == [] then -1
    else if s[|s| - 1] == c then |s| - 1
    else LastIndexOf(s[..|s| - 1], c)
  }

  /** POSIX `os.path.basename`: everything after the last '/'. */
  function Basename(p: string): (r: string)
    ensures '/' !in r
    ensures |r| <= |p| && p[|p| - |r|..] == r
    ensures '/' !in p ==> r == p
  {
    var k := LastIndexOf(p, '/');
    var r := p[k + 1..];
    assert '/' !in r by {
      forall i | 0 <= i < |r| ensures r[i] != '/' {
        assert r[i] == p[k + 1 + i];
      }
    }
    assert '/' !in p ==> k == -1 && r == p;
    r
  }

  /** A basename shorter than its path is cut exactly at a '/': nothing of the last component is lost. */
  lemma BasenameFollowsSeparator(p: string)
    ensures var r := Basename(p); |r| < |p| ==> p[|p| - |r| - 1] == '/'
  {
    var k := LastIndexOf(p, '/');
    assert |Basename(p)| == |p| - k - 1;
  }

  /** POSIX `os.path.join` of two components. */
  function Join(dir: string, name: string): (r: string)
    ensures EndsWith(r, name)
    ensures |name| > 0 && name[0] == '/' ==> r == name
  {
    if |name| > 0 && name[0] == '/' then name
    else if dir == [] || dir[|dir| - 1] == '/' then dir + name
    else dir + "/" + name
  }

  lemma {:induction false} LastIndexAfterSeparator(a: string, b: string, c: char)
    requires c !in b
    ensures LastIndexOf(a + [c] + b, c) == |a|
  {
    var s := a + [c] + b;
    assert s[|a|] == c;
    assert forall i :: |a| < i < |s| ==> s[i] == b[i - |a| - 1];
  }

  /** The basename of a name joined under any directory is the name itself. */
  lemma {:induction false} BasenameOfJoin(dir: string, name: string)
    requires '/' !in name
    ensures Basename(Join(dir, name)) == name
  {
    var p := Join(dir, name);
    if dir == [] || dir[|dir| - 1] == '/' {
      if dir == [] {
        assert p == name;
      } else {
        var d := dir[..|dir| - 1];
        assert dir == d + ['/'];
        assert p == d + ['/'] + name;
        LastIndexAfterSeparator(d, name, '/');
        assert p[|d| + 1..] == name;
      }
    } else {
      assert p == dir + ['/'] + name;
      LastIndexAfterSeparator(dir, name, '/');
      assert p[|dir| + 1..] == name;
    }
  }

  /** Every character of `s` from index `lo` up to `hi` is a '.'. */
  predicate DotsOnly(s: string, lo: int, hi: int) {
    forall i :: lo <= i < hi && 0 <= i < |s| ==> s[i] == '.'
  }

  /**
   * The root part of POSIX `os.path.splitext`: the path without its
   * extension. The extension starts at the last '.', and only when that dot
   * comes after the last '/' and some character between them is not a dot
   * (so a name made of leading dots has no extension).
   */
  function Stem(p: string): (r: string)
    ensures |r| <= |p| && r == p[..|r|]
    ensures r == p || (p[|r|] == '.' && '.' !in p[|r| + 1..] && '/' !in p[|r|..])
  {
    var sep := LastIndexOf(p, '/');
    var dot := LastIndexOf(p, '.');
    if dot > sep && !DotsOnly(p, sep + 1, dot) then p[..dot] else p
  }

  /** `f"{os.path.splitext(filename)[0]}.txt"`: the transcript file's name. */
  function TranscriptName(name: string): (r: string)
    ensures EndsWith(r, TxtSuffix)
  {
    Stem(name) + TxtSuffix
  }

  /** A listed `.wav` name with something other than dots before its suffix. */
  predicate OrdinaryWavName(name: string) {
    '/' !in name && EndsWith(name, WavSuffix) && !DotsOnly(name, 0, |name| - |WavSuffix|)
  }

  /** For an ordinary `.wav` name the transcript replaces the suffix by `.txt`. */
  lemma TranscriptNameOfWav(name: string)
    requires OrdinaryWavName(name)
    ensures TranscriptName(name) == name[..|name| - 4] + TxtSuffix
  {
    var n := |name|;
    var dot := LastIndexOf(name, '.');
    assert name[n - 4..] == ".wav";
    assert name[n - 4] == '.' && name[n - 3] == 'w' && name[n - 2] == 'a' && name[n - 1] == 'v';
    assert dot == n - 4;
    assert LastIndexOf(name, '/') == -1;
    assert name[-1 + 1..dot] == name[..n - 4];
  }

  /**
   * In a '/'-free name whose last '.' has only dots before it (or that has
   * no '.'), `splitext` finds no extension: the root is the whole name.
   */
  lemma LeadingDotsKept(p: string)
    requires '/' !in p && DotsOnly(p, 0, LastIndexOf(p, '.'))
    ensures Stem(p) == p
  {
    assert LastIndexOf(p, '/') == -1;
  }

  /**
   * In a '/'-free name whose last '.' has some other character before it,
   * `splitext` cuts the name at that last '.'.
   */
  lemma StemCutsAtLastDot(p: string)
    requires '/' !in p && !DotsOnly(p, 0, LastIndexOf(p, '.'))
    ensures 0 < LastIndexOf(p, '.') && Stem(p) == p[..LastIndexOf(p, '.')]
  {
    assert LastIndexOf(p, '/') == -1;
  }

  /**
   * A `.wav` name made of dots before its suffix, such as `..wav`, keeps the
   * suffix in its transcript name.
   */
  lemma DotOnlyWavTranscriptName(name: string)
    requires '/' !in name && EndsWith(name, WavSuffix) && DotsOnly(name, 0, |name| - 4)
    ensures TranscriptName(name) == name + TxtSuffix
  {
    var n := |name|;
    assert name[n - 4..] == ".wav";
    assert name[n - 4] == '.' && name[n - 3] == 'w' && name[n - 2] == 'a' && name[n - 1] == 'v';
    assert LastIndexOf(name, '.') == n - 4;
    LeadingDotsKept(name);
  }

  /** Two strings that agree after the same suffix is appended agree. */
  lemma SuffixCancel(x: string, y: string, suffix: string)
    requires x + suffix == y + suffix
    ensures x == y
  {
    assert |x| == |y|;
    assert x == (x + suffix)[..|x|];
    assert y == (y + suffix)[..|y|];
  }

  /** Two different ordinary `.wav` names never share a transcript file. */
  lemma TranscriptNameInjective(a: string, b: string)
    requires OrdinaryWavName(a) && OrdinaryWavName(b)
    requires TranscriptName(a) == TranscriptName(b)
    ensures a == b
  {
    TranscriptNameOfWav(a);
    TranscriptNameOfWav(b);
    SuffixCancel(a[..|a| - 4], b[..|b| - 4], TxtSuffix);
    assert a == a[..|a| - 4] + a[|a| - 4..];
    assert b == b[..|b| - 4] + b[|b| - 4..];
  }

  /** A dot-only name keeps its suffix: ".wav" and ".wav.wav" both write ".wav.txt". */
  lemma DotOnlyNamesCollide()
    ensures EndsWith(".wav", WavSuffix) && EndsWith(".wav.wav", WavSuffix)
    ensures TranscriptName(".wav") == TranscriptName(".wav.wav") == ".wav.txt"
  {
    var p, q := ".wav", ".wav.wav";
    assert p[0] == '.' && p[1] == 'w' && p[2] == 'a' && p[3] == 'v';
    assert LastIndexOf(p, '.') == 0;
    assert LastIndexOf(p, '/') == -1;
    assert q[4] == '.' && q[5] == 'w' && q[6] == 'a' && q[7] == 'v';
    assert LastIndexOf(q, '.') == 4;
    assert LastIndexOf(q, '/') == -1;
    assert q[0..4] == ".wav";
    assert !DotsOnly(q, 0, 4);
    assert q[..4] == ".wav";
  }

  /** `[f for f in names if f.endswith(".wav")]` */
  function WavNames(names: seq<string>): (r: seq<string>)
    ensures |r| <= |names|
    ensures forall n :: n in r ==> EndsWith(n, WavSuffix)
  {
    if names == [] then []
    else if EndsWith(names[0], WavSuffix) then [names[0]] + WavNames(names[1..])
    else WavNames(names[1..])
  }

  /** A name survives the filter exactly when it is listed and ends in `.wav`. */
  lemma {:induction false} WavNamesMembership(names: seq<string>, n: string)
    ensures n in WavNames(names) <==> n in names && EndsWith(n, WavSuffix)
  {
    if names != [] {
      WavNamesMembership(names[1..], n);
      assert names == [names[0]] + names[1..];
    }
  }

  /** The filter keeps the listing order: it commutes with appending one name. */
  lemma {:induction false} WavNamesAppend(names: seq<string>, n: string)
    ensures WavNames(names + [n]) == WavNames(names) + (if EndsWith(n, WavSuffix) then [n] else [])
  {
    if names == [] {
      assert names + [n] == [n];
    } else {
      assert (names + [n])[1..] == names[1..] + [n];
      WavNamesAppend(names[1..], n);
    }
  }
}
