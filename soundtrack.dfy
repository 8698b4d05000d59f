/**
 * The soundtrack list of the main server: the audio files of the soundtrack
 * directory, each with a title made from its file name by stripping the
 * extension and a leading disc or track number, turning underscores into
 * spaces and trimming.
 */
module Soundtrack {
  import opened Wrappers
  import opened Text
  import opened Json

  const UnknownTrack: string := "Unknown Track"

  // ----- `/\.[^.]+$/`: the last extension -----

  /** A `.` at `j` followed by one or more characters up to the end, none of them a `.`. */
  predicate ExtensionAt(s: string, j: nat) {
    j + 1 < |s| && s[j] == '.' && forall k :: j < k < |s| ==> s[k] != '.'
  }

  /** The position of the last `.` of `s`. */
  function LastDot(s: string): (r: Option<nat>)
    ensures r.Some? ==> r.value < |s| && s[r.value] == '.' && forall k :: r.value < k < |s| ==> s[k] != '.'
    ensures r.None? ==> forall k :: 0 <= k < |s| ==> s[k] != '.'
    decreases |s|
  {
    if |s| == 0 then None
    else if s[|s| - 1] == '.' then Some(|s| - 1)
    else
      var r := LastDot(s[..|s| - 1]);
      assert forall k :: 0 <= k < |s| - 1 ==> s[..|s| - 1][k] == s[k];
      r
  }

  /**
   * `fileName.replace(/\.[^.]+$/, '')`: the expression can only match at
   * the last `.`, and only when something follows it; the match runs to the
   * end and is cut off.
   */
  function StripExtension(s: string): string {
    match LastDot(s)
    case Some(j) => if j + 1 < |s| then s[..j] else s
    case None => s
  }

  /** A suffix `.` + non-dots is at one place only. */
  lemma ExtensionUnique(s: string, i: nat, j: nat)
    requires ExtensionAt(s, i) && ExtensionAt(s, j)
    ensures i == j
  {
  }

  /** The extension is cut exactly when there is one, and a name without one is unchanged. */
  lemma StripExtensionSpec(s: string)
    ensures forall j: nat :: ExtensionAt(s, j) ==> StripExtension(s) == s[..j]
    ensures (forall j: nat :: !ExtensionAt(s, j)) ==> StripExtension(s) == s
  {
    match LastDot(s)
    case Some(j) =>
      if j + 1 < |s| {
        assert ExtensionAt(s, j);
        forall i: nat | ExtensionAt(s, i) ensures StripExtension(s) == s[..i] {
          ExtensionUnique(s, i, j);
        }
      } else {
        assert forall i: nat :: !ExtensionAt(s, i);
      }
    case None =>
      assert forall i: nat :: !ExtensionAt(s, i);
  }

  /** Only the last extension goes: the rest of the name, dots and all, stays. */
  lemma StripLastExtension(base: string, ext: string)
    requires ext != "" && '.' !in ext
    ensures StripExtension(base + "." + ext) == base
  {
    var s := base + "." + ext;
    assert ExtensionAt(s, |base|) by {
      forall k | |base| < k < |s| ensures s[k] != '.' {
        assert s[k] == ext[k - |base| - 1];
      }
    }
    StripExtensionSpec(s);
    assert s[..|base|] == base;
  }

  // ----- `/^\d+-\d+\.\s*/` and `/^\d+\.\s*/`: the disc and track numbers -----

  /** `s` with its leading white space cut off, as a greedy `\s*` consumes it. */
  function SkipSpace(s: string): (r: string)
    ensures |r| <= |s|
  {
    s[LeadingSpace(s)..]
  }

  /** `a` digits, `-`, `b` digits and `.` at the front of `s`. */
  predicate DiscIndexAt(s: string, a: nat, b: nat) {
    0 < a && 0 < b && a + b + 2 <= |s|
    && AllDigits(s[..a]) && s[a] == '-' && AllDigits(s[a + 1..a + 1 + b]) && s[a + 1 + b] == '.'
  }

  /** `a` digits and `.` at the front of `s`. */
  predicate TrackIndexAt(s: string, a: nat) {
    0 < a && a + 1 <= |s| && AllDigits(s[..a]) && s[a] == '.'
  }

  /** A run of `n` digits followed by a non-digit is the leading run. */
  lemma DigitRun(s: string, n: nat)
    requires n < |s| && AllDigits(s[..n]) && !IsDigit(s[n])
    ensures LeadingDigits(s) == n
  {
    var k := LeadingDigits(s);
    assert forall j :: 0 <= j < n ==> IsDigit(s[j]) by {
      forall j | 0 <= j < n ensures IsDigit(s[j]) { assert s[..n][j] == s[j]; }
    }
    assert forall j :: 0 <= j < k ==> IsDigit(s[j]) by {
      forall j | 0 <= j < k ensures IsDigit(s[j]) { assert s[..k][j] == s[j]; }
    }
  }

  /** A run of `n` white-space characters followed by another character is the leading run. */
  lemma SpaceRun(s: string, n: nat)
    requires n < |s| && AllSpace(s[..n]) && !IsJsSpace(s[n])
    ensures LeadingSpace(s) == n
  {
    var k := LeadingSpace(s);
    assert forall j :: 0 <= j < n ==> IsJsSpace(s[j]) by {
      forall j | 0 <= j < n ensures IsJsSpace(s[j]) { assert s[..n][j] == s[j]; }
    }
    assert forall j :: 0 <= j < k ==> IsJsSpace(s[j]) by {
      forall j | 0 <= j < k ensures IsJsSpace(s[j]) { assert s[..k][j] == s[j]; }
    }
  }

  /** The digit runs of a disc number are whole runs: a `-` or `.` is not a digit. */
  lemma DiscIndexRuns(s: string, a: nat, b: nat)
    requires DiscIndexAt(s, a, b)
    ensures a == LeadingDigits(s) && b == LeadingDigits(s[a + 1..])
  {
    DigitRun(s, a);
    assert s[a + 1..][..b] == s[a + 1..a + 1 + b];
    DigitRun(s[a + 1..], b);
  }

  /**
   * The disc-number `replace` (digits, `-`, digits, `.`, then `\s` as often
   * as it occurs, at the start).
   */
  function StripDiscIndex(s: string): string {
    var n := DiscIndexLength(s);
    if n == 0 then s else SkipSpace(s[n..])
  }

  /** The length of the disc number at the front of `s` up to its `.`, 0 for none. */
  function DiscIndexLength(s: string): (n: nat)
    ensures n <= |s|
  {
    var a := LeadingDigits(s);
    if 0 < a < |s| && s[a] == '-' then
      var b := LeadingDigits(s[a + 1..]);
      if 0 < b && a + 1 + b < |s| && s[a + 1 + b] == '.' then a + b + 2 else 0
    else 0
  }

  /**
   * A leading disc number such as `01-02. ` is removed with the white space
   * after it.
   */
  lemma StripDiscIndexAt(s: string, a: nat, b: nat)
    requires DiscIndexAt(s, a, b)
    ensures StripDiscIndex(s) == SkipSpace(s[a + b + 2..])
  {
    DiscIndexRuns(s, a, b);
    assert 0 < a < |s| && s[a] == '-';
    assert 0 < b && a + 1 + b < |s| && s[a + 1 + b] == '.';
    var n := DiscIndexLength(s);
    assert n == a + b + 2;
    assert StripDiscIndex(s) == SkipSpace(s[n..]);
  }

  /** Without a disc number the name is unchanged, and with one it is not. */
  lemma StripDiscIndexSpec(s: string)
    ensures (exists a: nat, b: nat :: DiscIndexAt(s, a, b)) <==> StripDiscIndex(s) != s
  {
    if DiscIndexLength(s) != 0 {
      var a := LeadingDigits(s);
      var b := LeadingDigits(s[a + 1..]);
      assert s[a + 1..][..b] == s[a + 1..a + 1 + b];
      assert DiscIndexAt(s, a, b);
    } else if exists a: nat, b: nat :: DiscIndexAt(s, a, b) {
      var a: nat, b: nat :| DiscIndexAt(s, a, b);
      StripDiscIndexAt(s, a, b);
    }
  }

  /** The track-number `replace` (digits, `.`, then white space, at the start). */
  function StripTrackIndex(s: string): string {
    var a := LeadingDigits(s);
    if 0 < a < |s| && s[a] == '.' then SkipSpace(s[a + 1..]) else s
  }

  /**
   * A leading track number such as `07. ` is removed with the white space
   * after it; without one the name is unchanged.
   */
  lemma StripTrackIndexSpec(s: string)
    ensures forall a: nat :: TrackIndexAt(s, a) ==> StripTrackIndex(s) == SkipSpace(s[a + 1..])
    ensures (exists a: nat :: TrackIndexAt(s, a)) <==> StripTrackIndex(s) != s
  {
    forall a: nat | TrackIndexAt(s, a) ensures StripTrackIndex(s) == SkipSpace(s[a + 1..]) {
      DigitRun(s, a);
    }
    if StripTrackIndex(s) != s {
      assert TrackIndexAt(s, LeadingDigits(s));
    }
  }

  // ----- the title -----

  /** `.replace(/_/g, ' ')`. */
  function Spaced(s: string): (r: string)
    ensures |r| == |s| && '_' !in r
    ensures forall k :: 0 <= k < |s| ==> r[k] == if s[k] == '_' then ' ' else s[k]
  {
    seq(|s|, k requires 0 <= k < |s| => if s[k] == '_' then ' ' else s[k])
  }

  /** Trimming only cuts: it brings in no character. */
  lemma TrimKeepsOut(s: string, c: char)
    requires c !in s
    ensures c !in Trim(s)
  {
    var r := Trim(s);
    var i :| 0 <= i <= |s| - |r| && r == s[i..i + |r|] && AllSpace(s[..i]) && AllSpace(s[i + |r|..]);
    forall k | 0 <= k < |r| ensures r[k] != c {
      assert r[k] == s[i + k];
    }
  }

  /** The name with extension and numbers stripped, underscores spaced, and trimmed. */
  function Cleaned(s: string): (r: string)
    ensures Trimmed(r) && '_' !in r
  {
    var spaced := Spaced(StripTrackIndex(StripDiscIndex(StripExtension(s))));
    TrimKeepsOut(spaced, '_');
    Trim(spaced)
  }

  /**
   * `prettifyTrackName(fileName)`: never empty, never an underscore, never
   * white space at either end; `Unknown Track` for a value that is not a
   * non-empty string, and for a name of which nothing is left.
   */
  function PrettifyTrackName(fileName: Json): (title: string)
    ensures title != "" && '_' !in title && Trimmed(title)
    ensures !(fileName.JString? && fileName.s != "") ==> title == UnknownTrack
    ensures fileName.JString? && fileName.s != "" && Cleaned(fileName.s) == "" ==> title == UnknownTrack
    ensures fileName.JString? && Cleaned(fileName.s) != "" ==> title == Cleaned(fileName.s)
  {
    assert '_' !in UnknownTrack && Trimmed(UnknownTrack) by {
      assert forall k :: 0 <= k < |UnknownTrack| ==> UnknownTrack[k] != '_';
    }
    if !fileName.JString? || fileName.s == "" then UnknownTrack
    else
      var cleaned := Cleaned(fileName.s);
      if |cleaned| > 0 then cleaned else UnknownTrack
  }

  /** A name with neither kind of number keeps everything before its last extension. */
  lemma PlainTitle(base: string, ext: string)
    requires ext != "" && '.' !in ext && base != "" && !IsDigit(base[0])
    ensures Cleaned(base + "." + ext) == Trim(Spaced(base))
  {
    StripLastExtension(base, ext);
    assert LeadingDigits(base) == 0;
  }

  /** A track number and the white space after it go, and so does the extension. */
  lemma TrackNumberTitle(digits: string, gap: string, base: string, ext: string)
    requires digits != "" && AllDigits(digits) && AllSpace(gap)
    requires ext != "" && '.' !in ext && base != "" && !IsDigit(base[0]) && !IsJsSpace(base[0])
    ensures Cleaned(digits + "." + gap + base + "." + ext) == Trim(Spaced(base))
  {
    var name := digits + "." + gap + base;
    assert name + "." + ext == digits + "." + gap + base + "." + ext;
    StripLastExtension(name, ext);
    TrackNumberStripped(digits, gap, base);
  }

  lemma TrackNumberStripped(digits: string, gap: string, base: string)
    requires digits != "" && AllDigits(digits) && AllSpace(gap)
    requires base != "" && !IsDigit(base[0]) && !IsJsSpace(base[0])
    ensures StripTrackIndex(StripDiscIndex(digits + "." + gap + base)) == base
  {
    var name := digits + "." + gap + base;
    assert name[..|digits|] == digits;
    DigitRun(name, |digits|);
    assert StripDiscIndex(name) == name;
    assert name[|digits| + 1..] == gap + base;
    GapSkipped(gap, base);
    assert StripTrackIndex(name) == base;
    assert LeadingDigits(base) == 0;
  }

  /** A disc number such as `01-02.`, with the white space after it, goes too. */
  lemma DiscNumberTitle(disc: string, track: string, gap: string, base: string, ext: string)
    requires disc != "" && AllDigits(disc) && track != "" && AllDigits(track) && AllSpace(gap)
    requires ext != "" && '.' !in ext && base != "" && !IsDigit(base[0]) && !IsJsSpace(base[0])
    ensures Cleaned(disc + "-" + track + "." + gap + base + "." + ext) == Trim(Spaced(base))
  {
    var rest := gap + base;
    var name := disc + "-" + track + "." + rest;
    assert name + "." + ext == disc + "-" + track + "." + gap + base + "." + ext;
    StripLastExtension(name, ext);
    DiscNameShape(disc, track, rest);
    StripDiscIndexAt(name, |disc|, |track|);
    GapSkipped(gap, base);
    assert StripDiscIndex(name) == base;
    assert LeadingDigits(base) == 0;
  }

  lemma DiscNameShape(disc: string, track: string, rest: string)
    requires disc != "" && AllDigits(disc) && track != "" && AllDigits(track)
    ensures var name := disc + "-" + track + "." + rest;
      DiscIndexAt(name, |disc|, |track|) && name[|disc| + |track| + 2..] == rest
  {
    var name := disc + "-" + track + "." + rest;
    var d := |disc|;
    assert name[..d] == disc;
    assert name[d] == '-';
    assert name[d + 1..d + 1 + |track|] == track;
    assert name[d + 1 + |track|] == '.';
    assert name[d + |track| + 2..] == rest;
  }

  lemma GapSkipped(gap: string, base: string)
    requires AllSpace(gap) && base != "" && !IsJsSpace(base[0])
    ensures SkipSpace(gap + base) == base
  {
    var s := gap + base;
    assert s[..|gap|] == gap;
    SpaceRun(s, |gap|);
    assert s[|gap|..] == base;
  }

  // ----- the list -----

  /** `/\.(mp3|wav|ogg)$/i`: the name ends in one of the three extensions, in any case. */
  predicate IsAudioFile(f: string) {
    |f| >= 4 && AsciiLower(f[|f| - 4..]) in [".mp3", ".wav", ".ogg"]
  }

  /** `files.filter(...)`. */
  function AudioFiles(files: seq<string>): (r: seq<string>)
    ensures |r| <= |files|
    ensures forall f :: f in r <==> f in files && IsAudioFile(f)
    decreases |files|
  {
    if |files| == 0 then []
    else
      var rest := AudioFiles(files[1..]);
      assert forall f :: f in files <==> f == files[0] || f in files[1..];
      if IsAudioFile(files[0]) then [files[0]] + rest else rest
  }

  /** The filter keeps order: it works file by file. */
  lemma {:induction false} AudioFilesConcat(a: seq<string>, b: seq<string>)
    ensures AudioFiles(a + b) == AudioFiles(a) + AudioFiles(b)
    decreases |a|
  {
    if |a| > 0 {
      assert (a + b)[1..] == a[1..] + b;
      AudioFilesConcat(a[1..], b);
    } else {
      assert a + b == b;
    }
  }

  /** Filtering the list again changes nothing. */
  lemma {:induction false} AudioFilesIdempotent(files: seq<string>)
    ensures AudioFiles(AudioFiles(files)) == AudioFiles(files)
    decreases |files|
  {
    if |files| > 0 {
      AudioFilesIdempotent(files[1..]);
      var rest := AudioFiles(files[1..]);
      if IsAudioFile(files[0]) {
        assert ([files[0]] + rest)[1..] == rest;
      }
    }
  }

  /** What the directory read found: no directory, a failed read, or the names in it. */
  datatype Listing = NoDirectory | ReadFailed | Files(names: seq<string>)

  datatype Track = Track(file: string, title: string, url: string)

  const MusicPath: string := "/music/soundtrack/"

  /**
   * `getSoundtrackList()`, with `encode` for `encodeURIComponent`: nothing
   * when the directory is missing or cannot be read; otherwise one track per
   * audio file, in directory order, titled by `prettifyTrackName` and served
   * from under `/music/soundtrack/`.
   */
  function SoundtrackList(listing: Listing, encode: string -> string): (tracks: seq<Track>)
    ensures !listing.Files? ==> tracks == []
    ensures listing.Files? ==> |tracks| == |AudioFiles(listing.names)|
    ensures listing.Files? ==> forall i :: 0 <= i < |tracks| ==>
      var f := AudioFiles(listing.names)[i];
      tracks[i] == Track(f, PrettifyTrackName(JString(f)), MusicPath + encode(f))
  {
    match listing
    case Files(names) =>
      var audio := AudioFiles(names);
      seq(|audio|, i requires 0 <= i < |audio| => Track(audio[i], PrettifyTrackName(JString(audio[i])), MusicPath + encode(audio[i])))
    case _ => []
  }

  /** Every listed track is an audio file of the directory, with a readable title. */
  lemma TracksAreAudio(listing: Listing, encode: string -> string)
    ensures forall t :: t in SoundtrackList(listing, encode) ==>
      listing.Files? && t.file in listing.names && IsAudioFile(t.file) && t.title != "" && '_' !in t.title
  {
    var tracks := SoundtrackList(listing, encode);
    forall t | t in tracks
      ensures listing.Files? && t.file in listing.names && IsAudioFile(t.file) && t.title != "" && '_' !in t.title
    {
      var i :| 0 <= i < |tracks| && tracks[i] == t;
      assert AudioFiles(listing.names)[i] in AudioFiles(listing.names);
    }
  }
}
