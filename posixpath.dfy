/**
 * Node's POSIX `path.normalize`, `path.join` and `path.extname`, on `/`
 * separated segments. Normalising walks a path's segments with a stack:
 * empty segments and `.` are skipped, `..` pops the last segment (or, in a
 * relative path, is kept when there is nothing to pop), and anything else is
 * pushed. The result keeps a leading `/` and a trailing one.
 */
module PosixPath {
  import opened Wrappers
  import opened Text

  /** A segment that normalising keeps as it is. */
  predicate Plain(seg: string) {
    seg != "" && seg != "." && seg != ".." && '/' !in seg
  }

  predicate AllPlain(segs: seq<string>) {
    forall k :: 0 <= k < |segs| ==> Plain(segs[k])
  }

  predicate NoSlash(segs: seq<string>) {
    forall k :: 0 <= k < |segs| ==> '/' !in segs[k]
  }

  /** One segment of `normalizeString`; `aboveRoot` is set for relative paths. */
  function Step(stack: seq<string>, seg: string, aboveRoot: bool): seq<string> {
    if seg == "" || seg == "." then stack
    else if seg == ".." then
      if |stack| > 0 && stack[|stack| - 1] != ".." then stack[..|stack| - 1]
      else if aboveRoot then stack + [".."]
      else stack
    else stack + [seg]
  }

  /** The segments `segs` walked from `stack`, in order. */
  function Resolve(stack: seq<string>, segs: seq<string>, aboveRoot: bool): seq<string>
    decreases |segs|
  {
    if |segs| == 0 then stack
    else Resolve(Step(stack, segs[0], aboveRoot), segs[1..], aboveRoot)
  }

  /**
   * `path.normalize(p)`: never empty, absolute exactly when `p` is, and
   * keeping a trailing `/`.
   */
  function Normalize(p: string): (r: string)
    ensures |r| > 0
    ensures r[0] == '/' <==> |p| > 0 && p[0] == '/'
    ensures |p| > 0 && p[|p| - 1] == '/' ==> r[|r| - 1] == '/'
  {
    if |p| == 0 then "."
    else
      var absolute := p[0] == '/';
      var trailing := p[|p| - 1] == '/';
      var stack := Resolve([], Split(p, '/'), !absolute);
      SplitNoSlash(p);
      ResolvePieces([], Split(p, '/'), !absolute);
      JoinFirst(stack);
      var body := Join(stack, '/');
      if |body| == 0 then
        if absolute then "/" else if trailing then "./" else "."
      else (if absolute then "/" else "") + body + (if trailing then "/" else "")
  }

  /** `path.join(a, b)`: the non-empty arguments joined by `/`, then normalised. */
  function JoinPath(a: string, b: string): string {
    if |a| == 0 && |b| == 0 then "."
    else if |b| == 0 then Normalize(a)
    else if |a| == 0 then Normalize(b)
    else Normalize(a + "/" + b)
  }

  /** The non-empty arguments of `path.join`, in order. */
  function NonEmptyParts(parts: seq<string>): (kept: seq<string>)
    ensures forall k :: 0 <= k < |kept| ==> kept[k] != ""
    ensures forall x :: x in kept <==> x in parts && x != ""
    decreases |parts|
  {
    if |parts| == 0 then []
    else (if parts[0] == "" then [] else [parts[0]]) + NonEmptyParts(parts[1..])
  }

  /** `path.join(...parts)` for any number of arguments; `.` when all are empty. */
  function JoinAll(parts: seq<string>): string {
    var kept := NonEmptyParts(parts);
    if |kept| == 0 then "." else Normalize(Join(kept, '/'))
  }

  /** The two-argument join is the general one. */
  lemma JoinPathAgrees(a: string, b: string)
    ensures JoinPath(a, b) == JoinAll([a, b])
  {
    assert [a, b][1..] == [b];
    assert [b][1..] == [];
    var kept := NonEmptyParts([a, b]);
    assert NonEmptyParts([b]) == (if b == "" then [] else [b]) + NonEmptyParts([]);
    assert kept == (if a == "" then [] else [a]) + NonEmptyParts([b]);
    if a != "" && b != "" {
      assert kept == [a, b];
      assert Join([a, b], '/') == a + "/" + b by { assert [a, b][1..] == [b]; }
    } else if a != "" {
      assert kept == [a];
    } else if b != "" {
      assert kept == [b];
    }
  }

  /** The absolute directory whose segments are `dirs`. */
  function Root(dirs: seq<string>): string {
    "/" + Join(dirs, '/')
  }

  // ----- the extension -----

  /** Length of `p` without its trailing `/` characters. */
  function TrimSlashes(p: string): (n: nat)
    ensures n <= |p| && (n > 0 ==> p[n - 1] != '/')
    decreases |p|
  {
    if |p| == 0 || p[|p| - 1] != '/' then |p| else TrimSlashes(p[..|p| - 1])
  }

  /** The last index of `c` in `s`. */
  function LastIndex(s: string, c: char): (r: Option<nat>)
    ensures r.Some? ==> r.value < |s| && s[r.value] == c && forall k :: r.value < k < |s| ==> s[k] != c
    ensures r.None? ==> c !in s
    decreases |s|
  {
    if |s| == 0 then None
    else if s[|s| - 1] == c then Some(|s| - 1)
    else
      var r := LastIndex(s[..|s| - 1], c);
      assert forall k :: 0 <= k < |s| - 1 ==> s[..|s| - 1][k] == s[k];
      r
  }

  lemma LastIndexAt(s: string, c: char, i: nat)
    requires i < |s| && s[i] == c && forall k :: i < k < |s| ==> s[k] != c
    ensures LastIndex(s, c) == Some(i)
  {
    assert s[i] in s;
  }

  lemma NoneAfter(s: string, c: char, i: nat)
    requires i < |s| && forall k :: i < k < |s| ==> s[k] != c
    ensures c !in s[i + 1..]
  {
    var t := s[i + 1..];
    forall k | 0 <= k < |t| ensures t[k] != c {
      assert t[k] == s[i + 1 + k];
    }
  }

  /** The last segment of `p`, trailing `/` characters ignored. */
  function BaseName(p: string): (base: string)
    ensures '/' !in base
  {
    var q := p[..TrimSlashes(p)];
    match LastIndex(q, '/')
    case None => q
    case Some(i) =>
      NoneAfter(q, '/', i);
      q[i + 1..]
  }

  /**
   * `path.extname(p)`: from the last `.` of the last segment to its end;
   * empty when the segment has no `.`, when its only one leads it (a dot
   * file), and for `..`.
   */
  function ExtName(p: string): (ext: string)
    ensures ext == "" || (ext[0] == '.' && '/' !in ext)
  {
    var base := BaseName(p);
    match LastIndex(base, '.')
    case None => ""
    case Some(d) =>
      if d == 0 || base == ".." then ""
      else
        assert forall k :: 0 <= k < |base[d..]| ==> base[d..][k] == base[d + k];
        base[d..]
  }

  /** `path.extname` reads the last extension of a file name under a directory. */
  lemma ExtNameOfFile(dir: string, name: string, ext: string)
    requires '/' !in name && '.' !in name && name != "" && '/' !in ext && '.' !in ext
    ensures ExtName(dir + "/" + name + "." + ext) == "." + ext
  {
    var dotExt := "." + ext;
    var tail := name + dotExt;
    assert dir + "/" + name + "." + ext == dir + "/" + tail;
    LastDotOfName(name, ext);
    BaseNameOfFile(dir, tail);
    assert tail != ".." by { assert tail[0] == name[0]; }
    assert tail[|name|..] == dotExt;
  }

  /** In `name.ext` the last `.` is the one after `name`. */
  lemma LastDotOfName(name: string, ext: string)
    requires '/' !in name && '.' !in name && name != "" && '/' !in ext && '.' !in ext
    ensures '/' !in name + ("." + ext)
    ensures LastIndex(name + ("." + ext), '.') == Some(|name|)
  {
    var tail := name + ("." + ext);
    var d := |name|;
    assert forall k :: 0 <= k < |tail| ==> tail[k] == if k < d then name[k] else if k == d then '.' else ext[k - d - 1];
    LastIndexAt(tail, '.', d);
  }

  /** The last segment of a path is what follows its last `/`. */
  lemma BaseNameOfFile(dir: string, tail: string)
    requires '/' !in tail && tail != ""
    ensures BaseName(dir + "/" + tail) == tail
  {
    var p := dir + "/" + tail;
    assert p[|p| - 1] == tail[|tail| - 1];
    assert p[..TrimSlashes(p)] == p;
    var i := |dir|;
    assert p[i] == '/';
    assert forall k :: i < k < |p| ==> p[k] != '/' by {
      forall k | i < k < |p| ensures p[k] != '/' {
        assert p[k] == tail[k - i - 1];
      }
    }
    LastIndexAt(p, '/', i);
    assert p[i + 1..] == tail;
  }

  // ----- splitting and joining -----

  /** Splitting at a separator splits each side. */
  lemma {:induction false} SplitConcat(a: string, b: string)
    ensures Split(a + "/" + b, '/') == Split(a, '/') + Split(b, '/')
    decreases |a|
  {
    if |a| == 0 {
      assert a + "/" + b == "/" + b;
      assert ("/" + b)[1..] == b;
    } else {
      assert (a + "/" + b)[1..] == a[1..] + "/" + b;
      SplitConcat(a[1..], b);
    }
  }

  /** No piece of a split holds the separator. */
  lemma {:induction false} SplitNoSlash(s: string)
    ensures NoSlash(Split(s, '/'))
    decreases |s|
  {
    if |s| > 0 {
      SplitNoSlash(s[1..]);
      var rest := Split(s[1..], '/');
      if s[0] != '/' {
        assert '/' !in [s[0]] + rest[0];
        var parts := Split(s, '/');
        forall k | 0 <= k < |parts| ensures '/' !in parts[k] {
          if k > 0 { assert parts[k] == rest[k]; }
        }
      }
    }
  }

  /** The first piece of a split starts with the string's first character, when that is not `/`. */
  lemma SplitFirst(s: string)
    requires |s| > 0 && s[0] != '/'
    ensures |Split(s, '/')[0]| > 0 && Split(s, '/')[0][0] == s[0]
  {
  }

  /**
   * Every piece but the first of a split of a suffix is a piece, and not the
   * first one, of the split of the whole string.
   */
  lemma {:induction false} SplitSuffix(s: string, k: nat)
    requires k <= |s|
    ensures forall seg :: seg in Split(s[k..], '/')[1..] ==> seg in Split(s, '/')[1..]
    decreases k
  {
    if k > 0 {
      assert s[k..] == s[1..][k - 1..];
      SplitSuffix(s[1..], k - 1);
      var rest := Split(s[1..], '/');
      if s[0] == '/' {
        assert Split(s, '/')[1..] == rest;
      } else {
        assert Split(s, '/')[1..] == rest[1..];
      }
    } else {
      assert s[0..] == s;
    }
  }

  lemma {:induction false} JoinNonEmpty(parts: seq<string>)
    requires |parts| > 0 && AllPlain(parts)
    ensures |Join(parts, '/')| > 0
  {
    if |parts| > 1 {
      assert |parts[0]| > 0;
    }
  }

  /** Joining two non-empty runs of segments puts one `/` between them. */
  lemma {:induction false} JoinConcat(a: seq<string>, b: seq<string>)
    requires |a| > 0 && |b| > 0
    ensures Join(a + b, '/') == Join(a, '/') + "/" + Join(b, '/')
    decreases |a|
  {
    if |a| == 1 {
      assert (a + b)[1..] == b;
    } else {
      assert (a + b)[1..] == a[1..] + b;
      JoinConcat(a[1..], b);
    }
  }

  /** The split of a directory path: a leading empty piece, then its segments (or one more empty piece for `/`). */
  lemma RootSplit(dirs: seq<string>)
    requires AllPlain(dirs)
    ensures Split(Root(dirs), '/') == if |dirs| == 0 then ["", ""] else [""] + dirs
  {
    SplitConcat("", Join(dirs, '/'));
    assert "" + "/" + Join(dirs, '/') == Root(dirs);
    if |dirs| > 0 {
      SplitJoin(dirs, '/');
    }
  }

  // ----- walking the segments -----

  /** Walking two runs of segments is walking the first, then the second. */
  lemma {:induction false} ResolveConcat(stack: seq<string>, a: seq<string>, b: seq<string>, aboveRoot: bool)
    ensures Resolve(stack, a + b, aboveRoot) == Resolve(Resolve(stack, a, aboveRoot), b, aboveRoot)
    decreases |a|
  {
    if |a| == 0 {
      assert a + b == b;
    } else {
      assert (a + b)[1..] == a[1..] + b;
      ResolveConcat(Step(stack, a[0], aboveRoot), a[1..], b, aboveRoot);
    }
  }

  /** The segments that are neither empty nor `.`, in order. */
  function Kept(segs: seq<string>): seq<string>
    decreases |segs|
  {
    if |segs| == 0 then []
    else (if segs[0] == "" || segs[0] == "." then [] else [segs[0]]) + Kept(segs[1..])
  }

  /** Without `..`, walking only pushes: the stack grows by the kept segments. */
  lemma {:induction false} ResolveNoParent(stack: seq<string>, segs: seq<string>, aboveRoot: bool)
    requires ".." !in segs
    ensures Resolve(stack, segs, aboveRoot) == stack + Kept(segs)
    decreases |segs|
  {
    if |segs| > 0 {
      assert ".." !in segs[1..] by {
        assert forall k :: 0 <= k < |segs[1..]| ==> segs[1..][k] == segs[k + 1];
      }
      var kept := if segs[0] == "" || segs[0] == "." then [] else [segs[0]];
      assert Step(stack, segs[0], aboveRoot) == stack + kept;
      ResolveNoParent(stack + kept, segs[1..], aboveRoot);
      assert Kept(segs) == kept + Kept(segs[1..]);
      assert stack + kept + Kept(segs[1..]) == stack + (kept + Kept(segs[1..]));
    }
  }

  /** A non-empty segment without a `/`. */
  predicate Piece(seg: string) {
    seg != "" && '/' !in seg
  }

  predicate AllPieces(segs: seq<string>) {
    forall k :: 0 <= k < |segs| ==> Piece(segs[k])
  }

  /** Whatever the path, its stack only ever holds non-empty segments without `/`. */
  lemma {:induction false} ResolvePieces(stack: seq<string>, segs: seq<string>, aboveRoot: bool)
    requires AllPieces(stack) && NoSlash(segs)
    ensures AllPieces(Resolve(stack, segs, aboveRoot))
    decreases |segs|
  {
    if |segs| > 0 {
      var next := Step(stack, segs[0], aboveRoot);
      assert '/' !in segs[0];
      assert AllPieces(next);
      assert NoSlash(segs[1..]) by {
        assert forall k :: 0 <= k < |segs[1..]| ==> segs[1..][k] == segs[k + 1];
      }
      ResolvePieces(next, segs[1..], aboveRoot);
    }
  }

  /** Joined pieces start with the first piece's first character. */
  lemma JoinFirst(parts: seq<string>)
    requires AllPieces(parts)
    ensures |parts| > 0 ==> |Join(parts, '/')| > 0 && Join(parts, '/')[0] == parts[0][0]
  {
  }

  /** An absolute path's stack only ever holds plain segments. */
  lemma {:induction false} ResolvePlain(stack: seq<string>, segs: seq<string>)
    requires AllPlain(stack) && NoSlash(segs)
    ensures AllPlain(Resolve(stack, segs, false))
    decreases |segs|
  {
    if |segs| > 0 {
      var next := Step(stack, segs[0], false);
      assert '/' !in segs[0];
      assert AllPlain(next);
      assert NoSlash(segs[1..]) by {
        assert forall k :: 0 <= k < |segs[1..]| ==> segs[1..][k] == segs[k + 1];
      }
      ResolvePlain(next, segs[1..]);
    }
  }

  /** A directory path walks to its own segments. */
  lemma RootResolves(dirs: seq<string>)
    requires AllPlain(dirs)
    ensures Resolve([], Split(Root(dirs), '/'), false) == dirs
  {
    RootSplit(dirs);
    if |dirs| == 0 {
      assert ["", ""][1..][1..] == [];
    } else {
      assert ".." !in [""] + dirs;
      ResolveNoParent([], [""] + dirs, false);
      KeptPlain(dirs);
    }
  }

  lemma {:induction false} KeptPlain(segs: seq<string>)
    requires AllPlain(segs)
    ensures Kept(segs) == segs && Kept([""] + segs) == segs
    decreases |segs|
  {
    assert ([""] + segs)[1..] == segs;
    if |segs| > 0 {
      KeptPlain(segs[1..]);
      assert [segs[0]] + segs[1..] == segs;
    }
  }

  /** A directory path is normalised already. */
  lemma NormalizeRoot(dirs: seq<string>)
    requires AllPlain(dirs)
    ensures Normalize(Root(dirs)) == Root(dirs)
  {
    RootResolves(dirs);
    var p := Root(dirs);
    if |dirs| == 0 {
      assert p == "/";
    } else {
      JoinNonEmpty(dirs);
      assert p[|p| - 1] == Join(dirs, '/')[|Join(dirs, '/')| - 1];
      JoinLastPlain(dirs);
    }
  }

  lemma {:induction false} JoinLastPlain(parts: seq<string>)
    requires |parts| > 0 && AllPlain(parts)
    ensures |Join(parts, '/')| > 0 && Join(parts, '/')[|Join(parts, '/')| - 1] != '/'
    decreases |parts|
  {
    JoinNonEmpty(parts);
    if |parts| == 1 {
      assert parts[0][|parts[0]| - 1] in parts[0];
    } else {
      JoinLastPlain(parts[1..]);
      assert AllPlain(parts[1..]) by {
        assert forall k :: 0 <= k < |parts[1..]| ==> parts[1..][k] == parts[k + 1];
      }
    }
  }

  /** No segment of a normalised absolute path is `..`. */
  lemma NormalizeAbsolute(p: string)
    requires |p| > 0 && p[0] == '/'
    ensures ".." !in Split(Normalize(p), '/')
  {
    var stack := Resolve([], Split(p, '/'), false);
    SplitNoSlash(p);
    ResolvePlain([], Split(p, '/'));
    var body := Join(stack, '/');
    var trailing := p[|p| - 1] == '/';
    if |body| == 0 {
      assert Normalize(p) == "/";
      SplitConcat("", "");
    } else {
      assert |stack| > 0;
      SplitConcat("", body);
      assert "" + "/" + body == "/" + body;
      SplitJoin(stack, '/');
      assert Split("/" + body, '/') == [""] + stack;
      assert ".." !in [""] + stack;
      if trailing {
        SplitConcat("/" + body, "");
        assert "/" + body + "/" + "" == "/" + body + "/";
        assert Normalize(p) == "/" + body + "/";
        assert Split(Normalize(p), '/') == [""] + stack + [""];
      } else {
        assert Normalize(p) == "/" + body;
      }
    }
  }

  /** The kept segments of a split without `..` are plain. */
  lemma {:induction false} KeptAllPlain(segs: seq<string>)
    requires NoSlash(segs) && ".." !in segs
    ensures AllPlain(Kept(segs))
    decreases |segs|
  {
    if |segs| > 0 {
      assert NoSlash(segs[1..]) && ".." !in segs[1..] by {
        assert forall k :: 0 <= k < |segs[1..]| ==> segs[1..][k] == segs[k + 1];
      }
      KeptAllPlain(segs[1..]);
      assert '/' !in segs[0];
    }
  }

  /**
   * Joining a directory with a path that has no `..` segment stays inside
   * the directory: the result starts with the directory's own path.
   */
  lemma JoinInside(dirs: seq<string>, rel: string)
    requires AllPlain(dirs) && ".." !in Split(rel, '/')
    ensures StartsWith(JoinPath(Root(dirs), rel), Root(dirs))
  {
    var root := Root(dirs);
    if |rel| == 0 {
      NormalizeRoot(dirs);
      assert root[..|root|] == root;
    } else {
      var joined := root + "/" + rel;
      JoinedStack(dirs, rel);
      var kept := Kept(Split(rel, '/'));
      NormalizeAbsolutePath(joined, dirs + kept);
      var tail := if joined[|joined| - 1] == '/' then "/" else "";
      StackInside(dirs, kept, tail);
    }
  }

  /** The stack of a directory joined with a path without `..`: the directory's segments, then the path's. */
  lemma JoinedStack(dirs: seq<string>, rel: string)
    requires AllPlain(dirs) && ".." !in Split(rel, '/')
    ensures var joined := Root(dirs) + "/" + rel;
      && Resolve([], Split(joined, '/'), false) == dirs + Kept(Split(rel, '/'))
      && AllPlain(dirs + Kept(Split(rel, '/')))
  {
    var root := Root(dirs);
    SplitConcat(root, rel);
    ResolveConcat([], Split(root, '/'), Split(rel, '/'), false);
    RootResolves(dirs);
    ResolveNoParent(dirs, Split(rel, '/'), false);
    SplitNoSlash(rel);
    KeptAllPlain(Split(rel, '/'));
    AllPlainConcat(dirs, Kept(Split(rel, '/')));
  }

  lemma AllPlainConcat(a: seq<string>, b: seq<string>)
    requires AllPlain(a) && AllPlain(b)
    ensures AllPlain(a + b)
  {
    assert forall k :: 0 <= k < |a + b| ==> (a + b)[k] == if k < |a| then a[k] else b[k - |a|];
  }

  /** An absolute path whose stack is plain normalises to `/`, the stack, and its trailing `/`. */
  lemma NormalizeAbsolutePath(p: string, stack: seq<string>)
    requires |p| > 0 && p[0] == '/' && Resolve([], Split(p, '/'), false) == stack && AllPlain(stack)
    ensures Normalize(p) == if |stack| == 0 then "/" else "/" + Join(stack, '/') + (if p[|p| - 1] == '/' then "/" else "")
  {
    if |stack| > 0 {
      JoinNonEmpty(stack);
    }
  }

  /** The normalised path in terms of the stack starts with the directory. */
  lemma StackInside(dirs: seq<string>, kept: seq<string>, tail: string)
    ensures StartsWith(if |dirs + kept| == 0 then "/" else "/" + Join(dirs + kept, '/') + tail, Root(dirs))
  {
    var root := Root(dirs);
    if |dirs| == 0 {
      assert root == "/";
      if |kept| > 0 {
        assert dirs + kept == kept;
        ConcatStartsWith("/", Join(kept, '/') + tail);
        assert "/" + Join(kept, '/') + tail == "/" + (Join(kept, '/') + tail);
      }
    } else if |kept| == 0 {
      assert dirs + kept == dirs;
      ConcatStartsWith(root, tail);
    } else {
      JoinConcat(dirs, kept);
      var rest := "/" + Join(kept, '/') + tail;
      assert "/" + Join(dirs + kept, '/') + tail == root + rest;
      ConcatStartsWith(root, rest);
    }
  }

  lemma ConcatStartsWith(a: string, b: string)
    ensures StartsWith(a + b, a)
  {
    assert (a + b)[..|a|] == a;
  }
}
