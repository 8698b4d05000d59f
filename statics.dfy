/**
 * `serveStatic`, as both HTTP servers have it: the URL's pathname is mapped
 * to a file under the public directory, a path that would leave it is
 * refused, a missing file is reported, and a file is sent with the content
 * type its lower-cased extension names. `fs.stat` is an input.
 */
module StaticFiles {
  import opened Wrappers
  import opened Text
  import opened JsObject
  import opened PosixPath
  import opened Http

  // ----- content types -----

  /** The `mimeTypes` table. */
  const MimeTypes: Object<string> := [
    (".html", "text/html; charset=utf-8"),
    (".css", "text/css; charset=utf-8"),
    (".js", "text/javascript; charset=utf-8"),
    (".json", "application/json; charset=utf-8"),
    (".png", "image/png"),
    (".jpg", "image/jpeg"),
    (".jpeg", "image/jpeg"),
    (".svg", "image/svg+xml"),
    (".ttf", "font/ttf"),
    (".otf", "font/otf"),
    (".woff", "font/woff"),
    (".woff2", "font/woff2"),
    (".ttc", "font/collection")
  ]

  const OctetStream: string := "application/octet-stream"

  /** `mimeTypes[ext] || 'application/octet-stream'`. */
  function MimeType(ext: string): string {
    Get(MimeTypes, ext).GetOr(OctetStream)
  }

  /** No key of the table is listed twice. */
  lemma MimeKeysUnique()
    ensures UniqueKeys(MimeTypes)
  {
    forall i, j | 0 <= i < j < |MimeTypes| ensures MimeTypes[i].0 != MimeTypes[j].0 {
      var a, b := MimeTypes[i].0, MimeTypes[j].0;
      assert |a| != |b| || a[1] != b[1] || a[2] != b[2] || a[3] != b[3];
    }
  }

  /**
   * Every extension of the table gets its own entry. No entry is empty or
   * the default, so `||` never replaces a listed one, and the default is
   * given exactly for an extension the table does not list.
   */
  lemma MimeTable(ext: string)
    ensures forall i :: 0 <= i < |MimeTypes| ==> MimeType(MimeTypes[i].0) == MimeTypes[i].1
    ensures MimeType(ext) != ""
    ensures MimeType(ext) == OctetStream <==> ext !in Keys(MimeTypes)
  {
    MimeKeysUnique();
    assert forall i :: 0 <= i < |MimeTypes| ==> MimeTypes[i].1 != "" && MimeTypes[i].1 != OctetStream;
    if ext in Keys(MimeTypes) {
      var i :| 0 <= i < |MimeTypes| && MimeTypes[i].0 == ext;
      assert MimeType(ext) == MimeTypes[i].1;
    }
  }

  /** The content type of a file: the table entry for its lower-cased extension. */
  function ContentType(fullPath: string): string {
    MimeType(AsciiLower(ExtName(fullPath)))
  }

  // ----- the file a pathname names -----

  /** The characters of the stripped leading run, `[.\\/]`. */
  predicate IsRunChar(c: char) {
    c == '.' || c == '\\' || c == '/'
  }

  /** The length of the leading run of `/^([\.\\/]+)/`, 0 when there is none. */
  function LeadingRun(s: string): (k: nat)
    ensures k <= |s| && (forall i :: 0 <= i < k ==> IsRunChar(s[i])) && (k < |s| ==> !IsRunChar(s[k]))
    decreases |s|
  {
    if |s| == 0 || !IsRunChar(s[0]) then 0
    else
      var k := LeadingRun(s[1..]);
      assert forall i :: 1 <= i < k + 1 ==> s[i] == s[1..][i - 1];
      k + 1
  }

  /** `/` and the empty pathname name the index page. */
  function FilePath(pathname: string): (p: string)
    ensures pathname == "/" || pathname == "" ==> p == "/index.html"
    ensures pathname != "/" && pathname != "" ==> p == pathname
  {
    if pathname == "/" || pathname == "" then "/index.html" else pathname
  }

  /**
   * `path.normalize(filePath).replace(/^([\.\\/]+)/, '')`: the normalized
   * path without its leading run of dots, slashes and backslashes, which is
   * a suffix of it that starts with none of them.
   */
  function Relative(pathname: string): (rel: string)
    ensures rel == "" || !IsRunChar(rel[0])
    ensures exists k :: 0 <= k <= |Normalize(FilePath(pathname))| && rel == Normalize(FilePath(pathname))[k..]
  {
    var n := Normalize(FilePath(pathname));
    n[LeadingRun(n)..]
  }

  /** `path.join(publicDir, normalized)`. */
  function FullPath(publicDir: string, pathname: string): string {
    JoinPath(publicDir, Relative(pathname))
  }

  // ----- answering -----

  /** What `fs.stat` finds at a path: nothing (or an error), something that is not a file, or a file. */
  datatype FileKind = NoEntry | NotAFile | RegularFile

  const Forbidden: Response := Response(403, Some("text/plain"), PlainText("Forbidden"))
  const NotFound: Response := Response(404, Some("text/plain"), PlainText("Not found"))

  /**
   * `serveStatic(req, res)` for the public directory `publicDir`: 403 when
   * the joined path does not start with it, 404 when no file is there, and
   * otherwise 200 with the file's content type, the file streamed for GET
   * and nothing for HEAD.
   */
  function ServeStatic(publicDir: string, verb: string, pathname: string, stat: string -> FileKind): (r: Response)
    ensures var full := FullPath(publicDir, pathname);
      && (r == Forbidden <==> !StartsWith(full, publicDir))
      && (r == NotFound <==> StartsWith(full, publicDir) && stat(full) != RegularFile)
      && (r.status == 200 <==> StartsWith(full, publicDir) && stat(full) == RegularFile)
      && (r.status == 200 ==> r.contentType == Some(ContentType(full)))
      && (r.status == 200 && verb == "HEAD" ==> r.body == NoBody)
      && (r.status == 200 && verb != "HEAD" ==> r.body == FileStream(full))
  {
    var full := FullPath(publicDir, pathname);
    if !StartsWith(full, publicDir) then Forbidden
    else if stat(full) != RegularFile then NotFound
    else Response(200, Some(ContentType(full)), if verb == "HEAD" then NoBody else FileStream(full))
  }

  /** A refused path is refused before any lookup: what `fs.stat` would say does not matter. */
  lemma ForbiddenWithoutLookup(publicDir: string, verb: string, pathname: string, stat: string -> FileKind, other: string -> FileKind)
    requires !StartsWith(FullPath(publicDir, pathname), publicDir)
    ensures ServeStatic(publicDir, verb, pathname, stat) == ServeStatic(publicDir, verb, pathname, other) == Forbidden
  {
  }

  /** The stripped path has no `..` piece. */
  lemma RelativeHasNoParent(pathname: string)
    requires pathname == "" || pathname[0] == '/'
    ensures ".." !in Split(Relative(pathname), '/')
  {
    var p := FilePath(pathname);
    var n := Normalize(p);
    NormalizeAbsolute(p);
    NoParentInSuffix(n, LeadingRun(n));
  }

  /** Cutting a string after a run that ends before a piece starting with a dot or slash keeps `..` out. */
  lemma NoParentInSuffix(n: string, k: nat)
    requires k <= |n| && ".." !in Split(n, '/')
    requires k == |n| || !IsRunChar(n[k])
    ensures ".." !in Split(n[k..], '/')
  {
    var rel := n[k..];
    SplitSuffix(n, k);
    var parts := Split(rel, '/');
    assert forall seg :: seg in parts[1..] ==> seg != "..";
    if |rel| > 0 {
      SplitFirst(rel);
    } else {
      assert parts == [""];
    }
    assert parts[0] != "..";
    assert parts == [parts[0]] + parts[1..];
  }

  /**
   * For a public directory that is a normalized absolute path, the 403
   * guard never fires on a pathname as a URL gives it (one that starts
   * with `/`), nor on the empty one: every such request is looked up.
   */
  lemma NeverForbidden(dirs: seq<string>, pathname: string)
    requires AllPlain(dirs)
    requires pathname == "" || pathname[0] == '/'
    ensures StartsWith(FullPath(Root(dirs), pathname), Root(dirs))
  {
    RelativeHasNoParent(pathname);
    JoinInside(dirs, Relative(pathname));
  }

  /** The strip after `normalize` at a plain first segment. */
  lemma RelativeOfPlain(pathname: string, seg: string)
    requires Plain(seg) && FilePath(pathname) == "/" + seg
    ensures Relative(pathname) == seg[LeadingRun(seg)..]
  {
    assert Join([seg], '/') == seg;
    assert Root([seg]) == "/" + seg;
    NormalizeRoot([seg]);
    var n := "/" + seg;
    assert n[1..] == seg;
    assert LeadingRun(n) == 1 + LeadingRun(seg);
    assert n[1 + LeadingRun(seg)..] == seg[LeadingRun(seg)..];
  }

  /** A plain name joined under a normalized absolute directory stays as it is. */
  lemma FileUnder(dirs: seq<string>, name: string)
    requires AllPlain(dirs) && |dirs| > 0 && Plain(name)
    ensures JoinPath(Root(dirs), name) == Root(dirs) + "/" + name
  {
    var whole := dirs + [name];
    AllPlainConcat(dirs, [name]);
    JoinConcat(dirs, [name]);
    var j := Join(dirs, '/');
    assert Join([name], '/') == name;
    assert Root(whole) == "/" + (j + "/" + name);
    assert "/" + (j + "/" + name) == ("/" + j) + "/" + name;
    NormalizeRoot(whole);
    JoinNonEmpty(dirs);
  }

  /** `/` names `index.html` in the public directory. */
  lemma IndexPage(dirs: seq<string>)
    requires AllPlain(dirs) && |dirs| > 0
    ensures FullPath(Root(dirs), "/") == Root(dirs) + "/index.html"
  {
    IndexRelative();
    FileUnder(dirs, "index.html");
  }

  lemma IndexRelative()
    ensures Plain("index.html") && Relative("/") == "index.html"
  {
    var index := "index.html";
    IndexPlain();
    assert FilePath("/") == "/" + index;
    RelativeOfPlain("/", index);
    assert index[0..] == index;
  }

  lemma IndexPlain()
    ensures Plain("index.html") && LeadingRun("index.html") == 0
  {
    var index := "index.html";
    assert index[0] == 'i';
    assert '/' !in index;
  }

  /** The index page is sent as HTML. */
  lemma IndexPageType(dir: string)
    ensures ContentType(dir + "/index.html") == "text/html; charset=utf-8"
  {
    var p := dir + "/index.html";
    assert ExtName(p) == ".html" by {
      assert p == dir + "/" + "index" + "." + "html";
      ExtNameOfFile(dir, "index", "html");
    }
    LowerHtml();
    assert ContentType(p) == MimeType(".html");
    HtmlEntry();
  }

  lemma HtmlEntry()
    ensures MimeType(".html") == "text/html; charset=utf-8"
  {
    MimeKeysUnique();
    assert MimeTypes[0] == (".html", "text/html; charset=utf-8");
  }

  /** The extension is looked up in lower case: `.PNG` is an image. */
  lemma UpperCaseExtension(dir: string, name: string)
    requires '/' !in name && '.' !in name && name != ""
    ensures ContentType(dir + "/" + name + ".PNG") == "image/png"
  {
    var p := dir + "/" + name + ".PNG";
    assert ExtName(p) == ".PNG" by {
      assert p == dir + "/" + name + "." + "PNG";
      ExtNameOfFile(dir, name, "PNG");
    }
    LowerPng();
    assert ContentType(p) == MimeType(".png");
    PngEntry();
  }

  lemma PngEntry()
    ensures MimeType(".png") == "image/png"
  {
    MimeKeysUnique();
    assert MimeTypes[4] == (".png", "image/png");
  }

  lemma LowerPng()
    ensures AsciiLower(".PNG") == ".png"
  {
    var r := AsciiLower(".PNG");
    assert r[0] == '.' && r[1] == 'p' && r[2] == 'n' && r[3] == 'g';
  }

  lemma LowerHtml()
    ensures AsciiLower(".html") == ".html"
  {
    var r := AsciiLower(".html");
    assert r[0] == '.' && r[1] == 'h' && r[2] == 't' && r[3] == 'm' && r[4] == 'l';
  }

  /** A file without an extension is sent as `application/octet-stream`. */
  lemma NoExtension(dir: string, name: string)
    requires '/' !in name && '.' !in name && name != ""
    ensures ContentType(dir + "/" + name) == OctetStream
  {
    var p := dir + "/" + name;
    BaseNameOfFile(dir, name);
    assert LastIndex(name, '.') == None;
    assert ExtName(p) == "";
    assert AsciiLower("") == "";
    assert ContentType(p) == MimeType("");
    NoEntryForEmpty();
  }

  lemma NoEntryForEmpty()
    ensures MimeType("") == OctetStream
  {
    assert Get(MimeTypes, "") == None;
  }

  /**
   * A dot file loses its leading dots in the strip: `/.env` names `env` in
   * the public directory.
   */
  lemma DotFileLosesItsDot()
    ensures Relative("/.env") == "env"
  {
    var seg := ".env";
    assert Plain(seg);
    RelativeOfPlain("/.env", seg);
    assert LeadingRun(seg) == 1 + LeadingRun("env");
    assert seg[1..] == "env";
  }
}
