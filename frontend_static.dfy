/**
 * The static-file helpers of the server: which paths belong to the front
 * end (`isFrontendRoute`), and which file `serveFrontendAsset` answers with,
 * under which `Content-Type` and `Cache-Control`. The distribution root and
 * the file-system test `onDisk` are parameters; a file is named by its path
 * relative to that root.
 */
module FrontendStatic {
  import opened Optional
  import opened JsText

  const IndexFile := "index.html"
  const HtmlType := "text/html; charset=utf-8"
  const OctetStream := "application/octet-stream"
  const NoCache := "no-cache"
  const Immutable := "public, max-age=31536000, immutable"

  /** The extensions `MIME_TYPES` lists. */
  const MimeExtensions: set<string> := {".html", ".js", ".css", ".svg", ".json", ".png", ".jpg", ".jpeg", ".ico"}

  /** `isFrontendRoute`: the empty path, or one outside `api/` and `ws/`. */
  function IsFrontendRoute(pathname: string): (r: bool)
    ensures r <==>
      pathname == "" || (!(|pathname| >= 4 && pathname[..4] == "api/") && !(|pathname| >= 3 && pathname[..3] == "ws/"))
  {
    pathname == "" || (!StartsWith(pathname, "api/") && !StartsWith(pathname, "ws/"))
  }

  /** The server's own routes are never front-end routes. */
  lemma ServerRoutesNotFrontend(rest: string)
    ensures !IsFrontendRoute("api/" + rest) && !IsFrontendRoute("ws/" + rest)
  {
    assert ("api/" + rest)[..4] == "api/";
    assert ("ws/" + rest)[..3] == "ws/";
  }

  /** Only the prefixes with their slash are the server's: "api", "ws" and "apiary" are front-end routes. */
  lemma BareServerNamesAreFrontend()
    ensures IsFrontendRoute("api") && IsFrontendRoute("ws") && IsFrontendRoute("apiary")
  {
    var p := "apiary";
    assert p[..4][3] == 'a' && "api/"[3] == '/';
    assert p[..3][0] == 'a' && "ws/"[0] == 'w';
  }

  /** `pathname.replace(/^\/+/, "")`: the longest run of leading '/' removed. */
  function StripLeadingSlashes(p: string): (r: string)
    ensures |r| <= |p| && r == p[|p| - |r|..]
    ensures forall i :: 0 <= i < |p| - |r| ==> p[i] == '/'
    ensures r == "" || r[0] != '/'
    decreases |p|
  {
    if |p| > 0 && p[0] == '/' then StripLeadingSlashes(p[1..]) else p
  }

  /** The path `serveFrontendAsset` looks up, or `None` when it contains "..". */
  function SafePath(pathname: string): (r: Option<string>)
    ensures r.None? <==> Contains(StripLeadingSlashes(pathname), "..")
    ensures r.Some? ==>
      && r.value != "" && r.value[0] != '/' && !Contains(r.value, "..")
      && (StripLeadingSlashes(pathname) == "" ==> r.value == IndexFile)
      && (StripLeadingSlashes(pathname) != "" ==> r.value == StripLeadingSlashes(pathname))
  {
    IndexFileIsSafe();
    var normalized := StripLeadingSlashes(pathname);
    var safe := if normalized == "" then IndexFile else normalized;
    if Contains(safe, "..") then None else Some(safe)
  }

  /** The run of trailing '/' removed, as `path.extname` skips it. */
  function StripTrailingSlashes(p: string): (r: string)
    ensures r <= p
    ensures r == "" || r[|r| - 1] != '/'
    decreases |p|
  {
    if |p| > 0 && p[|p| - 1] == '/' then StripTrailingSlashes(p[..|p| - 1]) else p
  }

  /** The characters after the last '/'. */
  function AfterLastSlash(p: string): (r: string)
    ensures |r| <= |p| && r == p[|p| - |r|..]
    ensures forall i :: 0 <= i < |r| ==> r[i] != '/'
    ensures |r| < |p| ==> p[|p| - |r| - 1] == '/'
    decreases |p|
  {
    if |p| == 0 || p[|p| - 1] == '/' then "" else AfterLastSlash(p[..|p| - 1]) + [p[|p| - 1]]
  }

  /** The index of the last '.'. */
  function LastDot(s: string): (r: Option<nat>)
    ensures r.Some? ==> r.value < |s| && s[r.value] == '.' && forall j :: r.value < j < |s| ==> s[j] != '.'
    ensures r.None? ==> forall j :: 0 <= j < |s| ==> s[j] != '.'
    decreases |s|
  {
    if |s| == 0 then None
    else if s[|s| - 1] == '.' then Some(|s| - 1)
    else LastDot(s[..|s| - 1])
  }

  /** The extension of a base name: from its last '.', unless that is its first character or the name is "..". */
  function ExtOfBase(base: string): (ext: string)
    ensures ext == "" || (ext[0] == '.' && forall i :: 1 <= i < |ext| ==> ext[i] != '.')
    ensures |ext| <= |base| && ext == base[|base| - |ext|..]
  {
    if base == ".." then ""
    else match LastDot(base)
      case None => ""
      case Some(k) => if k == 0 then "" else base[k..]
  }

  /**
   * `path.extname`: the base name's text from its last '.', or "" when it
   * has no '.', when that '.' is its first character, or when it is "..".
   */
  function ExtName(path: string): (ext: string)
    ensures ext == "" || (ext[0] == '.' && forall i :: 1 <= i < |ext| ==> ext[i] != '.' && ext[i] != '/')
  {
    var base := AfterLastSlash(StripTrailingSlashes(path));
    ExtOfBase(base)
  }

  /** `MIME_TYPES.get(ext) ?? "application/octet-stream"`. */
  function MimeType(ext: string): (mime: string)
    ensures mime == OctetStream <==> ext !in MimeExtensions
  {
    match ext
    case ".html" => HtmlType
    case ".js" => "application/javascript; charset=utf-8"
    case ".css" => "text/css; charset=utf-8"
    case ".svg" => "image/svg+xml"
    case ".json" => "application/json; charset=utf-8"
    case ".png" => "image/png"
    case ".jpg" => "image/jpeg"
    case ".jpeg" => "image/jpeg"
    case ".ico" => "image/x-icon"
    case _ => OctetStream
  }

  /** The `Cache-Control` header of a file that was found. */
  function CacheControl(ext: string): (header: string)
    ensures header == NoCache <==> ext == ".html"
    ensures header == Immutable <==> ext != ".html"
  {
    if ext == ".html" then NoCache else Immutable
  }

  /** The `Response` of a served file: which file, and its two headers. */
  datatype Asset = Asset(file: string, contentType: string, cacheControl: string)

  /**
   * `serveFrontendAsset`: the requested file if it exists, else `index.html`
   * if that exists (the single-page fallback), else `null`; a path with ".."
   * is refused before the file system is asked.
   */
  function ServeFrontendAsset(pathname: string, onDisk: string -> bool): (r: Option<Asset>)
    ensures r.None? <==> SafePath(pathname).None? || (!onDisk(SafePath(pathname).value) && !onDisk(IndexFile))
    ensures r.Some? ==> onDisk(r.value.file)
    ensures r.Some? ==> r.value.file == SafePath(pathname).value || r.value.file == IndexFile
    ensures r.Some? ==> r.value.contentType == MimeType(ExtName(r.value.file))
    ensures r.Some? ==> r.value.cacheControl == CacheControl(ExtName(r.value.file))
  {
    IndexHasHtmlExtension();
    match SafePath(pathname)
    case None => None
    case Some(safe) =>
      if onDisk(safe) then
        var ext := ExtName(safe);
        Some(Asset(safe, MimeType(ext), CacheControl(ext)))
      else if onDisk(IndexFile) then Some(Asset(IndexFile, HtmlType, NoCache))
      else None
  }

  lemma IndexFileIsSafe()
    ensures !Contains(IndexFile, "..")
    ensures IndexFile[0] != '/'
  {
    forall i | 0 <= i <= |IndexFile| - 2
      ensures !OccursAt(IndexFile, "..", i)
    {
      assert IndexFile[i..i + 2][0] == IndexFile[i];
      assert IndexFile[i..i + 2][1] == IndexFile[i + 1];
    }
  }

  /** Stripping leading slashes twice is stripping them once. */
  lemma StripIdempotent(p: string)
    ensures StripLeadingSlashes(StripLeadingSlashes(p)) == StripLeadingSlashes(p)
  {
  }

  /** A path with ".." is never served, whatever exists on disk. */
  lemma DotDotNeverServed(pathname: string, onDisk: string -> bool)
    requires Contains(StripLeadingSlashes(pathname), "..")
    ensures ServeFrontendAsset(pathname, onDisk).None?
  {
  }

  /** Every answer names a file without ".." and without a leading '/'. */
  lemma ServedFileIsSafe(pathname: string, onDisk: string -> bool)
    ensures var r := ServeFrontendAsset(pathname, onDisk);
      r.Some? ==> !Contains(r.value.file, "..") && r.value.file != "" && r.value.file[0] != '/' && onDisk(r.value.file)
  {
    IndexFileIsSafe();
  }

  /** Only `.html` answers are uncached; the fallback is always HTML and uncached. */
  lemma NoCacheIffHtml(pathname: string, onDisk: string -> bool)
    ensures var r := ServeFrontendAsset(pathname, onDisk);
      r.Some? ==> (r.value.cacheControl == NoCache <==> r.value.file == IndexFile || ExtName(r.value.file) == ".html")
  {
    var r := ServeFrontendAsset(pathname, onDisk);
    if r.Some? && r.value.file == IndexFile {
      IndexHasHtmlExtension();
    }
  }

  /** A missing file is answered by `index.html` when that exists. */
  lemma MissingFileFallsBack(pathname: string, onDisk: string -> bool)
    requires SafePath(pathname).Some? && !onDisk(SafePath(pathname).value) && onDisk(IndexFile)
    ensures ServeFrontendAsset(pathname, onDisk) == Some(Asset(IndexFile, HtmlType, NoCache))
  {
  }

  /** The bare root `"/"` serves `index.html` as uncached HTML when it exists. */
  lemma RootServesIndex(onDisk: string -> bool)
    requires onDisk(IndexFile)
    ensures ServeFrontendAsset("/", onDisk) == Some(Asset(IndexFile, HtmlType, NoCache))
  {
    assert "/"[1..] == "";
    assert StripLeadingSlashes("/") == "";
    assert SafePath("/") == Some(IndexFile) by { IndexFileIsSafe(); }
    IndexHasHtmlExtension();
  }

  /** Every character from `k` on being other than '/', the base name covers them. */
  lemma {:induction false} AfterLastSlashCovers(p: string, k: nat)
    requires k <= |p|
    requires forall i :: k <= i < |p| ==> p[i] != '/'
    ensures |AfterLastSlash(p)| >= |p| - k
    decreases |p|
  {
    if |p| > k {
      AfterLastSlashCovers(p[..|p| - 1], k);
    }
  }

  /** A '.' with no '.' after it is the last one. */
  lemma {:induction false} LastDotAt(s: string, k: nat)
    requires k < |s| && s[k] == '.'
    requires forall j :: k < j < |s| ==> s[j] != '.'
    ensures LastDot(s) == Some(k)
    decreases |s|
  {
    if k < |s| - 1 {
      LastDotAt(s[..|s| - 1], k);
    }
  }

  /**
   * A path whose last '.' sits at `k`, after a character other than '/',
   * and is followed by at least one character, none of them '.' or '/', has
   * the extension that starts there.
   */
  lemma ExtensionAt(path: string, k: nat)
    requires 0 < k < |path| - 1 && path[k] == '.' && path[k - 1] != '/'
    requires forall i :: k < i < |path| ==> path[i] != '.' && path[i] != '/'
    ensures ExtName(path) == path[k..]
  {
    assert StripTrailingSlashes(path) == path;
    AfterLastSlashCovers(path, k - 1);
    var base := AfterLastSlash(path);
    var j := |path| - |base|;
    assert j <= k - 1;
    assert base == path[j..];
    LastDotAt(base, k - j);
    assert |base| > 2;
    assert base[k - j..] == path[k..];
  }

  lemma IndexHasHtmlExtension()
    ensures ExtName(IndexFile) == ".html"
  {
    ExtensionAt(IndexFile, 5);
    assert IndexFile[5..] == ".html";
  }

  /** An existing `name.js` is served as JavaScript with the long-lived header. */
  lemma ScriptServedImmutable(stem: string, onDisk: string -> bool)
    requires stem != "" && stem[0] != '/' && stem[|stem| - 1] != '/' && !Contains(stem + ".js", "..")
    requires onDisk(stem + ".js")
    ensures ServeFrontendAsset(stem + ".js", onDisk)
      == Some(Asset(stem + ".js", "application/javascript; charset=utf-8", Immutable))
  {
    var file := stem + ".js";
    ScriptExtension(stem);
    assert file[0] == stem[0];
    assert StripLeadingSlashes(file) == file;
    assert SafePath(file) == Some(file);
    assert MimeType(".js") == "application/javascript; charset=utf-8";
    assert CacheControl(".js") == Immutable;
  }

  /** A name ending in ".js", after a character other than '/', has the extension ".js". */
  lemma ScriptExtension(stem: string)
    requires stem != "" && stem[|stem| - 1] != '/'
    ensures ExtName(stem + ".js") == ".js"
  {
    var file := stem + ".js";
    assert file[|stem|] == '.' && file[|stem| - 1] == stem[|stem| - 1];
    assert file[|stem| + 1] == 'j' && file[|stem| + 2] == 's';
    ExtensionAt(file, |stem|);
    assert file[|stem|..] == ".js";
  }

  /** A file whose extension is not in the table is served as `application/octet-stream`. */
  lemma UnknownExtensionIsOctetStream(pathname: string, onDisk: string -> bool)
    requires SafePath(pathname).Some? && onDisk(SafePath(pathname).value)
    requires ExtName(SafePath(pathname).value) !in MimeExtensions
    ensures ServeFrontendAsset(pathname, onDisk).Some?
    ensures ServeFrontendAsset(pathname, onDisk).value.contentType == OctetStream
    ensures ServeFrontendAsset(pathname, onDisk).value.cacheControl == Immutable
  {
  }
}
