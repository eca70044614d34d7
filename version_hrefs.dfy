/**
 * The href rules of one version's pages: links between pages, links to the global
 * stylesheets, and the rewriting of in-version media paths.
 *
 * A version is written either as a separate build (pages in `<out>/<version>`, hrefs computed
 * between real files and given a `./` prefix unless they start with `.`) or inline (pages in
 * `<out>/<version>/static`, asset hrefs computed between logical paths inside the version,
 * with `./` for the page's own directory). Either way, following an href from the page's
 * directory leads to its target: see `PageHrefLeadsToTarget`, `GlobalAssetLeadsToTarget` and
 * `MediaHrefLeadsToTarget`.
 */
module VersionHrefs {
  import opened Wrappers
  import opened Text
  import opened Paths

  /** Where a version is written and how. */
  datatype Layout = Layout(
    separateBuild: bool,
    /** The working directory `path.posix.relative` resolves logical paths against. */
    cwd: Path,
    outDir: Path,
    staticAssetsDir: Path,
    version: string)
  {
    /** `<out>/<version>`. */
    function VersionBaseDir(): Path
    {
      Resolve(outDir, version)
    }

    /** Where the pages go: the version directory in a separate build, its `static` subdirectory otherwise. */
    function SiteOutDir(): Path
    {
      if separateBuild then VersionBaseDir() else VersionBaseDir() + ["static"]
    }

    /** The file a page is written to, given its path inside the site. */
    function PagePath(pageRel: Path): Path
    {
      ResolveSegments(SiteOutDir(), pageRel)
    }
  }

  /** A path every segment of which is a plain name without `/`. */
  predicate Plain(p: Path)
  {
    Normalised(p) && SlashFree(p)
  }

  // ---------------------------------------------------------------------------
  // Page links

  /** `makeHrefResolver(pagePath)`: the target page relative to this page's directory, with `./` unless it starts with `.`. */
  function PageHref(l: Layout, pageRel: Path, targetRel: Path): (r: string)
    ensures r != "" && r[0] == '.'
  {
    DotPrefixed(Posix(Relative(Dirname(l.PagePath(pageRel)), ResolveSegments(l.SiteOutDir(), targetRel))))
  }

  /** The resolver a page's templates receive. */
  function HrefResolverFor(l: Layout, pageRel: Path): Path -> string
  {
    targetRel => PageHref(l, pageRel, targetRel)
  }

  /** Following a page link from the page's directory reaches the target page. */
  lemma PageHrefLeadsToTarget(l: Layout, pageRel: Path, targetRel: Path)
    requires Plain(l.outDir) && IsName(l.version) && '/' !in l.version && Plain(targetRel)
    ensures Resolve(Dirname(l.PagePath(pageRel)), PageHref(l, pageRel, targetRel)) == l.SiteOutDir() + targetRel
  {
    SiteOutDirPlain(l);
    ResolveNames(l.SiteOutDir(), targetRel);
    DotPrefixedRoundTrip(Dirname(l.PagePath(pageRel)), l.SiteOutDir() + targetRel);
  }

  /** The version's directories are plain paths when the output directory and version id are. */
  lemma SiteOutDirPlain(l: Layout)
    requires Plain(l.outDir) && IsName(l.version) && '/' !in l.version
    ensures l.VersionBaseDir() == l.outDir + [l.version]
    ensures Plain(l.SiteOutDir())
  {
    SplitFree(l.version, '/');
    assert l.VersionBaseDir() == ResolveSegments(l.outDir, [l.version]);
    ResolveNames(l.outDir, [l.version]);
  }

  // ---------------------------------------------------------------------------
  // Logical hrefs (inline mode)

  /** The page's directory as a logical path: `posix.dirname`, with `.` read as the empty string. */
  function LogicalDir(pageRel: Path): string
  {
    Posix(Dirname(pageRel))
  }

  /** `toLogicalHref(target)`: the posix-relative path from the page's logical directory, `./` when it is empty. */
  function ToLogicalHref(l: Layout, pageRel: Path, target: string): (r: string)
    ensures r != ""
  {
    var rel := Posix(Relative(Resolve(l.cwd, LogicalDir(pageRel)), Resolve(l.cwd, target)));
    if rel == "" then "./" else rel
  }

  /** Following a logical href from the page's logical directory reaches the logical target. */
  lemma LogicalHrefLeadsToTarget(l: Layout, pageRel: Path, target: string)
    requires Plain(l.cwd)
    ensures Resolve(Resolve(l.cwd, LogicalDir(pageRel)), ToLogicalHref(l, pageRel, target)) == Resolve(l.cwd, target)
  {
    ResolveSlashFree(l.cwd, target);
    LogicalRoundTrip(Resolve(l.cwd, LogicalDir(pageRel)), Resolve(l.cwd, target));
  }

  // ---------------------------------------------------------------------------
  // Global stylesheets

  /** `resolveGlobalAssetHref(fileName)`: under `static-styles/` inline, under the static assets directory otherwise. */
  function GlobalAssetHref(l: Layout, pageRel: Path, fileName: string): (r: string)
    ensures r != ""
    ensures l.separateBuild ==> r[0] == '.'
  {
    if !l.separateBuild then ToLogicalHref(l, pageRel, "static-styles/" + fileName)
    else DotPrefixed(Posix(Relative(Dirname(l.PagePath(pageRel)), Resolve(l.staticAssetsDir, fileName))))
  }

  /**
   * The stylesheet href reaches `static-styles/<file>` inside the version (inline) or the file
   * in the static assets directory (separate build).
   */
  lemma GlobalAssetLeadsToTarget(l: Layout, pageRel: Path, fileName: string)
    requires Plain(l.cwd) && Plain(l.staticAssetsDir) && IsName(fileName) && '/' !in fileName
    ensures !l.separateBuild ==>
      Resolve(Resolve(l.cwd, LogicalDir(pageRel)), GlobalAssetHref(l, pageRel, fileName)) == l.cwd + ["static-styles", fileName]
    ensures l.separateBuild ==>
      Resolve(Dirname(l.PagePath(pageRel)), GlobalAssetHref(l, pageRel, fileName)) == l.staticAssetsDir + [fileName]
  {
    SplitFree(fileName, '/');
    if !l.separateBuild {
      LogicalHrefLeadsToTarget(l, pageRel, "static-styles/" + fileName);
      assert "static-styles/" + fileName == "static-styles" + ['/'] + fileName;
      SplitAfter("static-styles", fileName, '/');
      ResolveNames(l.cwd, ["static-styles", fileName]);
    } else {
      ResolveNames(l.staticAssetsDir, [fileName]);
      DotPrefixedRoundTrip(Dirname(l.PagePath(pageRel)), l.staticAssetsDir + [fileName]);
    }
  }

  /** The extra stylesheets every page links after `site.css`, in this order. */
  const ExtraStylesheets: seq<string> := ["prism-tomorrow.css", "static-code-block.css", "static-carousel.css", "static-compare.css"]

  /** `Array.from(new Set(xs))`: the first occurrence of each value, in order. */
  function Dedupe(xs: seq<string>): (r: seq<string>)
    ensures forall x :: x in r <==> x in xs
    ensures forall i, j :: 0 <= i < j < |r| ==> r[i] != r[j]
  {
    if xs == [] then []
    else
      var init := Dedupe(xs[..|xs| - 1]);
      assert forall x :: x in xs <==> x in xs[..|xs| - 1] || x == xs[|xs| - 1];
      if xs[|xs| - 1] in init then init else init + [xs[|xs| - 1]]
  }

  /** A list without repeats is its own deduplication. */
  lemma {:induction false} DedupeDistinct(xs: seq<string>)
    requires forall i, j :: 0 <= i < j < |xs| ==> xs[i] != xs[j]
    ensures Dedupe(xs) == xs
  {
    if xs != [] {
      var init := xs[..|xs| - 1];
      DedupeDistinct(init);
      assert xs[|xs| - 1] !in init;
      assert init + [xs[|xs| - 1]] == xs;
    }
  }

  /** The stylesheets of a page: `site.css`, then the deduplicated extras. */
  datatype PageStyles = PageStyles(stylesheet: string, additional: seq<string>)

  /** The hrefs of the extra stylesheets, before deduplication. */
  function ExtraHrefs(l: Layout, pageRel: Path): (r: seq<string>)
    ensures |r| == |ExtraStylesheets|
    ensures forall i :: 0 <= i < |r| ==> r[i] == GlobalAssetHref(l, pageRel, ExtraStylesheets[i])
  {
    seq(|ExtraStylesheets|, i requires 0 <= i < |ExtraStylesheets| => GlobalAssetHref(l, pageRel, ExtraStylesheets[i]))
  }

  /** The stylesheet part of `computeAssets(pagePath, pageRelative)`. */
  function StylesFor(l: Layout, pageRel: Path): PageStyles
  {
    PageStyles(GlobalAssetHref(l, pageRel, "site.css"), Dedupe(ExtraHrefs(l, pageRel)))
  }

  /** The extra stylesheet names are distinct single path segments. */
  lemma ExtrasAreDistinctNames()
    ensures forall i :: 0 <= i < |ExtraStylesheets| ==> IsName(ExtraStylesheets[i]) && '/' !in ExtraStylesheets[i]
    ensures forall i, j :: 0 <= i < j < |ExtraStylesheets| ==> ExtraStylesheets[i] != ExtraStylesheets[j]
  {
    forall i | 0 <= i < |ExtraStylesheets|
      ensures IsName(ExtraStylesheets[i]) && '/' !in ExtraStylesheets[i]
    {
    }
  }

  /** Two different stylesheet names get two different hrefs on the same page. */
  lemma GlobalAssetHrefInjective(l: Layout, pageRel: Path, a: string, b: string)
    requires Plain(l.cwd) && Plain(l.staticAssetsDir)
    requires IsName(a) && '/' !in a && IsName(b) && '/' !in b && a != b
    ensures GlobalAssetHref(l, pageRel, a) != GlobalAssetHref(l, pageRel, b)
  {
    GlobalAssetLeadsToTarget(l, pageRel, a);
    GlobalAssetLeadsToTarget(l, pageRel, b);
    if !l.separateBuild {
      assert (l.cwd + ["static-styles", a])[|l.cwd| + 1] == a;
      assert (l.cwd + ["static-styles", b])[|l.cwd| + 1] == b;
    } else {
      assert (l.staticAssetsDir + [a])[|l.staticAssetsDir|] == a;
      assert (l.staticAssetsDir + [b])[|l.staticAssetsDir|] == b;
    }
  }

  /** Distinct targets give distinct hrefs, so every page links all four extra stylesheets, in order. */
  lemma AllExtrasLinked(l: Layout, pageRel: Path)
    requires Plain(l.cwd) && Plain(l.staticAssetsDir)
    ensures StylesFor(l, pageRel).additional == ExtraHrefs(l, pageRel)
  {
    var hrefs := ExtraHrefs(l, pageRel);
    ExtrasAreDistinctNames();
    forall i, j | 0 <= i < j < |hrefs|
      ensures hrefs[i] != hrefs[j]
    {
      GlobalAssetHrefInjective(l, pageRel, ExtraStylesheets[i], ExtraStylesheets[j]);
    }
    DedupeDistinct(hrefs);
  }

  // ---------------------------------------------------------------------------
  // Media paths

  /** What `^/?SST-Docs/data/([^/]+)/(.+)$` captures: the version id and the path inside the version. */
  datatype MediaMatch = MediaMatch(versionId: string, insideVersion: string)

  /** The fixed part of the pattern, lower-cased (the pattern is case-insensitive). */
  const MediaPrefix := "sst-docs/data/"

  /** The characters `.` does not match. */
  predicate IsLineTerminator(ch: char)
  {
    ch == '\n' || ch == '\r' || ch == '\U{2028}' || ch == '\U{2029}'
  }

  /** The index of the first occurrence of `c`. */
  function IndexOf(s: string, c: char): (r: Option<nat>)
    ensures r.None? <==> c !in s
    ensures r.Some? ==> r.value < |s| && s[r.value] == c && c !in s[..r.value]
  {
    if s == [] then None
    else if s[0] == c then Some(0)
    else match IndexOf(s[1..], c)
      case None => None
      case Some(k) =>
        assert s[..k + 1] == [s[0]] + s[1..][..k];
        Some(k + 1)
  }

  /** `c` at `k` with no earlier `c`: the first occurrence is at `k`. */
  lemma {:induction false} IndexOfFirst(s: string, c: char, k: nat)
    requires k < |s| && s[k] == c && c !in s[..k]
    ensures IndexOf(s, c) == Some(k)
  {
    if k > 0 {
      assert s[..k][0] == s[0];
      assert s[1..][..k - 1] == s[..k][1..];
      IndexOfFirst(s[1..], c, k - 1);
    }
  }

  /** The part after the prefix: the version id up to the first `/`, then a non-empty rest without line terminators. */
  function MatchAfterPrefix(rest: string): (r: Option<MediaMatch>)
    ensures r.Some? ==>
      var m := r.value;
      m.versionId != "" && '/' !in m.versionId && m.insideVersion != ""
      && (forall i :: 0 <= i < |m.insideVersion| ==> !IsLineTerminator(m.insideVersion[i]))
      && rest == m.versionId + "/" + m.insideVersion
  {
    match IndexOf(rest, '/')
    case None => None
    case Some(p) =>
      var inside := rest[p + 1..];
      if p == 0 || inside == [] || exists i :: 0 <= i < |inside| && IsLineTerminator(inside[i]) then None
      else
        assert rest == rest[..p] + "/" + inside;
        Some(MediaMatch(rest[..p], inside))
  }

  /** Whether a path names a media file of some version, and which. */
  function MatchMediaPath(s: string): (r: Option<MediaMatch>)
    ensures r.Some? ==>
      var m := r.value;
      m.versionId != "" && '/' !in m.versionId && m.insideVersion != ""
      && (forall i :: 0 <= i < |m.insideVersion| ==> !IsLineTerminator(m.insideVersion[i]))
  {
    var t := if s != [] && s[0] == '/' then s[1..] else s;
    if |t| < |MediaPrefix| || ToLower(t[..|MediaPrefix|]) != MediaPrefix then None
    else MatchAfterPrefix(t[|MediaPrefix|..])
  }

  /** A version id, `/`, and a path inside the version split back into those two parts. */
  lemma AfterPrefixMatches(versionId: string, inside: string)
    requires versionId != "" && '/' !in versionId && inside != ""
    requires forall i :: 0 <= i < |inside| ==> !IsLineTerminator(inside[i])
    ensures MatchAfterPrefix(versionId + "/" + inside) == Some(MediaMatch(versionId, inside))
  {
    var rest := versionId + "/" + inside;
    assert rest[..|versionId|] == versionId;
    IndexOfFirst(rest, '/', |versionId|);
    assert rest[|versionId| + 1..] == inside;
  }

  /** After a leading `/` and any spelling of the prefix, matching continues with the rest. */
  lemma PrefixStripped(w: string, rest: string)
    requires |w| == |MediaPrefix| && ToLower(w) == MediaPrefix
    ensures MatchMediaPath("/" + w + rest) == MatchAfterPrefix(rest)
  {
    SlashPrefixSplits(w, rest);
    var s := "/" + w + rest;
    assert s[0] == '/';
    var t := s[1..];
    assert t[..|MediaPrefix|] == w;
  }

  /** `"/" + w + rest` without its first character splits back into `w` and `rest`. */
  lemma SlashPrefixSplits(w: string, rest: string)
    ensures var t := ("/" + w + rest)[1..];
      t == w + rest && t[..|w|] == w && t[|w|..] == rest
  {
    assert ("/" + w + rest)[1..] == w + rest;
  }

  /**
   * Every in-version media path matches with its parts, whatever the case of the prefix;
   * `PrefixLowers` shows the data loader's `/SST-Docs/data/` is one such spelling.
   */
  lemma MediaPathMatches(w: string, versionId: string, inside: string)
    requires |w| == |MediaPrefix| && ToLower(w) == MediaPrefix
    requires versionId != "" && '/' !in versionId && inside != ""
    requires forall i :: 0 <= i < |inside| ==> !IsLineTerminator(inside[i])
    ensures MatchMediaPath("/" + w + (versionId + "/" + inside)) == Some(MediaMatch(versionId, inside))
  {
    PrefixStripped(w, versionId + "/" + inside);
    AfterPrefixMatches(versionId, inside);
  }

  /** The prefix as the data loader writes it lower-cases to the pattern's. */
  lemma PrefixLowers()
    ensures ToLower("SST-Docs/data/") == MediaPrefix
  {
    var w := "SST-Docs/data/";
    assert forall i :: 0 <= i < |w| ==> LowerChar(w[i]) == MediaPrefix[i];
  }

  /** A match decomposes the path: optional `/`, the prefix in any case, the version id, `/`, the rest. */
  lemma MatchDecomposes(s: string)
    requires MatchMediaPath(s).Some?
    ensures var m := MatchMediaPath(s).value;
      var t := if s[0] == '/' then s[1..] else s;
      ToLower(t[..|MediaPrefix|]) == MediaPrefix && t[|MediaPrefix|..] == m.versionId + "/" + m.insideVersion
  {
  }

  /** `'\\'` becomes `/`. */
  function ReplaceBackslashes(s: string): (r: string)
    ensures |r| == |s|
    ensures forall i :: 0 <= i < |s| ==> r[i] == (if s[i] == '\\' then '/' else s[i])
  {
    if s == [] then [] else [if s[0] == '\\' then '/' else s[0]] + ReplaceBackslashes(s[1..])
  }

  /**
   * `resolveAssetHref(original)`: a media path of this version is rewritten relative to the
   * page; anything else, including media of another version, is returned unchanged.
   */
  function ResolveAssetHref(l: Layout, pageRel: Path, original: string): (r: string)
    ensures MatchMediaPath(original).None? ==> r == original
    ensures MatchMediaPath(original).Some? && MatchMediaPath(original).value.versionId != l.version ==> r == original
  {
    match MatchMediaPath(original)
    case None => original
    case Some(m) =>
      if m.versionId != l.version then original
      else if !l.separateBuild then ToLogicalHref(l, pageRel, ReplaceBackslashes(m.insideVersion))
      else DotPrefixed(Posix(Relative(Dirname(l.PagePath(pageRel)), Resolve(Resolve(l.outDir, m.versionId), m.insideVersion))))
  }

  /**
   * A rewritten media href reaches the file inside the version: from the page's logical
   * directory inline, from the page's real directory in a separate build.
   */
  lemma MediaHrefLeadsToTarget(l: Layout, pageRel: Path, original: string)
    requires Plain(l.cwd) && Plain(l.outDir)
    requires MatchMediaPath(original).Some? && MatchMediaPath(original).value.versionId == l.version
    ensures var inside := MatchMediaPath(original).value.insideVersion;
      var href := ResolveAssetHref(l, pageRel, original);
      (!l.separateBuild ==> Resolve(Resolve(l.cwd, LogicalDir(pageRel)), href) == Resolve(l.cwd, ReplaceBackslashes(inside)))
      && (l.separateBuild ==> Resolve(Dirname(l.PagePath(pageRel)), href) == Resolve(l.VersionBaseDir(), inside))
  {
    var m := MatchMediaPath(original).value;
    if !l.separateBuild {
      LogicalHrefLeadsToTarget(l, pageRel, ReplaceBackslashes(m.insideVersion));
    } else {
      var target := Resolve(l.VersionBaseDir(), m.insideVersion);
      ResolveSlashFree(l.outDir, l.version);
      ResolveSlashFree(l.VersionBaseDir(), m.insideVersion);
      DotPrefixedRoundTrip(Dirname(l.PagePath(pageRel)), target);
    }
  }
}
