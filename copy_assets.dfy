/**
 * The asset copier of a version (`copyAssets.ts`): which in-version media paths the content
 * references, which stylesheet is copied and how its font URLs are rewritten, which files the
 * assets manifest lists, and which media files a separate build copies where.
 */
module CopyAssets {
  import opened Wrappers
  import opened Text
  import opened Paths
  import opened Docs
  import VersionHrefs
  import VersionRender

  // ---------------------------------------------------------------------------
  // File names

  const StylesheetTarget := "site.css"
  const AssetSourceDir := "dist/assets"
  const PrismThemeSource := "node_modules/prismjs/themes/prism-tomorrow.css"
  const PrismThemeTarget := "prism-tomorrow.css"
  const CodeTabsTarget := "static-code-block.css"
  const CarouselStyleTarget := "static-carousel.css"
  const CompareStyleTarget := "static-compare.css"
  const KatexPrefix := "KaTeX_"
  const AssetsManifestName := "assets-manifest.json"

  // ---------------------------------------------------------------------------
  // stripProtocol and normalizePublicPath

  predicate IsAsciiLetter(ch: char)
  {
    'a' <= ch <= 'z' || 'A' <= ch <= 'Z'
  }

  /** The length of the run of ASCII letters `s` starts with. */
  function LeadingLetters(s: string): (n: nat)
    ensures n <= |s|
    ensures forall i :: 0 <= i < n ==> IsAsciiLetter(s[i])
    ensures n < |s| ==> !IsAsciiLetter(s[n])
  {
    if s != [] && IsAsciiLetter(s[0]) then 1 + LeadingLetters(s[1..]) else 0
  }

  /** The length of the run of characters other than `/` that `s` starts with. */
  function HostLength(s: string): (n: nat)
    ensures n <= |s|
    ensures forall i :: 0 <= i < n ==> s[i] != '/'
    ensures n < |s| ==> s[n] == '/'
  {
    if s != [] && s[0] != '/' then 1 + HostLength(s[1..]) else 0
  }

  /** Whether `s` starts with `scheme://host` (`/^[a-z]+:\/\/[^/]+/i`), and how long that start is. */
  function ProtocolLength(s: string): (n: nat)
    ensures n <= |s|
  {
    var k := LeadingLetters(s);
    if 0 < k && k + 3 < |s| && s[k] == ':' && s[k + 1] == '/' && s[k + 2] == '/' && s[k + 3] != '/' then
      k + 3 + HostLength(s[k + 3..])
    else 0
  }

  /** `stripProtocol(value)`: the leading `scheme://host`, if any, removed. */
  function StripProtocol(s: string): (r: string)
    ensures |r| <= |s| && r == s[|s| - |r|..]
    ensures r != s ==> r == [] || r[0] == '/'
  {
    s[ProtocolLength(s)..]
  }

  /** A string that is empty or starts with `/` has no protocol to strip. */
  lemma StripProtocolRooted(s: string)
    requires s == [] || s[0] == '/'
    ensures StripProtocol(s) == s
  {
  }

  /** Stripping twice is stripping once. */
  lemma StripProtocolIdempotent(s: string)
    ensures StripProtocol(StripProtocol(s)) == StripProtocol(s)
  {
    var r := StripProtocol(s);
    if r != s {
      StripProtocolRooted(r);
    } else {
      assert StripProtocol(r) == StripProtocol(s);
    }
  }

  /** A run of letters followed by a non-letter is counted exactly. */
  lemma {:induction false} LeadingLettersOf(letters: string, tail: string)
    requires forall i :: 0 <= i < |letters| ==> IsAsciiLetter(letters[i])
    requires tail != [] && !IsAsciiLetter(tail[0])
    ensures LeadingLetters(letters + tail) == |letters|
  {
    if letters != [] {
      assert (letters + tail)[1..] == letters[1..] + tail;
      LeadingLettersOf(letters[1..], tail);
    } else {
      assert letters + tail == tail;
    }
  }

  /** A host without `/` followed by nothing or by `/` is measured exactly. */
  lemma {:induction false} HostLengthOf(host: string, rest: string)
    requires '/' !in host
    requires rest == [] || rest[0] == '/'
    ensures HostLength(host + rest) == |host|
  {
    if host != [] {
      assert (host + rest)[1..] == host[1..] + rest;
      assert host[0] in host;
      HostLengthOf(host[1..], rest);
    } else {
      assert host + rest == rest;
    }
  }

  /** `scheme://host/path` loses exactly `scheme://host`. */
  lemma StripProtocolUrl(scheme: string, host: string, rest: string)
    requires scheme != [] && forall i :: 0 <= i < |scheme| ==> IsAsciiLetter(scheme[i])
    requires host != [] && '/' !in host
    requires rest == [] || rest[0] == '/'
    ensures StripProtocol(scheme + "://" + host + rest) == rest
  {
    var s := scheme + "://" + host + rest;
    var k := |scheme|;
    assert s == scheme + ("://" + host + rest);
    LeadingLettersOf(scheme, "://" + host + rest);
    assert s[k] == ':' && s[k + 1] == '/' && s[k + 2] == '/';
    assert s[k + 3..] == host + rest;
    assert host[0] in host;
    HostLengthOf(host, rest);
    assert s[k + 3 + |host|..] == rest;
  }

  /** `normalizePublicPath(value)`: the leading and trailing slashes removed, absent read as empty. */
  function NormalizePublicPath(value: Option<string>): (r: string)
  {
    StripSlashes(if value.Some? then value.value else "")
  }

  /** The normalised path neither starts nor ends with `/`, and is empty exactly for a run of slashes. */
  lemma NormalizePublicPathTrimmed(value: Option<string>)
    ensures var r := NormalizePublicPath(value);
      (r != "" ==> r[0] != '/' && r[|r| - 1] != '/')
      && (r == "" <==> value.None? || SlashesOnly(value.value))
  {
    var s := if value.Some? then value.value else "";
    StripSlashesTrimmed(s);
    StripSlashesEmpty(s);
  }

  // ---------------------------------------------------------------------------
  // matchMediaPath

  /** The non-empty `/`-separated segments of a string (`split("/").filter(Boolean)`). */
  function Segments(s: string): (r: seq<string>)
    ensures forall i :: 0 <= i < |r| ==> r[i] != "" && '/' !in r[i]
  {
    var pieces := Split(s, '/');
    SplitPiecesFree(s, '/');
    NonEmptyMembers(pieces);
    var r := NonEmpty(pieces);
    assert forall i :: 0 <= i < |r| ==> r[i] in pieces;
    r
  }

  /** The segments of a value once its protocol and leading slashes are gone. */
  function PathParts(value: string): seq<string>
  {
    Segments(StripLeadingSlashes(StripProtocol(value)))
  }

  /** The segments that begin every in-version path: the public base, the product if any, the version. */
  function VersionPrefix(entry: VersionRenderEntry, publicBase: string): (p: seq<string>)
    ensures |p| > 0
  {
    PrefixAfter(Segments(NormalizePublicPath(Some(publicBase))), entry)
  }

  /** The base segments followed by the product, if any, and the version. */
  function PrefixAfter(base: seq<string>, entry: VersionRenderEntry): seq<string>
  {
    base + (if entry.product.Some? then [entry.product.value.product] else []) + [entry.version.version]
  }

  /** When `parts` begins with `prefix`, the rest of the parts joined with `/`. */
  function AfterPrefix(parts: seq<string>, prefix: seq<string>): Option<string>
  {
    if |prefix| <= |parts| && parts[..|prefix|] == prefix then Some(Join(parts[|prefix|..], "/")) else None
  }

  /**
   * `matchMediaPath(value, entry, publicBase)`: when the value's segments begin with the
   * version's prefix, the remaining segments joined with `/`; nothing otherwise.
   */
  function InsideVersion(value: string, entry: VersionRenderEntry, publicBase: string): Option<string>
  {
    AfterPrefix(PathParts(value), VersionPrefix(entry, publicBase))
  }

  /** A difference at a position of the prefix rules out a match. */
  lemma MismatchAt(parts: seq<string>, prefix: seq<string>, i: nat)
    requires i < |prefix| && (i >= |parts| || parts[i] != prefix[i])
    ensures AfterPrefix(parts, prefix).None?
  {
    if |prefix| <= |parts| {
      assert parts[..|prefix|][i] != prefix[i];
    }
  }

  /** Agreement at every position of the prefix is a match. */
  lemma AgreesThroughout(parts: seq<string>, prefix: seq<string>)
    requires |prefix| <= |parts| && forall k :: 0 <= k < |prefix| ==> parts[k] == prefix[k]
    ensures AfterPrefix(parts, prefix) == Some(Join(parts[|prefix|..], "/"))
  {
    assert parts[..|prefix|] == prefix;
  }

  /** Where the base segments, the product and the version sit in the prefix. */
  lemma PrefixAfterAt(base: seq<string>, entry: VersionRenderEntry)
    ensures var p := PrefixAfter(base, entry);
      && |p| == |base| + (if entry.product.Some? then 2 else 1)
      && (forall k :: 0 <= k < |base| ==> p[k] == base[k])
      && (entry.product.Some? ==> p[|base|] == entry.product.value.product)
      && p[|p| - 1] == entry.version.version
  {
  }

  /** `matchMediaPath`: the walk over the base segments, then the product and the version. */
  method MatchMediaPath(value: string, entry: VersionRenderEntry, publicBase: string) returns (r: Option<string>)
    ensures r == InsideVersion(value, entry, publicBase)
  {
    var cleaned := StripLeadingSlashes(StripProtocol(value));
    var baseSegments := Segments(NormalizePublicPath(Some(publicBase)));
    var parts := Segments(cleaned);
    r := MatchParts(parts, baseSegments, entry);
  }

  /** The comparisons of `matchMediaPath` on the segments of the value and of the public base. */
  method MatchParts(parts: seq<string>, baseSegments: seq<string>, entry: VersionRenderEntry) returns (r: Option<string>)
    ensures r == AfterPrefix(parts, PrefixAfter(baseSegments, entry))
  {
    ghost var prefix := PrefixAfter(baseSegments, entry);
    PrefixAfterAt(baseSegments, entry);
    for i := 0 to |baseSegments|
      invariant i <= |parts| && forall k :: 0 <= k < i ==> parts[k] == baseSegments[k]
    {
      if i >= |parts| || parts[i] != baseSegments[i] {
        MismatchAt(parts, prefix, i);
        return None;
      }
    }
    var index := |baseSegments|;
    if entry.product.Some? {
      if index >= |parts| || parts[index] != entry.product.value.product {
        MismatchAt(parts, prefix, index);
        return None;
      }
      index := index + 1;
    }
    assert index == |prefix| - 1;
    if index >= |parts| || parts[index] != entry.version.version {
      MismatchAt(parts, prefix, index);
      return None;
    }
    index := index + 1;
    assert forall k :: 0 <= k < |prefix| ==> parts[k] == prefix[k];
    AgreesThroughout(parts, prefix);
    return Some(Join(parts[index..], "/"));
  }

  /** The segments of a join of non-empty, slash-free segments are those segments. */
  lemma SegmentsOfJoin(segs: seq<string>)
    requires forall i :: 0 <= i < |segs| ==> segs[i] != "" && '/' !in segs[i]
    ensures Segments(Join(segs, "/")) == segs
  {
    if segs == [] {
      assert Split("", '/') == [""];
    } else {
      JoinSplit(segs, '/');
      NonEmptyAll(segs);
    }
  }

  /** Dropping empty strings from a list without any changes nothing. */
  lemma {:induction false} NonEmptyAll(xs: seq<string>)
    requires forall i :: 0 <= i < |xs| ==> xs[i] != ""
    ensures NonEmpty(xs) == xs
  {
    if xs != [] {
      NonEmptyAll(xs[1..]);
    }
  }

  /** A join of segments that starts with a non-empty, slash-free one does not start with `/`. */
  lemma JoinStartsWithSegment(segs: seq<string>)
    requires segs != [] && segs[0] != "" && '/' !in segs[0]
    ensures var j := Join(segs, "/"); j != [] && j[0] == segs[0][0]
  {
    if |segs| > 1 {
      assert Join(segs, "/") == segs[0] + ("/" + Join(segs[1..], "/"));
    }
  }

  /** A rooted join of non-empty, slash-free segments has those segments as its parts. */
  lemma RootedJoinParts(segs: seq<string>)
    requires segs != [] && forall i :: 0 <= i < |segs| ==> segs[i] != "" && '/' !in segs[i]
    ensures PathParts("/" + Join(segs, "/")) == segs
  {
    var j := Join(segs, "/");
    JoinStartsWithSegment(segs);
    StripProtocolRooted("/" + j);
    StripOneSlash(j);
    SegmentsOfJoin(segs);
  }

  /** One leading slash before text that does not start with one is stripped. */
  lemma StripOneSlash(j: string)
    requires j != [] && j[0] != '/'
    ensures StripLeadingSlashes("/" + j) == j
  {
    assert ("/" + j)[1..] == j;
  }

  /** A rooted join of a prefix and further segments is matched by the prefix, leaving the rest. */
  lemma AfterPrefixRoundTrip(prefix: seq<string>, inside: seq<string>)
    requires prefix != [] && forall i :: 0 <= i < |prefix| ==> prefix[i] != "" && '/' !in prefix[i]
    requires forall i :: 0 <= i < |inside| ==> inside[i] != "" && '/' !in inside[i]
    ensures AfterPrefix(PathParts("/" + Join(prefix + inside, "/")), prefix) == Some(Join(inside, "/"))
  {
    var segs := prefix + inside;
    assert forall i :: 0 <= i < |segs| ==> segs[i] != "" && '/' !in segs[i];
    RootedJoinParts(segs);
    AgreesThroughout(segs, prefix);
    assert segs[|prefix|..] == inside;
  }

  /** The version's prefix is made of non-empty, slash-free segments when its names are. */
  lemma VersionPrefixSegments(entry: VersionRenderEntry, publicBase: string)
    requires entry.version.version != "" && '/' !in entry.version.version
    requires entry.product.Some? ==> entry.product.value.product != "" && '/' !in entry.product.value.product
    ensures var p := VersionPrefix(entry, publicBase);
      forall i :: 0 <= i < |p| ==> p[i] != "" && '/' !in p[i]
  {
  }

  /**
   * A rooted path made of the version's prefix and further segments matches, giving back those
   * segments joined with `/`.
   */
  lemma MatchRoundTrip(entry: VersionRenderEntry, publicBase: string, inside: seq<string>)
    requires entry.version.version != "" && '/' !in entry.version.version
    requires entry.product.Some? ==> entry.product.value.product != "" && '/' !in entry.product.value.product
    requires forall i :: 0 <= i < |inside| ==> inside[i] != "" && '/' !in inside[i]
    ensures InsideVersion("/" + Join(VersionPrefix(entry, publicBase) + inside, "/"), entry, publicBase)
            == Some(Join(inside, "/"))
  {
    VersionPrefixSegments(entry, publicBase);
    AfterPrefixRoundTrip(VersionPrefix(entry, publicBase), inside);
  }

  /** A full URL matches as its path does: the host is ignored, whatever it is. */
  lemma MatchIgnoresHost(scheme: string, host: string, path: string, entry: VersionRenderEntry, publicBase: string)
    requires scheme != [] && forall i :: 0 <= i < |scheme| ==> IsAsciiLetter(scheme[i])
    requires host != [] && '/' !in host
    requires path == [] || path[0] == '/'
    ensures InsideVersion(scheme + "://" + host + path, entry, publicBase) == InsideVersion(path, entry, publicBase)
  {
    StripProtocolUrl(scheme, host, path);
    StripProtocolRooted(path);
  }

  /** Every path `matchMediaPath` yields is relative: it does not start with `/`. */
  lemma InsideVersionRelative(value: string, entry: VersionRenderEntry, publicBase: string)
    ensures var r := InsideVersion(value, entry, publicBase); r.Some? && r.value != "" ==> r.value[0] != '/'
  {
    var parts := PathParts(value);
    var prefix := VersionPrefix(entry, publicBase);
    if |prefix| < |parts| && parts[..|prefix|] == prefix {
      JoinStartsWithSegment(parts[|prefix|..]);
    }
  }

  // ---------------------------------------------------------------------------
  // collectMediaPathsFromValue and collectMediaPaths

  /** A JSON value, as the content files hold it; an object is the list of its values. */
  datatype Json =
    | JNull
    | JBool(b: bool)
    | JNumber(n: real)
    | JString(s: string)
    | JArray(items: seq<Json>)
    | JObject(values: seq<Json>)

  /** `path.normalize` of a relative POSIX path: `.` and empty segments dropped, `..` climbs while it can. */
  function NormalizeRelative(p: string): (r: string)
    ensures r != ""
  {
    var segs := Collapse(Split(p, '/'));
    if segs == [] then "." else
      assert segs[0] != "";
      Join(segs, "/")
  }

  /** The segment stack after `segs`, as `path.normalize` builds it for a relative path. */
  function Collapse(segs: seq<string>): (r: seq<string>)
    ensures forall i :: 0 <= i < |r| ==> r[i] != "" && r[i] != "."
  {
    if segs == [] then []
    else
      var acc := Collapse(segs[..|segs| - 1]);
      var seg := segs[|segs| - 1];
      if seg == "" || seg == "." then acc
      else if seg == ".." then
        (if acc != [] && acc[|acc| - 1] != ".." then acc[..|acc| - 1] else acc + [".."])
      else acc + [seg]
  }

  /** `.replace(/^[\\/]+/, "")`: the leading run of slashes and backslashes removed. */
  function StripLeadingSeparators(s: string): (r: string)
    ensures r != [] ==> r[0] != '/' && r[0] != '\\'
  {
    if s != [] && (s[0] == '/' || s[0] == '\\') then StripLeadingSeparators(s[1..]) else s
  }

  /** The path a string adds to the set: its non-empty in-version part, normalised. */
  function MediaPathOf(s: string, entry: VersionRenderEntry, publicBase: string): Option<string>
  {
    var inside := InsideVersion(s, entry, publicBase);
    if inside.Some? && inside.value != "" then Some(StripLeadingSeparators(NormalizeRelative(inside.value)))
    else None
  }

  /** The paths `collectMediaPathsFromValue` adds for `v`, in the order it adds them. */
  function Found(v: Json, entry: VersionRenderEntry, publicBase: string): seq<string>
    decreases v, 1
  {
    match v
    case JString(s) =>
      if s == "" then []
      else (var m := MediaPathOf(s, entry, publicBase); if m.Some? then [m.value] else [])
    case JArray(items) => FoundAll(items, entry, publicBase)
    case JObject(values) => FoundAll(values, entry, publicBase)
    case _ => []
  }

  /** The paths added for each of `vs`, one after the other. */
  function FoundAll(vs: seq<Json>, entry: VersionRenderEntry, publicBase: string): seq<string>
    decreases vs, 0
  {
    if vs == [] then [] else FoundAll(vs[..|vs| - 1], entry, publicBase) + Found(vs[|vs| - 1], entry, publicBase)
  }

  /** The non-empty strings in `v`, wherever they sit, in document order. */
  function Strings(v: Json): seq<string>
    decreases v, 1
  {
    match v
    case JString(s) => if s == "" then [] else [s]
    case JArray(items) => StringsAll(items)
    case JObject(values) => StringsAll(values)
    case _ => []
  }

  function StringsAll(vs: seq<Json>): seq<string>
    decreases vs, 0
  {
    if vs == [] then [] else StringsAll(vs[..|vs| - 1]) + Strings(vs[|vs| - 1])
  }

  /** The media paths of a list of strings, in order. */
  function MediaPathsOf(ss: seq<string>, entry: VersionRenderEntry, publicBase: string): seq<string>
  {
    if ss == [] then []
    else
      var m := MediaPathOf(ss[|ss| - 1], entry, publicBase);
      MediaPathsOf(ss[..|ss| - 1], entry, publicBase) + (if m.Some? then [m.value] else [])
  }

  /** Matching distributes over concatenation. */
  lemma {:induction false} MediaPathsOfAppend(a: seq<string>, b: seq<string>, entry: VersionRenderEntry, publicBase: string)
    ensures MediaPathsOf(a + b, entry, publicBase) == MediaPathsOf(a, entry, publicBase) + MediaPathsOf(b, entry, publicBase)
    decreases |b|
  {
    if b != [] {
      assert (a + b)[..|a + b| - 1] == a + b[..|b| - 1];
      assert (a + b)[|a + b| - 1] == b[|b| - 1];
      MediaPathsOfAppend(a, b[..|b| - 1], entry, publicBase);
    } else {
      assert a + b == a;
    }
  }

  /**
   * The walk adds exactly the media paths of the value's non-empty strings, in document order:
   * numbers, booleans and null add nothing, and strings outside the version add nothing.
   */
  lemma {:induction false} FoundIsMatchedStrings(v: Json, entry: VersionRenderEntry, publicBase: string)
    ensures Found(v, entry, publicBase) == MediaPathsOf(Strings(v), entry, publicBase)
    decreases v, 1
  {
    match v
    case JString(s) =>
      if s != "" {
        assert MediaPathsOf([s], entry, publicBase) == MediaPathsOf([], entry, publicBase) + MediaPathsOf([s], entry, publicBase);
      }
    case JArray(items) => FoundAllIsMatchedStrings(items, entry, publicBase);
    case JObject(values) => FoundAllIsMatchedStrings(values, entry, publicBase);
    case _ =>
  }

  lemma {:induction false} FoundAllIsMatchedStrings(vs: seq<Json>, entry: VersionRenderEntry, publicBase: string)
    ensures FoundAll(vs, entry, publicBase) == MediaPathsOf(StringsAll(vs), entry, publicBase)
    decreases vs, 0
  {
    if vs != [] {
      FoundAllIsMatchedStrings(vs[..|vs| - 1], entry, publicBase);
      FoundIsMatchedStrings(vs[|vs| - 1], entry, publicBase);
      MediaPathsOfAppend(StringsAll(vs[..|vs| - 1]), Strings(vs[|vs| - 1]), entry, publicBase);
    }
  }

  /** Every collected path comes from a string of the value that matched the version. */
  lemma {:induction false} MediaPathsOfSource(ss: seq<string>, entry: VersionRenderEntry, publicBase: string, x: string)
    requires x in MediaPathsOf(ss, entry, publicBase)
    ensures exists i :: 0 <= i < |ss| && MediaPathOf(ss[i], entry, publicBase) == Some(x)
  {
    var init := ss[..|ss| - 1];
    if x in MediaPathsOf(init, entry, publicBase) {
      MediaPathsOfSource(init, entry, publicBase, x);
      var i :| 0 <= i < |init| && MediaPathOf(init[i], entry, publicBase) == Some(x);
      assert ss[i] == init[i];
    } else {
      assert MediaPathOf(ss[|ss| - 1], entry, publicBase) == Some(x);
    }
  }

  /** A string the walk collects is one that matches the version. */
  lemma {:induction false} MediaPathsOfHas(ss: seq<string>, entry: VersionRenderEntry, publicBase: string, i: nat)
    requires i < |ss| && MediaPathOf(ss[i], entry, publicBase).Some?
    ensures MediaPathOf(ss[i], entry, publicBase).value in MediaPathsOf(ss, entry, publicBase)
  {
    if i < |ss| - 1 {
      MediaPathsOfHas(ss[..|ss| - 1], entry, publicBase, i);
    }
  }

  /** Walking two lists one after the other finds the paths of each in turn. */
  lemma {:induction false} FoundAllAppend(a: seq<Json>, b: seq<Json>, entry: VersionRenderEntry, publicBase: string)
    ensures FoundAll(a + b, entry, publicBase) == FoundAll(a, entry, publicBase) + FoundAll(b, entry, publicBase)
    decreases |b|
  {
    if b == [] {
      assert a + b == a;
    } else {
      assert (a + b)[..|a + b| - 1] == a + b[..|b| - 1];
      assert (a + b)[|a + b| - 1] == b[|b| - 1];
      FoundAllAppend(a, b[..|b| - 1], entry, publicBase);
    }
  }

  // ---------------------------------------------------------------------------
  // The content records as JSON values

  function StringJson(o: Option<string>): Json
  {
    if o.Some? then JString(o.value) else JNull
  }

  function IntJson(o: Option<int>): Json
  {
    if o.Some? then JNumber(o.value as real) else JNull
  }

  function RealJson(o: Option<real>): Json
  {
    if o.Some? then JNumber(o.value) else JNull
  }

  function StringsJson(xs: seq<string>): Json
  {
    JArray(seq(|xs|, i requires 0 <= i < |xs| => JString(xs[i])))
  }

  function ImageJson(o: Option<Image>): Json
  {
    if o.Some? then JObject([StringJson(o.value.src), StringJson(o.value.alt)]) else JNull
  }

  function ImagesJson(o: Option<seq<Image>>): Json
  {
    if o.Some? then JArray(seq(|o.value|, i requires 0 <= i < |o.value| => ImageJson(Some(o.value[i])))) else JNull
  }

  function CellJson(c: TableCell): Json
  {
    JObject([StringJson(c.content), JBool(c.isHeader), StringJson(c.scope)])
  }

  function RowsJson(o: Option<seq<seq<TableCell>>>): Json
  {
    if o.Some? then
      JArray(seq(|o.value|, i requires 0 <= i < |o.value| =>
        JArray(seq(|o.value[i]|, j requires 0 <= j < |o.value[i]| => CellJson(o.value[i][j])))))
    else JNull
  }

  function SectionsJson(o: Option<seq<CodeSection>>): Json
  {
    if o.Some? then
      JArray(seq(|o.value|, i requires 0 <= i < |o.value| =>
        JObject([StringJson(o.value[i].language), StringJson(o.value[i].content), StringJson(o.value[i].filename)])))
    else JNull
  }

  function DatasetsJson(o: Option<seq<Dataset>>): Json
  {
    if o.Some? then
      JArray(seq(|o.value|, i requires 0 <= i < |o.value| =>
        JObject([StringJson(o.value[i].datasetLabel),
                 JArray(seq(|o.value[i].values|, j requires 0 <= j < |o.value[i].values| => JNumber(o.value[i].values[j])))])))
    else JNull
  }

  function ImageListJson(d: ImageListData): Json
  {
    JObject([ImagesJson(d.images), RealJson(d.scale), StringJson(d.alignment)])
  }

  /** The values of a block's data record, each record an object. */
  function DataJson(c: Content): seq<Json>
  {
    [ if c.titleData.None? then JNull else
        var d := c.titleData.value;
        JObject([StringJson(d.text), IntJson(d.level), StringJson(d.alignment), JBool(d.underline),
                 JBool(d.enableAnchorLink), StringJson(d.spacing)]),
      if c.textData.None? then JNull else
        var d := c.textData.value;
        JObject([StringJson(d.text), StringJson(d.alignment), StringJson(d.spacing)]),
      if c.listData.None? then JNull else
        var d := c.listData.value;
        JObject([if d.items.Some? then StringsJson(d.items.value) else JNull, StringJson(d.alignment),
                 StringJson(d.listType), JBool(d.inside), IntJson(d.startNumber), StringJson(d.ariaLabel)]),
      if c.dividerData.None? then JNull else
        var d := c.dividerData.value;
        JObject([StringJson(d.dividerType), StringJson(d.text), StringJson(d.spacing)]),
      if c.messageBoxData.None? then JNull else
        var d := c.messageBoxData.value;
        JObject([StringJson(d.text), StringJson(d.boxType), StringJson(d.size), StringJson(d.spacing)]),
      if c.tableData.None? then JNull else
        var d := c.tableData.value;
        JObject([RowsJson(d.rows), StringJson(d.tableType)]),
      if c.codeData.None? then JNull else
        var d := c.codeData.value;
        JObject([SectionsJson(d.sections), StringJson(d.content), StringJson(d.language), StringJson(d.name),
                 if d.showLineNumbers.Some? then JBool(d.showLineNumbers.value) else JNull, JBool(d.wrapLines)]),
      if c.mathData.None? then JNull else
        var d := c.mathData.value;
        JObject([StringJson(d.expression), StringJson(d.alignment)]),
      if c.audioData.None? then JNull else
        var d := c.audioData.value;
        JObject([StringJson(d.src), StringJson(d.mimeType), StringJson(d.caption)]),
      if c.imageData.None? then JNull else
        var d := c.imageData.value;
        JObject([ImageJson(d.image), RealJson(d.scale), StringJson(d.alignment)]),
      if c.imageGridData.None? then JNull else ImageListJson(c.imageGridData.value),
      if c.imageCarouselData.None? then JNull else ImageListJson(c.imageCarouselData.value),
      if c.imageCompareData.None? then JNull else
        var d := c.imageCompareData.value;
        JObject([ImageJson(d.beforeImage), ImageJson(d.afterImage), RealJson(d.scale), StringJson(d.alignment),
                 StringJson(d.compareType), JBool(d.showPercentage)]),
      if c.youtubeData.None? then JNull else
        var d := c.youtubeData.value;
        JObject([StringJson(d.youtubeVideoId), StringJson(d.alignment), RealJson(d.scale), StringJson(d.caption)]),
      if c.chartData.None? then JNull else
        var d := c.chartData.value;
        JObject([StringJson(d.chartType), StringJson(d.title), StringsJson(d.labels), DatasetsJson(d.datasets),
                 StringJson(d.alignment), RealJson(d.scale)])
    ]
  }

  /** A content block as the object the content file holds. */
  function ContentJson(c: Content): Json
  {
    JObject([StringJson(c.blockType), StringJson(c.spacing)] + DataJson(c))
  }

  function ContentsJson(cs: seq<Content>): Json
  {
    JArray(seq(|cs|, i requires 0 <= i < |cs| => ContentJson(cs[i])))
  }

  /** The `content` of each document. */
  function DocValues(docs: seq<DocItem>): seq<Json>
  {
    seq(|docs|, i requires 0 <= i < |docs| => ContentsJson(docs[i].content))
  }

  /** The `content` of each top-level category; an absent one is `undefined`. */
  function CategoryValues(tree: seq<Category>): seq<Json>
  {
    seq(|tree|, i requires 0 <= i < |tree| =>
      if tree[i].content.Some? then ContentsJson(tree[i].content.value) else JNull)
  }

  /** The values `collectMediaPaths` walks: the items, the top-level categories, the standalone documents. */
  function ScannedValues(entry: VersionRenderEntry): seq<Json>
  {
    DocValues(entry.items) + CategoryValues(entry.tree) + DocValues(entry.standaloneDocs)
  }

  /** The set `collectMediaPaths` builds, in insertion order. */
  function CollectedPaths(entry: VersionRenderEntry, publicBase: string): seq<string>
  {
    VersionHrefs.Dedupe(FoundAll(ScannedValues(entry), entry, publicBase))
  }

  /**
   * A path is collected exactly when some non-empty string of the scanned content lies inside
   * the version and normalises to it; each path is collected once.
   */
  lemma CollectedPathsMeaning(entry: VersionRenderEntry, publicBase: string, x: string)
    ensures var ss := StringsAll(ScannedValues(entry));
      x in CollectedPaths(entry, publicBase) <==>
        exists i :: 0 <= i < |ss| && MediaPathOf(ss[i], entry, publicBase) == Some(x)
    ensures var r := CollectedPaths(entry, publicBase); forall i, j :: 0 <= i < j < |r| ==> r[i] != r[j]
  {
    var vs := ScannedValues(entry);
    var ss := StringsAll(vs);
    FoundAllIsMatchedStrings(vs, entry, publicBase);
    if x in CollectedPaths(entry, publicBase) {
      MediaPathsOfSource(ss, entry, publicBase, x);
    }
    if exists i :: 0 <= i < |ss| && MediaPathOf(ss[i], entry, publicBase) == Some(x) {
      var i :| 0 <= i < |ss| && MediaPathOf(ss[i], entry, publicBase) == Some(x);
      MediaPathsOfHas(ss, entry, publicBase, i);
    }
  }

  /**
   * Only the top-level categories' own content is scanned: replacing their documents and
   * children leaves the collected paths as they were.
   */
  lemma TopLevelContentOnly(entry: VersionRenderEntry, tree: seq<Category>, publicBase: string)
    requires |tree| == |entry.tree|
    requires forall i :: 0 <= i < |tree| ==> tree[i].content == entry.tree[i].content
    ensures CollectedPaths(entry.(tree := tree), publicBase) == CollectedPaths(entry, publicBase)
  {
    assert CategoryValues(tree) == CategoryValues(entry.tree);
    assert ScannedValues(entry.(tree := tree)) == ScannedValues(entry);
    assert VersionPrefix(entry.(tree := tree), publicBase) == VersionPrefix(entry, publicBase);
    FoundAllSameVersion(ScannedValues(entry), entry, entry.(tree := tree), publicBase);
  }

  /** The walk only looks at the entry's product and version. */
  lemma {:induction false} FoundAllSameVersion(vs: seq<Json>, e1: VersionRenderEntry, e2: VersionRenderEntry, publicBase: string)
    requires e1.product == e2.product && e1.version == e2.version
    ensures FoundAll(vs, e1, publicBase) == FoundAll(vs, e2, publicBase)
    decreases vs, 0
  {
    if vs != [] {
      FoundAllSameVersion(vs[..|vs| - 1], e1, e2, publicBase);
      FoundSameVersion(vs[|vs| - 1], e1, e2, publicBase);
    }
  }

  lemma {:induction false} FoundSameVersion(v: Json, e1: VersionRenderEntry, e2: VersionRenderEntry, publicBase: string)
    requires e1.product == e2.product && e1.version == e2.version
    ensures Found(v, e1, publicBase) == Found(v, e2, publicBase)
    decreases v, 1
  {
    match v
    case JString(s) => assert VersionPrefix(e1, publicBase) == VersionPrefix(e2, publicBase);
    case JArray(items) => FoundAllSameVersion(items, e1, e2, publicBase);
    case JObject(values) => FoundAllSameVersion(values, e1, e2, publicBase);
    case _ =>
  }

  /** The set of paths `collectMediaPaths` fills while it walks the content. */
  class MediaCollector {
    /** The set's members, in insertion order. */
    var paths: seq<string>
    /** Every path handed to `add`, repeats included. */
    ghost var added: seq<string>

    ghost predicate Valid()
      reads this
    {
      paths == VersionHrefs.Dedupe(added)
    }

    constructor()
      ensures Valid() && added == [] && paths == []
    {
      paths := [];
      added := [];
    }

    /** `paths.add(p)`. */
    method Add(p: string)
      requires Valid()
      modifies this
      ensures Valid() && added == old(added) + [p]
    {
      assert (added + [p])[..|added + [p]| - 1] == added;
      if p !in paths {
        paths := paths + [p];
      }
      added := added + [p];
    }

    /** `collectMediaPathsFromValue(value, paths, entry, publicBase)`. */
    method CollectFromValue(v: Json, entry: VersionRenderEntry, publicBase: string)
      requires Valid()
      modifies this
      ensures Valid() && added == old(added) + Found(v, entry, publicBase)
      decreases v, 1
    {
      match v
      case JString(s) =>
        if s != "" {
          var insideVersion := MatchMediaPath(s, entry, publicBase);
          if insideVersion.Some? && insideVersion.value != "" {
            Add(StripLeadingSeparators(NormalizeRelative(insideVersion.value)));
          }
        }
      case JArray(items) => CollectAll(items, entry, publicBase);
      case JObject(values) => CollectAll(values, entry, publicBase);
      case _ =>
    }

    /** The `forEach` over an array's items or an object's values. */
    method CollectAll(vs: seq<Json>, entry: VersionRenderEntry, publicBase: string)
      requires Valid()
      modifies this
      ensures Valid() && added == old(added) + FoundAll(vs, entry, publicBase)
      decreases vs, 0
    {
      for i := 0 to |vs|
        invariant Valid() && added == old(added) + FoundAll(vs[..i], entry, publicBase)
      {
        assert vs[..i + 1][..i] == vs[..i];
        CollectFromValue(vs[i], entry, publicBase);
      }
      assert vs[..|vs|] == vs;
    }
  }

  /** `collectMediaPaths(entry, publicBase)`, the set's members in insertion order. */
  method CollectMediaPaths(entry: VersionRenderEntry, publicBase: string) returns (r: seq<string>)
    ensures r == CollectedPaths(entry, publicBase)
  {
    var items, tree, standalone := DocValues(entry.items), CategoryValues(entry.tree), DocValues(entry.standaloneDocs);
    var collector := new MediaCollector();
    collector.CollectAll(items, entry, publicBase);
    assert collector.added == FoundAll(items, entry, publicBase);
    collector.CollectAll(tree, entry, publicBase);
    FoundAllAppend(items, tree, entry, publicBase);
    assert collector.added == FoundAll(items + tree, entry, publicBase);
    collector.CollectAll(standalone, entry, publicBase);
    FoundAllAppend(items + tree, standalone, entry, publicBase);
    assert collector.added == FoundAll(ScannedValues(entry), entry, publicBase);
    r := collector.paths;
  }

  // ---------------------------------------------------------------------------
  // The sorted media list of copyVersionAssets

  /** `.replace(/\\/g, "/")`. */
  function ReplaceBackslashes(s: string): (r: string)
    ensures |r| == |s| && '\\' !in r
    ensures forall i :: 0 <= i < |s| && s[i] != '\\' ==> r[i] == s[i]
  {
    seq(|s|, i requires 0 <= i < |s| => if s[i] == '\\' then '/' else s[i])
  }

  /** A string without backslashes is left as it is. */
  lemma ReplaceBackslashesFixed(s: string)
    requires '\\' !in s
    ensures ReplaceBackslashes(s) == s
  {
  }

  function ReplaceAll(xs: seq<string>): (r: seq<string>)
    ensures |r| == |xs| && forall i :: 0 <= i < |xs| ==> r[i] == ReplaceBackslashes(xs[i])
  {
    seq(|xs|, i requires 0 <= i < |xs| => ReplaceBackslashes(xs[i]))
  }

  /** The media list `copyVersionAssets` returns: the collected paths with `/` separators, sorted. */
  function MediaPathList(entry: VersionRenderEntry, publicBase: string): seq<string>
  {
    VersionRender.SortStrings(ReplaceAll(CollectedPaths(entry, publicBase)))
  }

  /**
   * The media list is in ascending order and holds each collected path, separators turned to
   * `/`, as often as it was collected; paths without backslashes appear once each.
   */
  lemma MediaPathListMeaning(entry: VersionRenderEntry, publicBase: string)
    ensures var r := MediaPathList(entry, publicBase);
      VersionRender.Ascending(r) && multiset(r) == multiset(ReplaceAll(CollectedPaths(entry, publicBase)))
    ensures var c := CollectedPaths(entry, publicBase);
      (forall p :: p in c ==> '\\' !in p) ==> MediaPathList(entry, publicBase) == VersionRender.SortStrings(c)
  {
    var c := CollectedPaths(entry, publicBase);
    if forall p :: p in c ==> '\\' !in p {
      forall i | 0 <= i < |c| ensures ReplaceAll(c)[i] == c[i] {
        ReplaceBackslashesFixed(c[i]);
      }
      assert ReplaceAll(c) == c;
    }
  }

  /** The mediaPaths part of `copyVersionAssets`. */
  method MediaPaths(entry: VersionRenderEntry, publicBase: string) returns (r: seq<string>)
    ensures r == MediaPathList(entry, publicBase)
  {
    var found := CollectMediaPaths(entry, publicBase);
    var replaced := [];
    for i := 0 to |found|
      invariant replaced == ReplaceAll(found[..i])
    {
      replaced := replaced + [ReplaceBackslashes(found[i])];
    }
    assert found[..|found|] == found;
    r := VersionRender.SortStrings(replaced);
  }

  // ---------------------------------------------------------------------------
  // locateStylesheetSource

  /** A directory entry as `readdir` lists it. */
  datatype DirEntry = DirEntry(name: string, isFile: bool)

  /** The names of the files ending in `.css` (case-sensitively), in listing order. */
  function CssFiles(entries: seq<DirEntry>): (r: seq<string>)
    ensures forall i :: 0 <= i < |r| ==> EndsWith(r[i], ".css")
    ensures forall n :: n in r <==> exists e :: e in entries && e.isFile && EndsWith(e.name, ".css") && e.name == n
  {
    if entries == [] then []
    else
      var init := CssFiles(entries[..|entries| - 1]);
      var e := entries[|entries| - 1];
      assert forall x :: x in entries <==> x in entries[..|entries| - 1] || x == e;
      if e.isFile && EndsWith(e.name, ".css") then init + [e.name] else init
  }

  /** A line terminator, which `.` in a regular expression does not match. */
  predicate IsLineTerminator(ch: char)
  {
    ch == '\n' || ch == '\r' || ch == '\U{2028}' || ch == '\U{2029}'
  }

  /** `s` and `t` agree up to ASCII case (the `i` flag outside Unicode mode). */
  predicate SameUpToCase(s: string, t: string)
  {
    |s| == |t| && forall i :: 0 <= i < |s| ==> LowerChar(s[i]) == LowerChar(t[i])
  }

  /** `/^index-.*\.css$/i.test(name)`. */
  predicate IsIndexCss(name: string)
  {
    |name| >= 10
    && SameUpToCase(name[..6], "index-")
    && SameUpToCase(name[|name| - 4..], ".css")
    && forall i :: 6 <= i < |name| - 4 ==> !IsLineTerminator(name[i])
  }

  /** The position of the first `index-*.css` name, if any. */
  function FirstIndexCss(names: seq<string>): (r: Option<nat>)
    ensures r.Some? ==> (r.value < |names| && IsIndexCss(names[r.value])
      && forall j :: 0 <= j < r.value ==> !IsIndexCss(names[j]))
    ensures r.None? ==> forall j :: 0 <= j < |names| ==> !IsIndexCss(names[j])
  {
    if names == [] then None
    else if IsIndexCss(names[0]) then Some(0)
    else
      var rest := FirstIndexCss(names[1..]);
      if rest.Some? then Some(rest.value + 1) else None
  }

  /** `cssFiles.find((name) => /^index-.*\.css$/i.test(name)) ?? cssFiles[0]`. */
  function PrimaryStylesheet(cssFiles: seq<string>): (r: string)
    requires cssFiles != []
    ensures r in cssFiles
    ensures (exists i :: 0 <= i < |cssFiles| && IsIndexCss(cssFiles[i])) ==>
      IsIndexCss(r) && exists i :: 0 <= i < |cssFiles| && cssFiles[i] == r && forall j :: 0 <= j < i ==> !IsIndexCss(cssFiles[j])
    ensures (forall i :: 0 <= i < |cssFiles| ==> !IsIndexCss(cssFiles[i])) ==> r == cssFiles[0]
  {
    var k := FirstIndexCss(cssFiles);
    if k.Some? then cssFiles[k.value] else cssFiles[0]
  }

  /** A candidate root and what `readdir` gives for its `dist/assets`, `None` when that fails. */
  datatype AssetRoot = AssetRoot(root: Path, listing: Option<seq<DirEntry>>)

  /** The stylesheet found: its absolute path and its file name. */
  datatype Located = Located(absolutePath: Path, fileName: string)

  /** The assets directory of a root. */
  function AssetsDirOf(root: Path): Path
  {
    Resolve(root, AssetSourceDir)
  }

  /** Whether a root offers a stylesheet: its listing succeeded and holds a `.css` file. */
  predicate HasCss(r: AssetRoot)
  {
    r.listing.Some? && CssFiles(r.listing.value) != []
  }

  /** The first root that offers a stylesheet, if any. */
  function FirstWithCss(roots: seq<AssetRoot>): (r: Option<nat>)
    ensures r.Some? ==> (r.value < |roots| && HasCss(roots[r.value])
      && forall j :: 0 <= j < r.value ==> !HasCss(roots[j]))
    ensures r.None? ==> forall j :: 0 <= j < |roots| ==> !HasCss(roots[j])
  {
    if roots == [] then None
    else if HasCss(roots[0]) then Some(0)
    else
      var rest := FirstWithCss(roots[1..]);
      if rest.Some? then Some(rest.value + 1) else None
  }

  /** The stylesheet a root offers: its primary `.css` file inside its assets directory. */
  function LocatedIn(r: AssetRoot): Located
    requires HasCss(r)
  {
    var primary := PrimaryStylesheet(CssFiles(r.listing.value));
    Located(Resolve(AssetsDirOf(r.root), primary), primary)
  }

  /** The stylesheet of the first root that offers one. */
  function StylesheetOf(roots: seq<AssetRoot>): Option<Located>
  {
    var k := FirstWithCss(roots);
    if k.Some? then Some(LocatedIn(roots[k.value])) else None
  }

  /** `locateStylesheetSource(roots, logger)`. */
  method LocateStylesheet(roots: seq<AssetRoot>) returns (r: Option<Located>)
    ensures r == StylesheetOf(roots)
  {
    for k := 0 to |roots|
      invariant forall j :: 0 <= j < k ==> !HasCss(roots[j])
    {
      var listing := roots[k].listing;
      if listing.None? {
        continue;
      }
      var cssFiles := CssFiles(listing.value);
      if |cssFiles| == 0 {
        continue;
      }
      var primary := PrimaryStylesheet(cssFiles);
      return Some(Located(Resolve(AssetsDirOf(roots[k].root), primary), primary));
    }
    r := None;
  }

  // ---------------------------------------------------------------------------
  // The font URLs of the copied stylesheet

  /** The quote of a `url(` + quote + `/SST-Docs/assets/` match at the start of `s`, if one starts there. */
  function KatexUrlAt(s: string): (r: Option<string>)
    ensures r.Some? ==> StartsWith(s, "url(" + r.value + KatexAssetsPath)
  {
    if StartsWith(s, "url(") then
      var t := s[4..];
      if t != [] && (t[0] == '\'' || t[0] == '"') && StartsWith(t[1..], KatexAssetsPath) then
        assert s[..4 + 1 + |KatexAssetsPath|] == "url(" + [t[0]] + KatexAssetsPath by {
          assert s[..4] == "url(" && t[..1] == [t[0]] && t[1..][..|KatexAssetsPath|] == KatexAssetsPath;
        }
        Some([t[0]])
      else if StartsWith(t, KatexAssetsPath) then
        assert s[..4 + |KatexAssetsPath|] == "url(" + KatexAssetsPath;
        Some("")
      else None
    else None
  }

  /** Where `url(`, a quote or none, and the assets path begin a text, a match starts there. */
  lemma KatexUrlFound(q: string, rest: string)
    requires q == "'" || q == "\"" || q == ""
    ensures KatexUrlAt("url(" + q + KatexAssetsPath + rest) == Some(q)
  {
    var s := "url(" + q + KatexAssetsPath + rest;
    var t := q + KatexAssetsPath + rest;
    assert s[..4] == "url(" && s[4..] == t;
    if q == "" {
      assert t[..|KatexAssetsPath|] == KatexAssetsPath;
      assert t[0] == '/';
    } else {
      assert t[1..] == KatexAssetsPath + rest;
      assert t[1..][..|KatexAssetsPath|] == KatexAssetsPath;
    }
  }

  /** The absolute assets path the built stylesheet points its fonts at. */
  const KatexAssetsPath := "/SST-Docs/assets/"

  /** A match of a pattern at the start of a text: how much of the text it covers, and what replaces it. */
  datatype Match = Match(length: nat, replacement: string)

  /** A matcher for a pattern that never matches the empty text and never reaches past the end of the text. */
  ghost predicate Matcher(m: string -> Option<Match>)
  {
    forall x :: m(x).Some? ==> 0 < m(x).value.length <= |x|
  }

  /**
   * `text.replace(pattern, replacement)` for a pattern with the `g` flag: scanning left to right,
   * each match is replaced and the scan resumes after it; text outside the matches is kept.
   */
  function ReplacePattern(m: string -> Option<Match>, s: string): string
    requires Matcher(m)
    decreases |s|
  {
    if s == [] then []
    else
      var r := m(s);
      if r.Some? then r.value.replacement + ReplacePattern(m, s[r.value.length..])
      else [s[0]] + ReplacePattern(m, s[1..])
  }

  /** Where no match starts, the first character is kept. */
  lemma PatternPlainStep(m: string -> Option<Match>, s: string)
    requires Matcher(m) && s != [] && m(s).None?
    ensures ReplacePattern(m, s) == [s[0]] + ReplacePattern(m, s[1..])
  {
  }

  /** No match at the positions of `a` in `a + b`: none at its front, and none at the positions of `a[1..]` in `a[1..] + b`. */
  lemma NoMatchShift(m: string -> Option<Match>, a: string, b: string)
    requires a != [] && forall k :: 0 <= k < |a| ==> m((a + b)[k..]).None?
    ensures m(a + b).None? && (a + b)[1..] == a[1..] + b && (a + b)[0] == a[0]
    ensures forall k :: 0 <= k < |a[1..]| ==> m((a[1..] + b)[k..]).None?
  {
    assert (a + b)[0..] == a + b;
    forall k | 0 <= k < |a[1..]| ensures m((a[1..] + b)[k..]).None? {
      assert (a[1..] + b)[k..] == (a + b)[k + 1..];
    }
  }

  lemma ConsAssoc(a: string, x: string)
    requires a != []
    ensures [a[0]] + (a[1..] + x) == a + x
  {
  }

  /** Text in which no match starts is kept as it is, whatever follows it. */
  lemma {:induction false} PatternKeepsPlain(m: string -> Option<Match>, a: string, b: string)
    requires Matcher(m) && forall k :: 0 <= k < |a| ==> m((a + b)[k..]).None?
    ensures ReplacePattern(m, a + b) == a + ReplacePattern(m, b)
    decreases |a|
  {
    if a == [] {
      assert a + b == b;
    } else {
      NoMatchShift(m, a, b);
      PatternPlainStep(m, a + b);
      PatternKeepsPlain(m, a[1..], b);
      ConsAssoc(a, ReplacePattern(m, b));
    }
  }

  /** A match at the front is replaced, and the scan goes on after it. */
  lemma PatternMatch(m: string -> Option<Match>, head: string, rest: string, replacement: string)
    requires Matcher(m) && m(head + rest) == Some(Match(|head|, replacement))
    ensures ReplacePattern(m, head + rest) == replacement + ReplacePattern(m, rest)
  {
    assert (head + rest)[|head|..] == rest;
  }

  /** The KaTeX pattern as a matcher: a match with quote `q` becomes `url(` + `q` + `./`. */
  function KatexMatch(s: string): (r: Option<Match>)
    ensures r.Some? <==> KatexUrlAt(s).Some?
    ensures r.Some? ==> r.value == Match(|"url(" + KatexUrlAt(s).value + KatexAssetsPath|, "url(" + KatexUrlAt(s).value + "./")
  {
    match KatexUrlAt(s)
    case None => None
    case Some(q) => Some(Match(|"url(" + q + KatexAssetsPath|, "url(" + q + "./"))
  }

  lemma KatexMatcher()
    ensures Matcher(KatexMatch)
  {
    forall x | KatexMatch(x).Some? ensures 0 < KatexMatch(x).value.length <= |x| {
      var q := KatexUrlAt(x).value;
      assert StartsWith(x, "url(" + q + KatexAssetsPath);
    }
  }

  /** `css.replace(KATEX_URL_PATTERN, "url($1./")`: every match, left to right, becomes `url(` + quote + `./`. */
  function RewriteKatexUrls(css: string): string
  {
    KatexMatcher();
    ReplacePattern(KatexMatch, css)
  }

  /** A stylesheet without a match is copied unchanged. */
  lemma RewriteNoMatch(s: string)
    requires forall k :: 0 <= k < |s| ==> KatexUrlAt(s[k..]).None?
    ensures RewriteKatexUrls(s) == s
  {
    KatexMatcher();
    assert s + [] == s;
    PatternKeepsPlain(KatexMatch, s, []);
  }

  /** Text before the first match is kept as it is. */
  lemma RewriteKeepsPlain(a: string, b: string)
    requires forall k :: 0 <= k < |a| ==> KatexUrlAt((a + b)[k..]).None?
    ensures RewriteKatexUrls(a + b) == a + RewriteKatexUrls(b)
  {
    KatexMatcher();
    PatternKeepsPlain(KatexMatch, a, b);
  }

  /** A match, whatever its quote, keeps the quote and points at the stylesheet's own directory. */
  lemma RewriteMatch(q: string, rest: string)
    requires q == "'" || q == "\"" || q == ""
    ensures RewriteKatexUrls("url(" + q + KatexAssetsPath + rest) == "url(" + q + "./" + RewriteKatexUrls(rest)
  {
    var head := "url(" + q + KatexAssetsPath;
    KatexMatcher();
    KatexUrlFound(q, rest);
    PatternMatch(KatexMatch, head, rest, "url(" + q + "./");
  }

  /** The copied stylesheet: the located source with its font URLs rewritten. */
  function CopiedStylesheet(css: string): string
  {
    RewriteKatexUrls(css)
  }

  // ---------------------------------------------------------------------------
  // collectFilesRecursive and writeAssetsManifest

  /** An entry of the assets directory tree. */
  datatype FsEntry = FsFile(name: string) | FsDir(name: string, entries: seq<FsEntry>)

  /** The relative path of an entry below `prefix`. */
  function RelativePathOf(prefix: string, name: string): string
  {
    if prefix == "" then name else prefix + "/" + name
  }

  /** The files an entry contributes to the manifest. */
  function FilesOf(e: FsEntry, prefix: string): seq<string>
    decreases e, 1
  {
    var relativePath := RelativePathOf(prefix, e.name);
    match e
    case FsDir(_, entries) => FilesIn(entries, relativePath)
    case FsFile(_) => if relativePath != AssetsManifestName then [ReplaceBackslashes(relativePath)] else []
  }

  /** `collectFilesRecursive(root, prefix)` on the listing of the directory at `prefix`. */
  function FilesIn(entries: seq<FsEntry>, prefix: string): seq<string>
    decreases entries, 0
  {
    if entries == [] then []
    else FilesIn(entries[..|entries| - 1], prefix) + FilesOf(entries[|entries| - 1], prefix)
  }

  /** `collectFilesRecursive(root, prefix)`. */
  method CollectFilesRecursive(entries: seq<FsEntry>, prefix: string) returns (files: seq<string>)
    ensures files == FilesIn(entries, prefix)
    decreases entries
  {
    files := [];
    for i := 0 to |entries|
      invariant files == FilesIn(entries[..i], prefix)
    {
      assert entries[..i + 1][..i] == entries[..i];
      var entry := entries[i];
      var relativePath := RelativePathOf(prefix, entry.name);
      if entry.FsDir? {
        var nested := CollectFilesRecursive(entry.entries, relativePath);
        files := files + nested;
      } else if relativePath != AssetsManifestName {
        files := files + [ReplaceBackslashes(relativePath)];
      }
    }
    assert entries[..|entries|] == entries;
  }

  /** The list `writeAssetsManifest` stores: every file below the assets directory, sorted. */
  function AssetsManifest(entries: seq<FsEntry>): seq<string>
  {
    VersionRender.SortStrings(FilesIn(entries, ""))
  }

  /** Below a non-empty prefix every listed path has a `/`. */
  lemma {:induction false} NestedPathsHaveSlash(entries: seq<FsEntry>, prefix: string)
    requires prefix != ""
    ensures forall p :: p in FilesIn(entries, prefix) ==> '/' in p
    decreases entries, 0
  {
    if entries != [] {
      NestedPathsHaveSlash(entries[..|entries| - 1], prefix);
      var e := entries[|entries| - 1];
      var rel := RelativePathOf(prefix, e.name);
      assert rel[|prefix|] == '/';
      match e
      case FsDir(_, es) => NestedPathsHaveSlash(es, rel);
      case FsFile(_) =>
        if rel != AssetsManifestName {
          assert ReplaceBackslashes(rel)[|prefix|] == '/';
        }
    }
  }

  /** A path that becomes the manifest's name under the separator rewrite already was that name. */
  lemma ReplacedIsManifest(p: string)
    requires ReplaceBackslashes(p) == AssetsManifestName
    ensures p == AssetsManifestName
  {
    forall i | 0 <= i < |p| ensures p[i] == AssetsManifestName[i] {
      assert ReplaceBackslashes(p)[i] == AssetsManifestName[i];
    }
  }

  /** The manifest never lists itself, even when an old copy of it sits at the top. */
  lemma ManifestExcludesItself(entries: seq<FsEntry>)
    ensures AssetsManifestName !in AssetsManifest(entries)
  {
    FilesInExcludesManifest(entries);
    assert multiset(AssetsManifest(entries)) == multiset(FilesIn(entries, ""));
    assert AssetsManifestName !in multiset(FilesIn(entries, ""));
  }

  lemma {:induction false} FilesInExcludesManifest(entries: seq<FsEntry>)
    ensures AssetsManifestName !in FilesIn(entries, "")
    decreases entries, 0
  {
    if entries != [] {
      var init, last := entries[..|entries| - 1], entries[|entries| - 1];
      FilesInExcludesManifest(init);
      FilesOfExcludesManifest(last);
      assert FilesIn(entries, "") == FilesIn(init, "") + FilesOf(last, "");
    }
  }

  lemma {:induction false} FilesOfExcludesManifest(e: FsEntry)
    ensures AssetsManifestName !in FilesOf(e, "")
    decreases e, 1
  {
    match e
    case FsDir(name, es) =>
      assert FilesOf(e, "") == FilesIn(es, name);
      if name != "" {
        NestedPathsHaveSlash(es, name);
        assert '/' !in AssetsManifestName;
      } else {
        FilesInExcludesManifest(es);
      }
    case FsFile(name) =>
      if name != AssetsManifestName && ReplaceBackslashes(name) == AssetsManifestName {
        ReplacedIsManifest(name);
      }
  }

  /** Each other top-level file is listed under its own name, and the list is sorted. */
  lemma TopLevelFileListed(entries: seq<FsEntry>, i: nat)
    requires i < |entries| && entries[i].FsFile? && entries[i].name != AssetsManifestName && '\\' !in entries[i].name
    ensures entries[i].name in AssetsManifest(entries)
    ensures VersionRender.Ascending(AssetsManifest(entries))
  {
    var name := entries[i].name;
    FilesInHas(entries, "", i);
    ReplaceBackslashesFixed(name);
    assert RelativePathOf("", name) == name;
    assert FilesOf(entries[i], "") == [name];
    assert name in FilesIn(entries, "");
    assert entries[i].name in multiset(FilesIn(entries, ""));
  }

  /** Everything an entry contributes is in the listing of its directory. */
  lemma {:induction false} FilesInHas(entries: seq<FsEntry>, prefix: string, i: nat)
    requires i < |entries|
    ensures forall p :: p in FilesOf(entries[i], prefix) ==> p in FilesIn(entries, prefix)
  {
    if i < |entries| - 1 {
      FilesInHas(entries[..|entries| - 1], prefix, i);
    }
  }

  /** A file inside a top-level directory is listed as directory, `/`, name. */
  lemma NestedFileListed(dir: string, name: string)
    requires dir != "" && '\\' !in dir && '\\' !in name
    ensures FilesIn([FsDir(dir, [FsFile(name)])], "") == [dir + "/" + name]
  {
    var rel := dir + "/" + name;
    ReplaceBackslashesFixed(rel);
    assert rel[|dir|] == '/' && '/' !in AssetsManifestName;
    assert FilesOf(FsFile(name), dir) == [rel];
    assert FilesIn([FsFile(name)], dir) == FilesIn([], dir) + FilesOf(FsFile(name), dir);
    assert FilesIn([FsDir(dir, [FsFile(name)])], "") == FilesIn([], "") + FilesOf(FsDir(dir, [FsFile(name)]), "");
  }

  // ---------------------------------------------------------------------------
  // copyReferencedMedia

  /** One media copy: from the public data tree to the output tree. */
  datatype MediaCopy = MediaCopy(source: Path, target: Path)

  /** The directory of the version below `root`: the product (when there is one), then the version. */
  function VersionDirUnder(root: Path, entry: VersionRenderEntry): Path
  {
    Resolve(Resolve(root, if entry.product.Some? then entry.product.value.product else ""), entry.version.version)
  }

  /**
   * The copies `copyReferencedMedia` attempts: none unless the build is separate and there are
   * media paths; otherwise one per path, from the public data root to the output directory.
   */
  function MediaCopies(separateBuild: bool, mediaPaths: seq<string>, publicRoot: Path, outDir: Path,
                       entry: VersionRenderEntry): (r: seq<MediaCopy>)
    ensures !separateBuild || mediaPaths == [] ==> r == []
    ensures separateBuild ==> |r| == |mediaPaths|
  {
    if !separateBuild || |mediaPaths| == 0 then []
    else
      var versionOutDir := VersionDirUnder(outDir, entry);
      seq(|mediaPaths|, i requires 0 <= i < |mediaPaths| =>
        MediaCopy(Resolve(VersionDirUnder(publicRoot, entry), mediaPaths[i]), Resolve(versionOutDir, mediaPaths[i])))
  }

  /** Resolving a plain name appends it. */
  lemma ResolveName(base: Path, name: string)
    requires IsName(name) && '/' !in name
    ensures Resolve(base, name) == base + [name]
  {
    SplitFree(name, '/');
    ResolveNames(base, [name]);
  }

  /** The version's directory under a root, for a version and product that are plain names. */
  lemma VersionDirNames(root: Path, entry: VersionRenderEntry)
    requires IsName(entry.version.version) && '/' !in entry.version.version
    requires entry.product.Some? ==> IsName(entry.product.value.product) && '/' !in entry.product.value.product
    ensures VersionDirUnder(root, entry) == root + VersionSegments(entry)
  {
    if entry.product.Some? {
      ResolveName(root, entry.product.value.product);
    } else {
      assert Split("", '/') == [""];
      assert ResolveSegments(root, [""]) == ResolveSegments(root, []) == root;
      assert root + [] == root;
    }
    ResolveName(root + (if entry.product.Some? then [entry.product.value.product] else []), entry.version.version);
  }

  /** The product (when there is one) and the version, as path segments. */
  function VersionSegments(entry: VersionRenderEntry): Path
  {
    (if entry.product.Some? then [entry.product.value.product] else []) + [entry.version.version]
  }

  /** A relative path of names is appended segment by segment. */
  lemma ResolveRelative(base: Path, rel: string)
    requires Normalised(Split(rel, '/'))
    ensures Resolve(base, rel) == base + Split(rel, '/')
  {
    assert rel != [] && rel[0] == '/' ==> Split(rel, '/')[0] == "";
    ResolveNames(base, Split(rel, '/'));
  }

  /** Where a plain relative media path lands below a root's copy of the version. */
  lemma MediaPathUnder(root: Path, entry: VersionRenderEntry, rel: string)
    requires Normalised(Split(rel, '/'))
    requires IsName(entry.version.version) && '/' !in entry.version.version
    requires entry.product.Some? ==> IsName(entry.product.value.product) && '/' !in entry.product.value.product
    ensures Resolve(VersionDirUnder(root, entry), rel) == root + VersionSegments(entry) + Split(rel, '/')
  {
    var dir := VersionDirUnder(root, entry);
    VersionDirNames(root, entry);
    ResolveRelative(dir, rel);
  }

  /**
   * A media file keeps its place: a relative path of plain names inside the version is copied
   * from the version's directory under the public data root to the same place under the output directory.
   */
  lemma MediaCopiesKeepPlace(mediaPaths: seq<string>, publicRoot: Path, outDir: Path, entry: VersionRenderEntry, i: nat)
    requires i < |mediaPaths| && Normalised(Split(mediaPaths[i], '/'))
    requires IsName(entry.version.version) && '/' !in entry.version.version
    requires entry.product.Some? ==> IsName(entry.product.value.product) && '/' !in entry.product.value.product
    ensures var segs, rel := VersionSegments(entry), Split(mediaPaths[i], '/');
      MediaCopies(true, mediaPaths, publicRoot, outDir, entry)[i] == MediaCopy(publicRoot + segs + rel, outDir + segs + rel)
  {
    MediaPathUnder(publicRoot, entry, mediaPaths[i]);
    MediaPathUnder(outDir, entry, mediaPaths[i]);
  }

  /** The extra stylesheets the pages link are the ones `copyVersionAssets` writes. */
  lemma ExtraStylesheetsWritten()
    ensures VersionHrefs.ExtraStylesheets == [PrismThemeTarget, CodeTabsTarget, CarouselStyleTarget, CompareStyleTarget]
  {
  }
}
