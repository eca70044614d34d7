/**
 * One version's run: the navigation index is built, the landing page is written (the
 * default document, or a placeholder when the version has no document), then every
 * category page and every document page in index order, and finally the manifest that
 * lists what was written.
 *
 * Each page first prepares the chart images its blocks need, then renders its blocks with
 * the shared render session, then hands the markup to its page template.
 */
module VersionRender {
  import opened Wrappers
  import opened Text
  import opened Html
  import opened Docs
  import opened Paths
  import OrderedMaps
  import opened Navigation
  import opened PageShell
  import opened DocumentPage
  import opened CategoryPage
  import opened BlockRender
  import opened ChartAssets
  import opened VersionHrefs

  // ---------------------------------------------------------------------------
  // The default document

  /** The position of the first document, in insertion order, that is not standalone. */
  function FirstNonStandalone(ks: seq<string>, m: map<string, NavDocumentEntry>): (r: Option<nat>)
    requires forall k :: k in ks ==> k in m
    ensures r.Some? ==>
      r.value < |ks| && !m[ks[r.value]].isStandalone && forall j :: 0 <= j < r.value ==> m[ks[j]].isStandalone
    ensures r.None? ==> forall j :: 0 <= j < |ks| ==> m[ks[j]].isStandalone
  {
    if ks == [] then None
    else if !m[ks[0]].isStandalone then Some(0)
    else match FirstNonStandalone(ks[1..], m)
      case None => None
      case Some(k) => Some(k + 1)
  }

  /**
   * The document the landing page shows: the first standalone document, else the first
   * document that is not standalone, else the first document, else none.
   */
  function DefaultDocumentOf(ix: NavigationIndex): Option<NavDocumentEntry>
    requires ix.documents.Valid()
  {
    var ds := ix.documents;
    if |ix.standaloneDocuments| > 0 then Some(ix.standaloneDocuments[0])
    else match FirstNonStandalone(ds.keys, ds.entries)
      case Some(i) => Some(ds.entries[ds.keys[i]])
      case None => if ds.keys == [] then None else Some(ds.entries[ds.keys[0]])
  }

  /** `getDefaultDocument`: the scan with an early return. */
  method GetDefaultDocument(ix: NavigationIndex) returns (d: Option<NavDocumentEntry>)
    requires ix.documents.Valid()
    ensures d == DefaultDocumentOf(ix)
  {
    if |ix.standaloneDocuments| > 0 {
      return Some(ix.standaloneDocuments[0]);
    }
    var ds := ix.documents;
    for i := 0 to |ds.keys|
      invariant forall j :: 0 <= j < i ==> ds.entries[ds.keys[j]].isStandalone
    {
      var doc := ds.entries[ds.keys[i]];
      if !doc.isStandalone {
        assert FirstNonStandalone(ds.keys, ds.entries) == Some(i) by {
          FirstNonStandaloneAt(ds.keys, ds.entries, i);
        }
        return Some(doc);
      }
    }
    d := if ds.keys == [] then None else Some(ds.entries[ds.keys[0]]);
  }

  /** The first non-standalone position is the one whose predecessors are all standalone. */
  lemma {:induction false} FirstNonStandaloneAt(ks: seq<string>, m: map<string, NavDocumentEntry>, i: nat)
    requires forall k :: k in ks ==> k in m
    requires i < |ks| && !m[ks[i]].isStandalone && forall j :: 0 <= j < i ==> m[ks[j]].isStandalone
    ensures FirstNonStandalone(ks, m) == Some(i)
  {
    if i > 0 {
      FirstNonStandaloneAt(ks[1..], m, i - 1);
    }
  }

  /**
   * There is a default document exactly when the version has a document; when it has no
   * standalone document, the default is a document of the index, and it is not standalone
   * whenever some document is not.
   */
  lemma DefaultDocumentChoice(ix: NavigationIndex)
    requires ix.documents.Valid()
    ensures DefaultDocumentOf(ix).None? <==> ix.standaloneDocuments == [] && ix.documents.keys == []
    ensures ix.standaloneDocuments == [] && DefaultDocumentOf(ix).Some? ==>
      exists k :: k in ix.documents.entries && DefaultDocumentOf(ix).value == ix.documents.entries[k]
    ensures ix.standaloneDocuments == [] && (exists k :: k in ix.documents.entries && !ix.documents.entries[k].isStandalone) ==>
      !DefaultDocumentOf(ix).value.isStandalone
  {
    var ds := ix.documents;
    if ix.standaloneDocuments == [] && exists k :: k in ds.entries && !ds.entries[k].isStandalone {
      var k :| k in ds.entries && !ds.entries[k].isStandalone;
      var j :| 0 <= j < |ds.keys| && ds.keys[j] == k;
      assert FirstNonStandalone(ds.keys, ds.entries).Some?;
    }
    if ix.standaloneDocuments == [] && DefaultDocumentOf(ix).Some? {
      match FirstNonStandalone(ds.keys, ds.entries)
      case Some(i) => assert ds.keys[i] in ds.entries;
      case None => assert ds.keys[0] in ds.entries;
    }
  }

  // ---------------------------------------------------------------------------
  // Sorting the manifest lists

  /** `a < b` on strings as JavaScript compares them: character by character, a proper prefix first. */
  predicate Below(a: string, b: string)
  {
    if a == [] then b != []
    else if b == [] then false
    else if a[0] != b[0] then a[0] < b[0]
    else Below(a[1..], b[1..])
  }

  /** Of two different strings exactly one is below the other. */
  lemma {:induction false} BelowTotal(a: string, b: string)
    ensures Below(a, b) ==> !Below(b, a)
    ensures a != b ==> Below(a, b) || Below(b, a)
  {
    if a != [] && b != [] && a[0] == b[0] {
      BelowTotal(a[1..], b[1..]);
      if a != b {
        assert a == [a[0]] + a[1..] && b == [b[0]] + b[1..];
      }
    }
  }

  /** Each string is no lower than the one before it. */
  predicate Ascending(xs: seq<string>)
  {
    forall i :: 0 < i < |xs| ==> !Below(xs[i], xs[i - 1])
  }

  /** `x` placed before the first element it is not above. */
  function Insert(x: string, xs: seq<string>): (r: seq<string>)
    requires Ascending(xs)
    ensures Ascending(r)
    ensures multiset(r) == multiset(xs) + multiset{x}
    ensures r[0] == x || (xs != [] && r[0] == xs[0])
  {
    if xs == [] || !Below(xs[0], x) then
      assert Ascending([x] + xs) by {
        if xs != [] {
          assert ([x] + xs)[1] == xs[0];
          forall i | 1 < i < |xs| + 1 ensures !Below(([x] + xs)[i], ([x] + xs)[i - 1]) {
            assert ([x] + xs)[i] == xs[i - 1] && ([x] + xs)[i - 1] == xs[i - 2];
          }
        }
      }
      [x] + xs
    else
      var rest := Insert(x, xs[1..]);
      BelowTotal(xs[0], x);
      assert xs == [xs[0]] + xs[1..];
      var r := [xs[0]] + rest;
      assert Ascending(r) by {
        forall i | 1 < i < |r| ensures !Below(r[i], r[i - 1]) {
          assert r[i] == rest[i - 1] && r[i - 1] == rest[i - 2];
        }
      }
      r
  }

  /** `.sort()` on strings: the same strings in ascending order. */
  function SortStrings(xs: seq<string>): (r: seq<string>)
    ensures Ascending(r)
    ensures multiset(r) == multiset(xs)
  {
    if xs == [] then []
    else
      assert xs == [xs[0]] + xs[1..];
      Insert(xs[0], SortStrings(xs[1..]))
  }

  /** `Array.from(new Set(xs)).sort()`. */
  function SortedUnique(xs: seq<string>): seq<string>
  {
    SortStrings(Dedupe(xs))
  }

  /** The manifest lists hold each value once, in strictly ascending order. */
  lemma SortedUniqueStrict(xs: seq<string>)
    ensures var r := SortedUnique(xs);
      (forall x :: x in r <==> x in xs) && forall i :: 0 < i < |r| ==> Below(r[i - 1], r[i])
  {
    var d := Dedupe(xs);
    var r := SortStrings(d);
    assert forall x :: x in r <==> x in multiset(r);
    assert forall x :: x in d <==> x in multiset(d);
    forall i | 0 < i < |r| ensures Below(r[i - 1], r[i]) {
      assert r[i - 1] != r[i] by {
        if r[i - 1] == r[i] {
          assert multiset(r)[r[i]] >= 2 by {
            assert r == r[..i - 1] + [r[i - 1], r[i]] + r[i + 1..];
          }
          DedupeCount(d, r[i]);
        }
      }
      BelowTotal(r[i - 1], r[i]);
    }
  }

  /** A list without repeats holds each of its values once. */
  lemma {:induction false} DedupeCount(d: seq<string>, x: string)
    requires forall i, j :: 0 <= i < j < |d| ==> d[i] != d[j]
    ensures multiset(d)[x] <= 1
  {
    if d != [] {
      DedupeCount(d[1..], x);
      assert d == [d[0]] + d[1..];
      assert d[0] !in d[1..];
    }
  }

  // ---------------------------------------------------------------------------
  // The manifest

  /** `static-manifest.json`; the generation time is an input. */
  datatype Manifest = Manifest(
    version: string,
    generatedAt: string,
    index: string,
    categories: seq<string>,
    docs: seq<string>,
    charts: seq<string>,
    media: seq<string>,
    staticStylesPath: string,
    assetsManifest: string)

  /** The static assets directory relative to the site directory. */
  function StaticStylesPath(l: Layout): string
  {
    Posix(Relative(l.SiteOutDir(), l.staticAssetsDir))
  }

  /** `.replace(/\/$/, "")`: one trailing slash removed. */
  function DropTrailingSlash(s: string): (r: string)
    ensures EndsWith(s, "/") ==> r + "/" == s
    ensures !EndsWith(s, "/") ==> r == s
  {
    if s != [] && s[|s| - 1] == '/' then s[..|s| - 1] else s
  }

  /** Where the asset manifest is, relative to the site directory. */
  function AssetsManifestPath(staticStylesPath: string): string
  {
    DropTrailingSlash(staticStylesPath) + "/assets-manifest.json"
  }

  /** Paths under a common prefix share it. */
  lemma {:induction false} CommonPrefixShared(p: Path, a: Path, b: Path)
    ensures CommonPrefix(p + a, p + b) == |p| + CommonPrefix(a, b)
  {
    if p != [] {
      CommonPrefixShared(p[1..], a, b);
      assert (p + a)[0] == p[0] == (p + b)[0];
      assert (p + a)[1..] == p[1..] + a && (p + b)[1..] == p[1..] + b;
      assert CommonPrefix(p + a, p + b) == 1 + CommonPrefix((p + a)[1..], (p + b)[1..]);
    } else {
      assert p + a == a && p + b == b;
    }
  }

  /**
   * With the directories the configuration sets up (`<out>/static-styles` beside the version
   * directory), the static path climbs out of the site directory to `static-styles`, and the
   * asset manifest sits directly inside it.
   */
  lemma StaticStylesPathOfConfig(l: Layout)
    requires Plain(l.outDir) && IsName(l.version) && '/' !in l.version && l.version != "static-styles"
    requires l.staticAssetsDir == l.outDir + ["static-styles"]
    ensures StaticStylesPath(l) == if l.separateBuild then "../static-styles" else "../../static-styles"
    ensures AssetsManifestPath(StaticStylesPath(l)) == StaticStylesPath(l) + "/assets-manifest.json"
  {
    SiteOutDirPlain(l);
    var tail := if l.separateBuild then [l.version] else [l.version, "static"];
    assert l.SiteOutDir() == l.outDir + tail;
    var rel := ClimbOut(l.outDir, tail);
    var p := StaticStylesPath(l);
    if l.separateBuild {
      assert rel == ["..", "static-styles"];
      OneLevelUp();
    } else {
      assert rel == ["..", "..", "static-styles"];
      TwoLevelsUp();
    }
    assert p[|p| - 1] == 's';
  }

  lemma OneLevelUp()
    ensures Posix(["..", "static-styles"]) == "../static-styles"
  {
    JoinTwo("..", "static-styles", "/");
  }

  lemma TwoLevelsUp()
    ensures Posix(["..", "..", "static-styles"]) == "../../static-styles"
  {
    assert Join(["..", "..", "static-styles"], "/") == ".." + "/" + Join(["..", "static-styles"], "/");
    OneLevelUp();
  }

  /** From a directory below `dir`, `dir/static-styles` is reached by climbing out of each segment below `dir`. */
  lemma ClimbOut(dir: Path, tail: Path) returns (rel: Path)
    requires tail != [] && tail[0] != "static-styles"
    ensures rel == Relative(dir + tail, dir + ["static-styles"])
    ensures rel == Ups(|tail|) + ["static-styles"]
  {
    CommonPrefixShared(dir, tail, ["static-styles"]);
    assert CommonPrefix(tail, ["static-styles"]) == 0;
    assert (dir + ["static-styles"])[|dir|..] == ["static-styles"];
    rel := Relative(dir + tail, dir + ["static-styles"]);
  }

  /** The manifest of a run from the pages it wrote, the charts it stored and the media it found. */
  function ManifestOf(l: Layout, generatedAt: string, categoryPages: seq<string>, docPages: seq<string>,
                      chartAssets: seq<string>, mediaPaths: seq<string>): (m: Manifest)
    ensures m.version == l.version && m.index == "index.html"
    ensures m.categories == SortedUnique(categoryPages) && m.docs == SortedUnique(docPages)
    ensures m.charts == SortedUnique(chartAssets) && m.media == SortedUnique(mediaPaths)
    ensures m.assetsManifest == AssetsManifestPath(m.staticStylesPath)
  {
    var staticStylesPath := StaticStylesPath(l);
    Manifest(l.version, generatedAt, "index.html", SortedUnique(categoryPages), SortedUnique(docPages),
      SortedUnique(chartAssets), SortedUnique(mediaPaths), staticStylesPath, AssetsManifestPath(staticStylesPath))
  }

  // ---------------------------------------------------------------------------
  // One page

  /** The `resolveAssetHref` a page's blocks use. */
  function AssetResolver(l: Layout, pageRel: Path): string -> string
  {
    original => ResolveAssetHref(l, pageRel, original)
  }

  /** The `getChartAssetHref` a page's blocks use: a lookup in the images stored so far. */
  function ChartResolver(theme: Theme, stored: OrderedMaps.OrderedMap<ChartKey, ChartAssetInfo>, pageDir: Path)
    : (ChartData, int) -> Option<ChartHref>
  {
    (data: ChartData, targetWidth: int) => AssetHrefIn(theme, stored, data, pageDir, targetWidth)
  }

  /** The page written when a version has no document. */
  function PlaceholderContent(): Node
  {
    E("div", [Class("px-2 md:px-6")],
      [E("div", [Class("max-w-4xl mx-auto py-12 text-center text-gray-500")],
         [Str("Documentation for this version is not available yet.")])])
  }

  /** The shell options of the placeholder landing page: titled and crumbed by the version label, nothing active. */
  function PlaceholderOptions(l: Layout, ix: NavigationIndex, theme: Theme, branding: HeaderBranding): (o: PageShellOptions)
    ensures o.title == ix.versionLabel && o.navIndex == ix
    ensures o.breadcrumb == Some([BreadcrumbSegment(ix.versionLabel, None)])
    ensures o.activeDocId == None && o.activeCategoryId == None
    ensures o.mainContent == Serialize(PlaceholderContent())
  {
    var styles := StylesFor(l, LandingRel);
    PageShellOptions(ix.versionLabel, Serialize(PlaceholderContent()), ix, styles.stylesheet, styles.additional,
      HrefResolverFor(l, LandingRel), Some([BreadcrumbSegment(ix.versionLabel, None)]), None, None, Some(branding), theme)
  }

  /** The landing page's place in the site. */
  const LandingRel: Path := ["index.html"]

  // ---------------------------------------------------------------------------
  // The pages of a run

  /** A page whose blocks are rendered: a document (on its own page or as the landing page) or a category. */
  datatype PageJob = DocumentJob(pageRel: Path, doc: NavDocumentEntry) | CategoryJob(category: NavCategoryEntry)

  /** Where the page is written, relative to the site directory. */
  function JobPath(job: PageJob): Path
  {
    match job
    case DocumentJob(pageRel, _) => pageRel
    case CategoryJob(c) => c.outputPathRelative
  }

  /** The blocks the page renders. */
  function JobContent(job: PageJob): seq<Content>
  {
    match job
    case DocumentJob(_, doc) => doc.content
    case CategoryJob(c) => c.content
  }

  /**
   * The context the page's blocks are rendered in: this page's asset hrefs, and chart hrefs
   * looked up in `stored`, the images stored once the page's own charts are prepared.
   */
  function JobContext(l: Layout, job: PageJob, theme: Theme, stored: OrderedMaps.OrderedMap<ChartKey, ChartAssetInfo>): RenderContext
  {
    var resolveAssetHref := AssetResolver(l, JobPath(job));
    var charts := Some(ChartResolver(theme, stored, Dirname(l.PagePath(JobPath(job)))));
    match job
    case DocumentJob(_, doc) => DocumentContext(doc, theme, resolveAssetHref, charts)
    case CategoryJob(c) => CategoryContext(c, theme, resolveAssetHref, charts)
  }

  /** The landing page's job: the default document, when there is one. */
  function LandingJobs(default: Option<NavDocumentEntry>): (r: seq<PageJob>)
    ensures |r| == if default.Some? then 1 else 0
  {
    if default.Some? then [DocumentJob(LandingRel, default.value)] else []
  }

  /** Every category of the index, in insertion order. */
  function CategoryJobs(ix: NavigationIndex): (r: seq<PageJob>)
    requires ix.categories.Valid()
    ensures |r| == |ix.categories.keys|
    ensures forall i :: 0 <= i < |r| ==> r[i] == CategoryJob(ix.categories.entries[ix.categories.keys[i]])
  {
    var cs := ix.categories;
    seq(|cs.keys|, i requires 0 <= i < |cs.keys| => CategoryJob(cs.entries[cs.keys[i]]))
  }

  /** Every document of the index on its own page, in insertion order. */
  function DocumentJobs(ix: NavigationIndex): (r: seq<PageJob>)
    requires ix.documents.Valid()
    ensures |r| == |ix.documents.keys|
    ensures forall i :: 0 <= i < |r| ==>
      var doc := ix.documents.entries[ix.documents.keys[i]];
      r[i] == DocumentJob(doc.outputPathRelative, doc)
  {
    var ds := ix.documents;
    seq(|ds.keys|, i requires 0 <= i < |ds.keys| =>
      DocumentJob(ds.entries[ds.keys[i]].outputPathRelative, ds.entries[ds.keys[i]]))
  }

  /** The pages of a run in the order their blocks are rendered: the landing page, the categories, the documents. */
  function Jobs(ix: NavigationIndex): seq<PageJob>
    requires ix.categories.Valid() && ix.documents.Valid()
  {
    LandingJobs(DefaultDocumentOf(ix)) + CategoryJobs(ix) + DocumentJobs(ix)
  }

  /** The number of landing-page jobs: one when there is a default document. */
  function LandingCount(ix: NavigationIndex): (n: nat)
    requires ix.documents.Valid()
    ensures n == if DefaultDocumentOf(ix).Some? then 1 else 0
  {
    |LandingJobs(DefaultDocumentOf(ix))|
  }

  /** A run has one job per page: the landing page's (when it shows a document), then one per category, then one per document. */
  lemma JobsCount(ix: NavigationIndex)
    requires ix.categories.Valid() && ix.documents.Valid()
    ensures |Jobs(ix)| == LandingCount(ix) + |ix.categories.keys| + |ix.documents.keys|
    ensures DefaultDocumentOf(ix).Some? ==> Jobs(ix)[0] == DocumentJob(LandingRel, DefaultDocumentOf(ix).value)
  {
  }

  /** The job of the `i`-th category. */
  lemma CategoryJobAt(ix: NavigationIndex, i: nat)
    requires ix.categories.Valid() && ix.documents.Valid() && i < |ix.categories.keys|
    ensures LandingCount(ix) + i < |Jobs(ix)|
    ensures Jobs(ix)[LandingCount(ix) + i] == CategoryJob(ix.categories.entries[ix.categories.keys[i]])
  {
    assert Jobs(ix)[LandingCount(ix) + i] == CategoryJobs(ix)[i];
  }

  /** The job of the `j`-th document. */
  lemma DocumentJobAt(ix: NavigationIndex, j: nat)
    requires ix.categories.Valid() && ix.documents.Valid() && j < |ix.documents.keys|
    ensures LandingCount(ix) + |ix.categories.keys| + j < |Jobs(ix)|
    ensures var doc := ix.documents.entries[ix.documents.keys[j]];
      Jobs(ix)[LandingCount(ix) + |ix.categories.keys| + j] == DocumentJob(doc.outputPathRelative, doc)
  {
    assert Jobs(ix)[LandingCount(ix) + |ix.categories.keys| + j] == DocumentJobs(ix)[j];
  }

  /** The images stored for charts. */
  type ChartTable = OrderedMaps.OrderedMap<ChartKey, ChartAssetInfo>

  /**
   * The jobs of a run, from session `s` and stored images `t`, one after the other: each
   * prepares its charts, then renders its blocks with the images stored so far. The result is
   * the block markup of each job, the session and the images after the last; or the error of
   * the first chart that fails to render, after which nothing more runs.
   */
  ghost function RunJobs(l: Layout, ext: Externals, theme: Theme, charts: ChartAssetManager, jobs: seq<PageJob>,
                         s: SessionState, t: ChartTable): (r: Result<(seq<string>, SessionState, ChartTable)>)
    requires t.Valid()
    ensures r.Ok? ==> |r.value.0| == |jobs| && r.value.2.Valid()
    decreases |jobs|
  {
    if jobs == [] then Ok(([], s, t))
    else
      var last := jobs[|jobs| - 1];
      match RunJobs(l, ext, theme, charts, jobs[..|jobs| - 1], s, t)
      case Err(e) => Err(e)
      case Ok((blocks, s0, t0)) =>
        var (prepared, t1) := charts.Prepare(t0, JobContent(last));
        if prepared.Err? then Err(prepared.error)
        else
          var (html, s1) := RenderBlocksSpec(ext, JobContext(l, last, theme, t1), JobContent(last), s0);
          Ok((blocks + [html], s1, t1))
  }

  /** One more job: the run of the first `n + 1` jobs is the run of the first `n`, then job `n`. */
  lemma RunJobsStep(l: Layout, ext: Externals, theme: Theme, charts: ChartAssetManager, jobs: seq<PageJob>,
                    n: nat, s: SessionState, t: ChartTable)
    requires t.Valid() && n < |jobs| && RunJobs(l, ext, theme, charts, jobs[..n], s, t).Ok?
    ensures var (blocks, s0, t0) := RunJobs(l, ext, theme, charts, jobs[..n], s, t).value;
      var (prepared, t1) := charts.Prepare(t0, JobContent(jobs[n]));
      RunJobs(l, ext, theme, charts, jobs[..n + 1], s, t)
        == if prepared.Err? then Err(prepared.error)
           else Ok((blocks + [RenderBlocksSpec(ext, JobContext(l, jobs[n], theme, t1), JobContent(jobs[n]), s0).0],
                    RenderBlocksSpec(ext, JobContext(l, jobs[n], theme, t1), JobContent(jobs[n]), s0).1, t1))
  {
    JobsPrefixStep(jobs, n);
  }

  /** The first `n + 1` jobs are the first `n`, then job `n`. */
  lemma JobsPrefixStep(jobs: seq<PageJob>, n: nat)
    requires n < |jobs|
    ensures var longer := jobs[..n + 1];
      |longer| == n + 1 && longer[..n] == jobs[..n] && longer[n] == jobs[n]
  {
    assert jobs[..n + 1][..n] == jobs[..n];
  }

  /** Once a run has failed, running more jobs after it fails with the same error. */
  lemma {:induction false} RunJobsErrSticks(l: Layout, ext: Externals, theme: Theme, charts: ChartAssetManager, jobs: seq<PageJob>,
                                            n: nat, s: SessionState, t: ChartTable)
    requires t.Valid() && n <= |jobs| && RunJobs(l, ext, theme, charts, jobs[..n], s, t).Err?
    ensures RunJobs(l, ext, theme, charts, jobs, s, t) == RunJobs(l, ext, theme, charts, jobs[..n], s, t)
    decreases |jobs| - n
  {
    if n < |jobs| {
      var longer := jobs[..n + 1];
      JobsPrefixStep(jobs, n);
      assert RunJobs(l, ext, theme, charts, longer, s, t) == RunJobs(l, ext, theme, charts, jobs[..n], s, t);
      RunJobsErrSticks(l, ext, theme, charts, jobs, n + 1, s, t);
    } else {
      assert jobs[..n] == jobs;
    }
  }

  /**
   * One page's blocks: its charts are prepared first (a chart that fails to render ends the
   * run), then its blocks are rendered with the session, except that a category without
   * blocks renders nothing.
   */
  method RenderJobBlocks(l: Layout, job: PageJob, session: RenderSession, charts: ChartAssetManager, ext: Externals, theme: Theme)
    returns (r: Result<string>)
    requires charts.Valid()
    modifies session, charts
    ensures charts.Valid()
    ensures charts.assets == charts.Prepare(old(charts.assets), JobContent(job)).1
    ensures r.Ok? <==> charts.Prepare(old(charts.assets), JobContent(job)).0.Ok?
    ensures r.Err? ==> charts.Prepare(old(charts.assets), JobContent(job)).0 == Err(r.error)
    ensures r.Err? ==> session.State() == old(session.State())
    ensures r.Ok? ==> (r.value, session.State()) == RenderBlocksSpec(ext, JobContext(l, job, theme, charts.assets), JobContent(job), old(session.State()))
  {
    var content := JobContent(job);
    var prepared := charts.PrepareContent(Some(content));
    if prepared.Err? {
      return Err(prepared.error);
    }
    var ctx := JobContext(l, job, theme, charts.assets);
    if job.CategoryJob? && content == [] {
      EmptyContent(ext, ctx, session.State());
      return Ok("");
    }
    var html := session.RenderBlocks(ext, ctx, content);
    r := Ok(html);
  }

  /** What the first stage hands on: each page's block markup in job order, and the stored chart images. */
  datatype VersionBlocks = VersionBlocks(blocks: seq<string>, chartAssets: seq<string>)

  /**
   * Job `n` of a run whose first `n` jobs rendered `done`: its blocks, extending the run by
   * one job, or the run's error.
   */
  method RunJob(l: Layout, jobs: seq<PageJob>, n: nat, session: RenderSession, charts: ChartAssetManager, ext: Externals,
                theme: Theme, ghost s0: SessionState, ghost t0: ChartTable, ghost done: seq<string>)
    returns (r: Result<string>)
    requires charts.Valid() && t0.Valid() && n < |jobs|
    requires RunJobs(l, ext, theme, charts, jobs[..n], s0, t0) == Ok((done, session.State(), charts.assets))
    modifies session, charts
    ensures charts.Valid()
    ensures r.Ok? ==> RunJobs(l, ext, theme, charts, jobs[..n + 1], s0, t0) == Ok((done + [r.value], session.State(), charts.assets))
    ensures r.Err? ==> RunJobs(l, ext, theme, charts, jobs, s0, t0) == Err(r.error)
  {
    RunJobsStep(l, ext, theme, charts, jobs, n, s0, t0);
    r := RenderJobBlocks(l, jobs[n], session, charts, ext, theme);
    if r.Err? {
      RunJobsErrSticks(l, ext, theme, charts, jobs, n + 1, s0, t0);
    }
  }

  /**
   * The jobs from job `n` on, in order, for a run whose first `n` jobs rendered `done`: the
   * blocks of the whole run, or the error of the first chart that fails.
   */
  method RunRemainingJobs(l: Layout, jobs: seq<PageJob>, n: nat, session: RenderSession, charts: ChartAssetManager,
                          ext: Externals, theme: Theme, ghost s0: SessionState, ghost t0: ChartTable, done: seq<string>)
    returns (r: Result<seq<string>>)
    requires charts.Valid() && t0.Valid() && n <= |jobs|
    requires RunJobs(l, ext, theme, charts, jobs[..n], s0, t0) == Ok((done, session.State(), charts.assets))
    modifies session, charts
    ensures charts.Valid()
    ensures r.Ok? ==> RunJobs(l, ext, theme, charts, jobs, s0, t0) == Ok((r.value, session.State(), charts.assets))
    ensures r.Err? ==> RunJobs(l, ext, theme, charts, jobs, s0, t0) == Err(r.error)
    decreases |jobs| - n
  {
    if n == |jobs| {
      assert jobs[..n] == jobs;
      return Ok(done);
    }
    var html := RunJob(l, jobs, n, session, charts, ext, theme, s0, t0, done);
    if html.Err? {
      return Err(html.error);
    }
    r := RunRemainingJobs(l, jobs, n + 1, session, charts, ext, theme, s0, t0, done + [html.value]);
  }

  /**
   * The block-rendering stage of a version run: a chart cache for the site directory is made,
   * then the landing page (when there is a default document), every category and every
   * document prepare their charts and render their blocks, in that order, with the shared
   * session. The run stops at the first chart that fails to render.
   */
  method RenderVersionBlocks(l: Layout, ix: NavigationIndex, session: RenderSession, ext: Externals, theme: Theme,
                             digest: ChartKey -> string, renders: ChartKey -> bool)
    returns (r: Result<VersionBlocks>, charts: ChartAssetManager)
    requires ix.categories.Valid() && ix.documents.Valid()
    modifies session
    ensures fresh(charts) && charts.Valid()
    ensures charts.theme == theme && charts.versionOutDir == l.SiteOutDir() && charts.digest == digest && charts.renders == renders
    ensures r.Err? ==> RunJobs(l, ext, theme, charts, Jobs(ix), old(session.State()), OrderedMaps.Empty()) == Err(r.error)
    ensures r.Ok? ==>
      RunJobs(l, ext, theme, charts, Jobs(ix), old(session.State()), OrderedMaps.Empty()) == Ok((r.value.blocks, session.State(), charts.assets))
    ensures r.Ok? ==> r.value.chartAssets == charts.ListAssets()
  {
    var default := GetDefaultDocument(ix);
    var jobs := LandingJobs(default) + CategoryJobs(ix) + DocumentJobs(ix);
    charts := new ChartAssetManager(theme, l.SiteOutDir(), digest, renders);
    assert jobs[..0] == [];
    var res := RunRemainingJobs(l, jobs, 0, session, charts, ext, theme, session.State(), charts.assets, []);
    if res.Err? {
      return Err(res.error), charts;
    }
    r := Ok(VersionBlocks(res.value, charts.ListAssets()));
  }
}
