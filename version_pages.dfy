/**
 * The page-writing stage of a version run: with the block markup of every job in hand, the
 * landing page (the default document, or the placeholder when the version has none), every
 * category page and every document page are assembled from their templates, and the
 * manifest lists the pages written, the chart images stored and the media found.
 */
module VersionPages {
  import opened Wrappers
  import opened Text
  import opened Docs
  import opened Html
  import opened Paths
  import opened Navigation
  import opened PageShell
  import opened DocumentPage
  import opened CategoryPage
  import opened VersionHrefs
  import opened VersionRender

  /** A file of the site: where it is written and what it holds. */
  datatype WrittenPage = WrittenPage(path: Path, html: string)

  /** The placeholder landing page. */
  function PlaceholderHtml(assets: PageAssets, l: Layout, ix: NavigationIndex, theme: Theme, branding: HeaderBranding): string
  {
    Serialize(PageShellOf(assets, PlaceholderOptions(l, ix, theme, branding)))
  }

  /** The page of a document written at `pageRel`, with this page's stylesheets and hrefs. */
  function DocumentPageHtml(assets: PageAssets, l: Layout, ix: NavigationIndex, theme: Theme, branding: HeaderBranding,
                            pageRel: Path, doc: NavDocumentEntry, blocksHtml: string): string
  {
    var styles := StylesFor(l, pageRel);
    Serialize(PageShellOf(assets, DocumentPageOptions(assets, doc, ix, theme, branding, styles.stylesheet, styles.additional,
                                                      HrefResolverFor(l, pageRel), blocksHtml)))
  }

  /** The page of a category, with this page's stylesheets and hrefs. */
  function CategoryPageHtml(assets: PageAssets, l: Layout, ix: NavigationIndex, theme: Theme, branding: HeaderBranding,
                            c: NavCategoryEntry, blocksHtml: string): string
  {
    var styles := StylesFor(l, c.outputPathRelative);
    Serialize(PageShellOf(assets, CategoryPageOptions(assets, c, ix, theme, branding, styles.stylesheet, styles.additional,
                                                      HrefResolverFor(l, c.outputPathRelative), blocksHtml)))
  }

  /**
   * The page templates of a run, with everything but the page's own inputs fixed: the page
   * of a document written at a given place, the page of a category, and the placeholder.
   */
  datatype Templates = Templates(
    document: (Path, NavDocumentEntry, string) -> string,
    category: (NavCategoryEntry, string) -> string,
    placeholder: string)

  /** The templates of the page modules, for one run. */
  function SiteTemplates(assets: PageAssets, l: Layout, ix: NavigationIndex, theme: Theme, branding: HeaderBranding): (t: Templates)
    ensures t.placeholder == PlaceholderHtml(assets, l, ix, theme, branding)
  {
    Templates(
      (pageRel: Path, doc: NavDocumentEntry, blocksHtml: string) => DocumentPageHtml(assets, l, ix, theme, branding, pageRel, doc, blocksHtml),
      (c: NavCategoryEntry, blocksHtml: string) => CategoryPageHtml(assets, l, ix, theme, branding, c, blocksHtml),
      PlaceholderHtml(assets, l, ix, theme, branding))
  }

  /**
   * The landing page, at `index.html`: the default document's page with the first job's
   * block markup, or the placeholder when there is no default document.
   */
  function LandingPageOf(t: Templates, l: Layout, ix: NavigationIndex, blocks: seq<string>): (p: WrittenPage)
    requires ix.documents.Valid() && |blocks| >= LandingCount(ix)
    ensures p.path == l.PagePath(LandingRel)
  {
    match DefaultDocumentOf(ix)
    case Some(doc) => WrittenPage(l.PagePath(LandingRel), t.document(LandingRel, doc, blocks[0]))
    case None => WrittenPage(l.PagePath(LandingRel), t.placeholder)
  }

  /** The page of category `c`, at its place under the site, with block markup `blocksHtml`. */
  function CategoryPageFile(t: Templates, l: Layout, c: NavCategoryEntry, blocksHtml: string): (p: WrittenPage)
    ensures p.path == l.PagePath(c.outputPathRelative)
  {
    WrittenPage(l.PagePath(c.outputPathRelative), t.category(c, blocksHtml))
  }

  /** The page of document `doc`, at its own place under the site, with block markup `blocksHtml`. */
  function DocumentPageFile(t: Templates, l: Layout, doc: NavDocumentEntry, blocksHtml: string): (p: WrittenPage)
    ensures p.path == l.PagePath(doc.outputPathRelative)
  {
    WrittenPage(l.PagePath(doc.outputPathRelative), t.document(doc.outputPathRelative, doc, blocksHtml))
  }

  /** The pages of the first `n` categories in insertion order, the `i`-th built from `blocks[i]`. */
  function CategoryPagesOf(t: Templates, l: Layout, ix: NavigationIndex, blocks: seq<string>, n: nat): (r: seq<WrittenPage>)
    requires ix.categories.Valid() && |blocks| == |ix.categories.keys| && n <= |blocks|
    ensures |r| == n
  {
    if n == 0 then []
    else
      var c := ix.categories.entries[ix.categories.keys[n - 1]];
      CategoryPagesOf(t, l, ix, blocks, n - 1) + [CategoryPageFile(t, l, c, blocks[n - 1])]
  }

  /** The pages of the first `n` documents in insertion order, the `j`-th built from `blocks[j]`. */
  function DocumentPagesOf(t: Templates, l: Layout, ix: NavigationIndex, blocks: seq<string>, n: nat): (r: seq<WrittenPage>)
    requires ix.documents.Valid() && |blocks| == |ix.documents.keys| && n <= |blocks|
    ensures |r| == n
  {
    if n == 0 then []
    else
      var doc := ix.documents.entries[ix.documents.keys[n - 1]];
      DocumentPagesOf(t, l, ix, blocks, n - 1)
      + [DocumentPageFile(t, l, doc, blocks[n - 1])]
  }

  /** The `i`-th category page is written at the `i`-th category's place, from the `i`-th markup. */
  lemma {:induction false} CategoryPageAt(t: Templates, l: Layout, ix: NavigationIndex, blocks: seq<string>, n: nat, i: nat)
    requires ix.categories.Valid() && |blocks| == |ix.categories.keys| && i < n <= |blocks|
    ensures var c := ix.categories.entries[ix.categories.keys[i]];
      CategoryPagesOf(t, l, ix, blocks, n)[i] == CategoryPageFile(t, l, c, blocks[i])
    decreases n
  {
    var c := ix.categories.entries[ix.categories.keys[n - 1]];
    var prev, last := CategoryPagesOf(t, l, ix, blocks, n - 1), CategoryPageFile(t, l, c, blocks[n - 1]);
    assert CategoryPagesOf(t, l, ix, blocks, n) == prev + [last];
    PageAppendedAt(prev, last, i);
    if i < n - 1 {
      CategoryPageAt(t, l, ix, blocks, n - 1, i);
      assert CategoryPagesOf(t, l, ix, blocks, n)[i] == prev[i];
    } else {
      assert CategoryPagesOf(t, l, ix, blocks, n)[i] == last;
    }
  }

  /** The `j`-th document page is written at the `j`-th document's place, from the `j`-th markup. */
  lemma {:induction false} DocumentPageAt(t: Templates, l: Layout, ix: NavigationIndex, blocks: seq<string>, n: nat, j: nat)
    requires ix.documents.Valid() && |blocks| == |ix.documents.keys| && j < n <= |blocks|
    ensures var doc := ix.documents.entries[ix.documents.keys[j]];
      DocumentPagesOf(t, l, ix, blocks, n)[j] == DocumentPageFile(t, l, doc, blocks[j])
    decreases n
  {
    var doc := ix.documents.entries[ix.documents.keys[n - 1]];
    var prev := DocumentPagesOf(t, l, ix, blocks, n - 1);
    var last := DocumentPageFile(t, l, doc, blocks[n - 1]);
    assert DocumentPagesOf(t, l, ix, blocks, n) == prev + [last];
    PageAppendedAt(prev, last, j);
    if j < n - 1 {
      DocumentPageAt(t, l, ix, blocks, n - 1, j);
      assert DocumentPagesOf(t, l, ix, blocks, n)[j] == prev[j];
    } else {
      assert DocumentPagesOf(t, l, ix, blocks, n)[j] == last;
    }
  }

  /** A page list grown by one page keeps its earlier pages in place. */
  lemma PageAppendedAt(prev: seq<WrittenPage>, last: WrittenPage, i: nat)
    requires i <= |prev|
    ensures (prev + [last])[i] == if i < |prev| then prev[i] else last
  {
  }

  /** The manifest entries of the first `n` categories in insertion order: each page's place, with forward slashes. */
  function CategoryPagePaths(ix: NavigationIndex, n: nat): (r: seq<string>)
    requires ix.categories.Valid() && n <= |ix.categories.keys|
    ensures |r| == n
  {
    if n == 0 then []
    else CategoryPagePaths(ix, n - 1) + [Posix(ix.categories.entries[ix.categories.keys[n - 1]].outputPathRelative)]
  }

  /** The manifest entries of the first `n` documents in insertion order. */
  function DocumentPagePaths(ix: NavigationIndex, n: nat): (r: seq<string>)
    requires ix.documents.Valid() && n <= |ix.documents.keys|
    ensures |r| == n
  {
    if n == 0 then []
    else DocumentPagePaths(ix, n - 1) + [Posix(ix.documents.entries[ix.documents.keys[n - 1]].outputPathRelative)]
  }

  /** The `i`-th category entry is the place of the `i`-th category's page. */
  lemma {:induction false} CategoryPagePathAt(ix: NavigationIndex, n: nat, i: nat)
    requires ix.categories.Valid() && i < n <= |ix.categories.keys|
    ensures CategoryPagePaths(ix, n)[i] == Posix(ix.categories.entries[ix.categories.keys[i]].outputPathRelative)
    decreases n
  {
    if i < n - 1 {
      CategoryPagePathAt(ix, n - 1, i);
    }
  }

  /** The `j`-th document entry is the place of the `j`-th document's page. */
  lemma {:induction false} DocumentPagePathAt(ix: NavigationIndex, n: nat, j: nat)
    requires ix.documents.Valid() && j < n <= |ix.documents.keys|
    ensures DocumentPagePaths(ix, n)[j] == Posix(ix.documents.entries[ix.documents.keys[j]].outputPathRelative)
    decreases n
  {
    if j < n - 1 {
      DocumentPagePathAt(ix, n - 1, j);
    }
  }

  /** The manifest of a run whose index is `ix`. */
  function VersionManifest(l: Layout, ix: NavigationIndex, generatedAt: string, chartAssets: seq<string>, mediaPaths: seq<string>): Manifest
    requires ix.categories.Valid() && ix.documents.Valid()
  {
    ManifestOf(l, generatedAt, CategoryPagePaths(ix, |ix.categories.keys|), DocumentPagePaths(ix, |ix.documents.keys|), chartAssets, mediaPaths)
  }

  /** The manifest lists the place of every category page once, in ascending order, and nothing else. */
  lemma ManifestListsCategoryPages(l: Layout, ix: NavigationIndex, generatedAt: string, chartAssets: seq<string>, mediaPaths: seq<string>)
    requires ix.categories.Valid() && ix.documents.Valid()
    ensures var m := VersionManifest(l, ix, generatedAt, chartAssets, mediaPaths);
      (forall p :: p in m.categories <==>
         exists i :: 0 <= i < |ix.categories.keys| && p == Posix(ix.categories.entries[ix.categories.keys[i]].outputPathRelative))
      && forall i :: 0 < i < |m.categories| ==> Below(m.categories[i - 1], m.categories[i])
  {
    var nc := |ix.categories.keys|;
    var cats := CategoryPagePaths(ix, nc);
    SortedUniqueStrict(cats);
    forall p | p in cats
      ensures exists i :: 0 <= i < nc && p == Posix(ix.categories.entries[ix.categories.keys[i]].outputPathRelative)
    {
      var i :| 0 <= i < nc && cats[i] == p;
      CategoryPagePathAt(ix, nc, i);
    }
    forall i | 0 <= i < nc
      ensures Posix(ix.categories.entries[ix.categories.keys[i]].outputPathRelative) in cats
    {
      CategoryPagePathAt(ix, nc, i);
    }
  }

  /** The manifest lists the place of every document page once, in ascending order, and nothing else. */
  lemma ManifestListsDocumentPages(l: Layout, ix: NavigationIndex, generatedAt: string, chartAssets: seq<string>, mediaPaths: seq<string>)
    requires ix.categories.Valid() && ix.documents.Valid()
    ensures var m := VersionManifest(l, ix, generatedAt, chartAssets, mediaPaths);
      (forall p :: p in m.docs <==>
         exists j :: 0 <= j < |ix.documents.keys| && p == Posix(ix.documents.entries[ix.documents.keys[j]].outputPathRelative))
      && forall i :: 0 < i < |m.docs| ==> Below(m.docs[i - 1], m.docs[i])
  {
    var nd := |ix.documents.keys|;
    var docs := DocumentPagePaths(ix, nd);
    SortedUniqueStrict(docs);
    forall p | p in docs
      ensures exists j :: 0 <= j < nd && p == Posix(ix.documents.entries[ix.documents.keys[j]].outputPathRelative)
    {
      var j :| 0 <= j < nd && docs[j] == p;
      DocumentPagePathAt(ix, nd, j);
    }
    forall j | 0 <= j < nd
      ensures Posix(ix.documents.entries[ix.documents.keys[j]].outputPathRelative) in docs
    {
      DocumentPagePathAt(ix, nd, j);
    }
  }

  /** The block markup of the category jobs of a run: those after the landing page's. */
  function CategoryBlocks(ix: NavigationIndex, blocks: seq<string>): (r: seq<string>)
    requires ix.categories.Valid() && ix.documents.Valid()
    requires |blocks| == LandingCount(ix) + |ix.categories.keys| + |ix.documents.keys|
    ensures |r| == |ix.categories.keys|
  {
    blocks[LandingCount(ix)..LandingCount(ix) + |ix.categories.keys|]
  }

  /** The block markup of the document jobs of a run: the last ones. */
  function DocumentBlocks(ix: NavigationIndex, blocks: seq<string>): (r: seq<string>)
    requires ix.categories.Valid() && ix.documents.Valid()
    requires |blocks| == LandingCount(ix) + |ix.categories.keys| + |ix.documents.keys|
    ensures |r| == |ix.documents.keys|
  {
    blocks[LandingCount(ix) + |ix.categories.keys|..]
  }

  /**
   * The pages of a run in the order they are written. `blocks` holds the block markup of the
   * run's jobs in job order: the landing page's when there is a default document, then every
   * category's, then every document's.
   */
  function VersionPagesOf(t: Templates, l: Layout, ix: NavigationIndex, blocks: seq<string>): (r: seq<WrittenPage>)
    requires ix.categories.Valid() && ix.documents.Valid()
    requires |blocks| == LandingCount(ix) + |ix.categories.keys| + |ix.documents.keys|
    ensures |r| == 1 + |ix.categories.keys| + |ix.documents.keys|
    ensures r[0].path == l.PagePath(LandingRel)
  {
    [LandingPageOf(t, l, ix, blocks)]
    + CategoryPagesOf(t, l, ix, CategoryBlocks(ix, blocks), |ix.categories.keys|)
    + DocumentPagesOf(t, l, ix, DocumentBlocks(ix, blocks), |ix.documents.keys|)
  }

  /** The pages of a run, in the order they are written, and its manifest. */
  method WriteVersionPages(t: Templates, l: Layout, ix: NavigationIndex, blocks: seq<string>,
                           chartAssets: seq<string>, mediaPaths: seq<string>, generatedAt: string)
    returns (pages: seq<WrittenPage>, manifest: Manifest)
    requires ix.categories.Valid() && ix.documents.Valid()
    requires |blocks| == LandingCount(ix) + |ix.categories.keys| + |ix.documents.keys|
    ensures pages == VersionPagesOf(t, l, ix, blocks)
    ensures manifest == VersionManifest(l, ix, generatedAt, chartAssets, mediaPaths)
  {
    var landing := WriteLandingPage(t, l, ix, blocks);
    var categoryPages, categoryPaths := WriteCategoryPages(t, l, ix, CategoryBlocks(ix, blocks));
    var documentPages, documentPaths := WriteDocumentPages(t, l, ix, DocumentBlocks(ix, blocks));
    pages := [landing] + categoryPages + documentPages;
    manifest := ManifestOf(l, generatedAt, categoryPaths, documentPaths, chartAssets, mediaPaths);
  }

  /** The landing page: the default document's page, or the placeholder. */
  method WriteLandingPage(t: Templates, l: Layout, ix: NavigationIndex, blocks: seq<string>) returns (page: WrittenPage)
    requires ix.documents.Valid() && |blocks| >= LandingCount(ix)
    ensures page == LandingPageOf(t, l, ix, blocks)
  {
    var default := GetDefaultDocument(ix);
    if default.Some? {
      page := WrittenPage(l.PagePath(LandingRel), t.document(LandingRel, default.value, blocks[0]));
    } else {
      page := WrittenPage(l.PagePath(LandingRel), t.placeholder);
    }
  }

  /** Every category page in insertion order, and the manifest entry of each. */
  method WriteCategoryPages(t: Templates, l: Layout, ix: NavigationIndex, blocks: seq<string>)
    returns (pages: seq<WrittenPage>, paths: seq<string>)
    requires ix.categories.Valid() && |blocks| == |ix.categories.keys|
    ensures pages == CategoryPagesOf(t, l, ix, blocks, |ix.categories.keys|)
    ensures paths == CategoryPagePaths(ix, |ix.categories.keys|)
  {
    pages, paths := [], [];
    for i := 0 to |ix.categories.keys|
      invariant pages == CategoryPagesOf(t, l, ix, blocks, i) && paths == CategoryPagePaths(ix, i)
    {
      var c := ix.categories.entries[ix.categories.keys[i]];
      var page := CategoryPageFile(t, l, c, blocks[i]);
      assert CategoryPagesOf(t, l, ix, blocks, i + 1) == CategoryPagesOf(t, l, ix, blocks, i) + [page];
      assert CategoryPagePaths(ix, i + 1) == CategoryPagePaths(ix, i) + [Posix(c.outputPathRelative)];
      pages := pages + [page];
      paths := paths + [Posix(c.outputPathRelative)];
    }
  }

  /** Every document page in insertion order, and the manifest entry of each. */
  method WriteDocumentPages(t: Templates, l: Layout, ix: NavigationIndex, blocks: seq<string>)
    returns (pages: seq<WrittenPage>, paths: seq<string>)
    requires ix.documents.Valid() && |blocks| == |ix.documents.keys|
    ensures pages == DocumentPagesOf(t, l, ix, blocks, |ix.documents.keys|)
    ensures paths == DocumentPagePaths(ix, |ix.documents.keys|)
  {
    pages, paths := [], [];
    for j := 0 to |ix.documents.keys|
      invariant pages == DocumentPagesOf(t, l, ix, blocks, j) && paths == DocumentPagePaths(ix, j)
    {
      var doc := ix.documents.entries[ix.documents.keys[j]];
      var page := DocumentPageFile(t, l, doc, blocks[j]);
      assert DocumentPagesOf(t, l, ix, blocks, j + 1) == DocumentPagesOf(t, l, ix, blocks, j) + [page];
      assert DocumentPagePaths(ix, j + 1) == DocumentPagePaths(ix, j) + [Posix(doc.outputPathRelative)];
      pages := pages + [page];
      paths := paths + [Posix(doc.outputPathRelative)];
    }
  }
}
