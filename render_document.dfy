/**
 * The page of one document: a header with the title and the trail of its ancestor
 * categories, the description when there is one, and the rendered blocks, all inside the
 * shared page shell with the document marked active in the sidebar.
 *
 * The blocks are rendered by the caller in the context `DocumentContext` describes and
 * handed in as `contentHtml`: the block renderer keeps counters across pages, so the
 * rendering belongs to the per-version loop that owns them.
 */
module DocumentPage {
  import opened Wrappers
  import opened Text
  import opened Html
  import opened Docs
  import opened Helpers
  import opened Paths
  import opened Navigation
  import opened PageShell

  /** The context the document's blocks are rendered in: the theme, and the document id as the current path. */
  function DocumentContext(doc: NavDocumentEntry, theme: Theme, resolveAssetHref: string -> string,
                           getChartAssetHref: Option<(ChartData, int) -> Option<ChartHref>>): (ctx: RenderContext)
    ensures ctx.styles == theme && ctx.currentPath == doc.id
    ensures ctx.resolveAssetHref == Some(resolveAssetHref) && ctx.getChartAssetHref == getChartAssetHref
  {
    RenderContext(theme, doc.id, Some(resolveAssetHref), getChartAssetHref)
  }

  /** The description paragraph, present exactly when the description is a non-empty string. */
  function DescriptionNode(theme: Theme, description: Option<string>): (r: Node)
    ensures r.Element? <==> Truthy(description)
    ensures r.Element? ==> r.tag == "p" && r.children == [Str(description.value)]
    ensures !r.Element? ==> Serialize(r) == ""
  {
    if Truthy(description) then
      E("p", [Class(ClassNames(["text-gray-500 mb-6", ThemeClass(theme, "text.general")]))], [Str(description.value)])
    else Empty
  }

  /** The breadcrumb of a document: its ancestors in the index, then its own title. */
  function DocumentTrail(ix: NavigationIndex, doc: NavDocumentEntry, resolveHref: HrefResolver): seq<BreadcrumbSegment>
  {
    AncestorTrail(ix, doc.ancestorCategoryIds, doc.title, resolveHref)
  }

  /** The header: the file icon and the title, then the breadcrumb. */
  function DocumentHeader(assets: PageAssets, theme: Theme, ix: NavigationIndex, doc: NavDocumentEntry, resolveHref: HrefResolver): Node
  {
    E("div", [Class(ClassNames(["flex flex-col gap-1 items-center py-2 mb-4", ThemeClass(theme, "sections.documentHeaderBackground")]))],
      [E("div", [Class(ClassNames(["flex items-center gap-2", ThemeClass(theme, "text.documentTitle")]))],
         [Raw(assets.fileHeaderIcon), E("h1", [Attr("aria-label", doc.title)], [Str(doc.title)])]),
       BreadcrumbNav(PageTrailStyle(theme), DocumentTrail(ix, doc, resolveHref))])
  }

  /** The article: the header, then the description and the rendered blocks. */
  function DocumentArticle(assets: PageAssets, theme: Theme, ix: NavigationIndex, doc: NavDocumentEntry,
                           resolveHref: HrefResolver, contentHtml: string): Node
  {
    E("article", [],
      [DocumentHeader(assets, theme, ix, doc, resolveHref),
       E("div", [Class("px-2 md:px-6")],
         [E("div", [Class("max-w-4xl mx-auto")],
            [DescriptionNode(theme, doc.description), E("div", [Class("space-y-4")], [Raw(contentHtml)])])])])
  }

  /** The shell options of a document page: titled by the document, with the document active and no shell breadcrumb. */
  function DocumentPageOptions(assets: PageAssets, doc: NavDocumentEntry, ix: NavigationIndex, theme: Theme,
                               branding: HeaderBranding, stylesheetHref: string, additionalStylesheets: seq<string>,
                               resolveHref: HrefResolver, contentHtml: string): (o: PageShellOptions)
    ensures o.title == doc.title && o.navIndex == ix && o.theme == theme
    ensures o.activeDocId == Some(doc.id) && o.activeCategoryId == None
    ensures o.breadcrumb == None && o.branding == Some(branding)
    ensures o.stylesheetHref == stylesheetHref && o.additionalStylesheets == additionalStylesheets
  {
    DocumentShellOptions(doc, ix, theme, branding, stylesheetHref, additionalStylesheets, resolveHref,
      Serialize(DocumentArticle(assets, theme, ix, doc, resolveHref, contentHtml)))
  }

  /** The shell options of a document page around its already serialized article. */
  function DocumentShellOptions(doc: NavDocumentEntry, ix: NavigationIndex, theme: Theme, branding: HeaderBranding,
                                stylesheetHref: string, additionalStylesheets: seq<string>, resolveHref: HrefResolver,
                                mainContent: string): (o: PageShellOptions)
    ensures o.title == doc.title && o.navIndex == ix && o.theme == theme && o.mainContent == mainContent
    ensures o.activeDocId == Some(doc.id) && o.activeCategoryId == None
    ensures o.breadcrumb == None && o.branding == Some(branding)
    ensures o.stylesheetHref == stylesheetHref && o.additionalStylesheets == additionalStylesheets
  {
    PageShellOptions(doc.title, mainContent, ix, stylesheetHref, additionalStylesheets, resolveHref, None, Some(doc.id), None,
      Some(branding), theme)
  }

  /** The whole document page. */
  method RenderDocumentPage(assets: PageAssets, doc: NavDocumentEntry, ix: NavigationIndex, theme: Theme,
                            branding: HeaderBranding, stylesheetHref: string, additionalStylesheets: seq<string>,
                            resolveHref: HrefResolver, contentHtml: string) returns (html: string)
    ensures html == Serialize(PageShellOf(assets, DocumentPageOptions(assets, doc, ix, theme, branding, stylesheetHref,
                                                                     additionalStylesheets, resolveHref, contentHtml)))
  {
    html := RenderPageShell(assets, DocumentPageOptions(assets, doc, ix, theme, branding, stylesheetHref,
                                                        additionalStylesheets, resolveHref, contentHtml));
  }

  /**
   * For a document of a well-formed index: the trail has one segment per breadcrumb entry,
   * every ancestor segment links to that category's page (when hrefs are never empty), the
   * last segment is the document itself, and the sidebar expands exactly its ancestors.
   */
  lemma DocumentPageInIndex(ix: NavigationIndex, doc: NavDocumentEntry, resolveHref: HrefResolver)
    requires WellFormed(NavState(ix.categories, ix.documents))
    requires doc.id != "" && doc.id in ix.documents.entries && ix.documents.entries[doc.id] == doc
    requires forall p :: resolveHref(p) != ""
    ensures var items := TrailItems(DocumentTrail(ix, doc, resolveHref));
      |items| == |doc.breadcrumb|
      && items[|items| - 1] == TrailItem(doc.title, None, true)
      && forall i :: 0 <= i < |doc.ancestorCategoryIds| ==>
           items[i].link == Some(resolveHref(ix.categories.entries[doc.ancestorCategoryIds[i]].outputPathRelative))
    ensures ExpandedIds(ix, Selection(Some(doc.id), None)) == IdSet(doc.ancestorCategoryIds)
  {
    assert Linked(doc.breadcrumb, doc.ancestorCategoryIds, doc.parentCategoryId);
    AncestorTrailLinks(ix, doc.ancestorCategoryIds, doc.title, resolveHref);
    ExpandedForDocument(ix, doc.id);
  }
}
