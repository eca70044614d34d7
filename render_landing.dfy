/**
 * The landing page of a version: the version label, a card for every top-level category
 * and a list of the standalone documents, inside the page shell with a one-segment
 * breadcrumb naming the version and nothing active in the sidebar.
 */
module LandingPage {
  import opened Wrappers
  import opened Text
  import opened Html
  import opened Docs
  import opened Helpers
  import opened Paths
  import opened Navigation
  import opened PageShell

  /** The card of a top-level category: its title as a heading, then its description when non-empty. */
  function SummaryCard(theme: Theme, c: NavCategoryEntry, resolveHref: HrefResolver): (r: Node)
    ensures r.Element? && r.tag == "a" && AttrValue(r.attrs, "href") == Some(resolveHref(c.outputPathRelative))
    ensures |r.children| == 2 && r.children[0].Element? && r.children[0].children == [Str(c.title)]
    ensures r.children[1].Element? <==> Truthy(c.description)
  {
    var attrs := [Class(ClassNames(["block p-4 rounded-lg transition-colors border", ThemeClass(theme, "category.cardBody")])),
                  Attr("href", resolveHref(c.outputPathRelative))];
    AttrValueFirst(attrs, 1, "href", resolveHref(c.outputPathRelative));
    E("a", attrs,
      [E("h2", [Class(ClassNames(["text-lg font-semibold mb-1", ThemeClass(theme, "category.cardHeaderText")]))], [Str(c.title)]),
       if Truthy(c.description) then
         E("p", [Class(Slot(theme, "category.cardDescriptionText").GetOr("text-sm text-gray-500"))], [Str(c.description.value)])
       else Empty])
  }

  /** The version label as the page heading. */
  function VersionHeading(theme: Theme, ix: NavigationIndex): Node
  {
    E("h1", [Class(ClassNames(["text-3xl font-bold mb-4", ThemeClass(theme, "text.documentTitle")]))], [Str(ix.versionLabel)])
  }

  /**
   * With a non-empty tree: a section with the heading, an introduction and one card per
   * top-level category in tree order. With an empty tree: the heading alone.
   */
  function CategorySection(theme: Theme, ix: NavigationIndex, resolveHref: HrefResolver): (r: Node)
    ensures ix.tree == [] ==> r == VersionHeading(theme, ix)
    ensures ix.tree != [] ==>
      r.Element? && r.tag == "section" && |r.children| == 3 && r.children[0] == VersionHeading(theme, ix)
      && r.children[2].Element? && |r.children[2].children| == |ix.tree|
      && forall i :: 0 <= i < |ix.tree| ==> r.children[2].children[i] == SummaryCard(theme, ix.tree[i], resolveHref)
  {
    if ix.tree != [] then
      E("section", [Class("mb-8")],
        [VersionHeading(theme, ix),
         E("p", [Class("text-gray-600 mb-6")], [Str("Browse documentation categories for this version.")]),
         E("div", [Class("grid gap-4 sm:grid-cols-2 lg:grid-cols-3")],
           seq(|ix.tree|, i requires 0 <= i < |ix.tree| => SummaryCard(theme, ix.tree[i], resolveHref)))])
    else VersionHeading(theme, ix)
  }

  /** One list item linking to a standalone document. */
  function StandaloneItem(theme: Theme, d: NavDocumentEntry, resolveHref: HrefResolver): Node
  {
    E("li", [],
      [E("a", [Class(ClassNames(["block px-3 py-1.5 rounded transition-colors text-sm",
                                 ThemeClass(theme, "navigation.row"), ThemeClass(theme, "navigation.rowHover")])),
               Attr("href", resolveHref(d.outputPathRelative))],
         [Str(d.title)])])
  }

  /** The standalone documents in order, under their own heading; nothing when there are none. */
  function StandaloneList(theme: Theme, ix: NavigationIndex, resolveHref: HrefResolver): (r: Node)
    ensures r.Element? <==> ix.standaloneDocuments != []
    ensures ix.standaloneDocuments == [] ==> Serialize(r) == ""
    ensures ix.standaloneDocuments != [] ==>
      |r.children| == 2 && r.children[1].Element? && |r.children[1].children| == |ix.standaloneDocuments|
      && forall i :: 0 <= i < |ix.standaloneDocuments| ==>
           r.children[1].children[i] == StandaloneItem(theme, ix.standaloneDocuments[i], resolveHref)
  {
    var docs := ix.standaloneDocuments;
    if |docs| > 0 then
      E("section", [],
        [E("h2", [Class("text-xl font-semibold mb-2")], [Str("Standalone Documents")]),
         E("ul", [Class("space-y-1")], seq(|docs|, i requires 0 <= i < |docs| => StandaloneItem(theme, docs[i], resolveHref)))])
    else Empty
  }

  /** The landing page's content. */
  function LandingContent(theme: Theme, ix: NavigationIndex, resolveHref: HrefResolver): Node
  {
    E("div", [Class("px-2 md:px-6")],
      [E("div", [Class("max-w-4xl mx-auto space-y-8")],
         [CategorySection(theme, ix, resolveHref), StandaloneList(theme, ix, resolveHref)])])
  }

  /**
   * The shell options of the landing page: titled by the version label, nothing active, and
   * a breadcrumb of one segment, the version label, shown as the current page.
   */
  function LandingPageOptions(ix: NavigationIndex, theme: Theme, branding: HeaderBranding, stylesheetHref: string,
                              additionalStylesheets: seq<string>, resolveHref: HrefResolver): (o: PageShellOptions)
    ensures o.title == ix.versionLabel && o.navIndex == ix && o.theme == theme
    ensures o.activeDocId == None && o.activeCategoryId == None && o.branding == Some(branding)
    ensures o.stylesheetHref == stylesheetHref && o.additionalStylesheets == additionalStylesheets
    ensures o.breadcrumb.Some? && TrailItems(o.breadcrumb.value) == [TrailItem(ix.versionLabel, None, true)]
    ensures o.mainContent == Serialize(LandingContent(theme, ix, resolveHref))
  {
    PageShellOptions(ix.versionLabel, Serialize(LandingContent(theme, ix, resolveHref)), ix, stylesheetHref,
      additionalStylesheets, resolveHref, Some([BreadcrumbSegment(ix.versionLabel, None)]), None, None, Some(branding), theme)
  }

  /** The whole landing page. */
  method RenderVersionLanding(assets: PageAssets, ix: NavigationIndex, theme: Theme, branding: HeaderBranding,
                              stylesheetHref: string, additionalStylesheets: seq<string>, resolveHref: HrefResolver)
    returns (html: string)
    ensures html == Serialize(PageShellOf(assets, LandingPageOptions(ix, theme, branding, stylesheetHref, additionalStylesheets, resolveHref)))
  {
    html := RenderPageShell(assets, LandingPageOptions(ix, theme, branding, stylesheetHref, additionalStylesheets, resolveHref));
  }
}
