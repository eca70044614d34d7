/**
 * The page of one category: a header with the title and the trail of its ancestors, the
 * category's own blocks when it has any, and a grid of cards, one per child category and
 * then one per document, inside the page shell with the category marked active.
 *
 * As on the document page, the caller renders the category's blocks (only when there are
 * any) in the context `CategoryContext` describes and hands the markup in as `blocksHtml`.
 */
module CategoryPage {
  import opened Wrappers
  import opened Text
  import opened Html
  import opened Docs
  import opened Helpers
  import opened Paths
  import opened Navigation
  import opened PageShell

  /** The context the category's blocks are rendered in: the theme, and the category id as the current path. */
  function CategoryContext(c: NavCategoryEntry, theme: Theme, resolveAssetHref: string -> string,
                           getChartAssetHref: Option<(ChartData, int) -> Option<ChartHref>>): (ctx: RenderContext)
    ensures ctx.styles == theme && ctx.currentPath == c.id
    ensures ctx.resolveAssetHref == Some(resolveAssetHref) && ctx.getChartAssetHref == getChartAssetHref
  {
    RenderContext(theme, c.id, Some(resolveAssetHref), getChartAssetHref)
  }

  // ---------------------------------------------------------------------------
  // Cards

  /** One card of the grid: what it links to, its heading, its description and its icon. */
  datatype Card = Card(title: string, href: string, description: Option<string>, icon: string)

  /** The cards of the child categories the index holds, in order. */
  function ChildCards(assets: PageAssets, ix: NavigationIndex, c: NavCategoryEntry, resolveHref: HrefResolver): (r: seq<Card>)
    ensures |r| == |Found(ix.categories, c.childCategories)|
  {
    var children := Found(ix.categories, c.childCategories);
    seq(|children|, i requires 0 <= i < |children| =>
      Card(children[i].title, resolveHref(children[i].outputPathRelative), children[i].description, assets.folderCardIcon))
  }

  /** The cards of the documents the index holds, in order. */
  function DocCards(assets: PageAssets, ix: NavigationIndex, c: NavCategoryEntry, resolveHref: HrefResolver): (r: seq<Card>)
    ensures |r| == |Found(ix.documents, c.docs)|
  {
    var docs := Found(ix.documents, c.docs);
    seq(|docs|, i requires 0 <= i < |docs| =>
      Card(docs[i].title, resolveHref(docs[i].outputPathRelative), docs[i].description, assets.fileCardIcon))
  }

  /** Child categories come first, then documents. */
  function CategoryCards(assets: PageAssets, ix: NavigationIndex, c: NavCategoryEntry, resolveHref: HrefResolver): seq<Card>
  {
    ChildCards(assets, ix, c, resolveHref) + DocCards(assets, ix, c, resolveHref)
  }

  /**
   * When the index holds every child and every document the category names, there is one
   * card per child in order, each linking to that child's page, then one per document.
   */
  lemma CardsFollowCategory(assets: PageAssets, ix: NavigationIndex, c: NavCategoryEntry, resolveHref: HrefResolver)
    requires forall id :: id in c.childCategories ==> id in ix.categories.entries
    requires forall id :: id in c.docs ==> id in ix.documents.entries
    ensures var cards := CategoryCards(assets, ix, c, resolveHref);
      var n := |c.childCategories|;
      |cards| == n + |c.docs|
      && (forall i :: 0 <= i < n ==>
            var child := ix.categories.entries[c.childCategories[i]];
            cards[i] == Card(child.title, resolveHref(child.outputPathRelative), child.description, assets.folderCardIcon))
      && (forall j :: 0 <= j < |c.docs| ==>
            var doc := ix.documents.entries[c.docs[j]];
            cards[n + j] == Card(doc.title, resolveHref(doc.outputPathRelative), doc.description, assets.fileCardIcon))
  {
    FoundAll(ix.categories, c.childCategories);
    FoundAll(ix.documents, c.docs);
  }

  /** The grid is empty exactly when none of the category's child or document ids is in the index. */
  lemma CardsEmptyIff(assets: PageAssets, ix: NavigationIndex, c: NavCategoryEntry, resolveHref: HrefResolver)
    ensures CategoryCards(assets, ix, c, resolveHref) == [] <==>
      (forall id :: id in c.childCategories ==> id !in ix.categories.entries)
      && (forall id :: id in c.docs ==> id !in ix.documents.entries)
  {
    FoundEmpty(ix.categories, c.childCategories);
    FoundEmpty(ix.documents, c.docs);
  }

  /** A card: the heading with its icon, then the description when it is a non-empty string. */
  function CardNode(theme: Theme, card: Card): (r: Node)
    ensures r.Element? && r.tag == "a" && AttrValue(r.attrs, "href") == Some(card.href)
    ensures |r.children| == 2 && (r.children[1].Element? <==> Truthy(card.description))
  {
    var description :=
      if Truthy(card.description) then
        E("p", [Class(Slot(theme, "category.cardDescriptionText").GetOr("text-sm text-gray-500"))], [Str(card.description.value)])
      else Empty;
    var attrs := [Class(ClassNames(["block p-4 rounded-lg transition-colors border", ThemeClass(theme, "category.cardBody")])),
                  Attr("href", card.href)];
    AttrValueFirst(attrs, 1, "href", card.href);
    E("a", attrs,
      [E("div", [Class(ClassNames(["flex items-center gap-2 mb-2", ThemeClass(theme, "category.cardHeaderText")]))],
         [E("span", [Class("shrink-0")], [Raw(card.icon)]), E("span", [Class("font-semibold")], [Str(card.title)])]),
       description])
  }

  /** The notice an empty category shows instead of the grid. */
  function EmptyNotice(theme: Theme): Node
  {
    E("p", [Class(Slot(theme, "category.empty").GetOr("text-sm text-gray-500"))], [Str("This category is empty.")])
  }

  /** The grid of cards in order, or the empty notice when there are no cards. */
  function CardsSection(theme: Theme, cards: seq<Card>): (r: Node)
    ensures cards == [] ==> r == EmptyNotice(theme)
    ensures cards != [] ==>
      r.Element? && r.tag == "div" && |r.children| == |cards|
      && forall i :: 0 <= i < |cards| ==> r.children[i] == CardNode(theme, cards[i])
  {
    if cards == [] then EmptyNotice(theme)
    else E("div", [Class("grid gap-4 sm:grid-cols-2 lg:grid-cols-3")],
           seq(|cards|, i requires 0 <= i < |cards| => CardNode(theme, cards[i])))
  }

  // ---------------------------------------------------------------------------
  // The page

  /** The category's own blocks, wrapped; nothing at all when the category has no blocks. */
  function ContentSection(c: NavCategoryEntry, blocksHtml: string): (r: Node)
    ensures r.Element? <==> c.content != []
    ensures c.content == [] ==> Serialize(r) == ""
    ensures c.content != [] ==> r.children == [Raw(blocksHtml)]
  {
    if c.content != [] then E("div", [Class("space-y-4 mb-8")], [Raw(blocksHtml)]) else Empty
  }

  /** The breadcrumb of a category: its ancestors in the index, then its own title. */
  function CategoryTrail(ix: NavigationIndex, c: NavCategoryEntry, resolveHref: HrefResolver): seq<BreadcrumbSegment>
  {
    AncestorTrail(ix, c.ancestorCategoryIds, c.title, resolveHref)
  }

  /** The article: the header with the folder icon, title and breadcrumb, then the blocks and the cards. */
  function CategoryArticle(assets: PageAssets, theme: Theme, ix: NavigationIndex, c: NavCategoryEntry,
                           resolveHref: HrefResolver, blocksHtml: string): Node
  {
    E("article", [],
      [E("div", [Class(ClassNames(["flex flex-col gap-1 items-center py-2 mb-4", ThemeClass(theme, "sections.documentHeaderBackground")]))],
         [E("div", [Class(ClassNames(["flex items-center gap-2", ThemeClass(theme, "text.documentTitle")]))],
            [Raw(assets.folderHeaderIcon), E("h1", [Attr("aria-label", c.title)], [Str(c.title)])]),
          BreadcrumbNav(PageTrailStyle(theme), CategoryTrail(ix, c, resolveHref))]),
       E("div", [Class("px-2 md:px-6")],
         [E("div", [Class("max-w-4xl mx-auto")],
            [ContentSection(c, blocksHtml), CardsSection(theme, CategoryCards(assets, ix, c, resolveHref))])])])
  }

  /** The shell options of a category page: titled by the category, with the category active and no shell breadcrumb. */
  function CategoryPageOptions(assets: PageAssets, c: NavCategoryEntry, ix: NavigationIndex, theme: Theme,
                               branding: HeaderBranding, stylesheetHref: string, additionalStylesheets: seq<string>,
                               resolveHref: HrefResolver, blocksHtml: string): (o: PageShellOptions)
    ensures o.title == c.title && o.navIndex == ix && o.theme == theme
    ensures o.activeDocId == None && o.activeCategoryId == Some(c.id)
    ensures o.breadcrumb == None && o.branding == Some(branding)
    ensures o.stylesheetHref == stylesheetHref && o.additionalStylesheets == additionalStylesheets
  {
    CategoryShellOptions(c, ix, theme, branding, stylesheetHref, additionalStylesheets, resolveHref,
      Serialize(CategoryArticle(assets, theme, ix, c, resolveHref, blocksHtml)))
  }

  /** The shell options of a category page around its already serialized article. */
  function CategoryShellOptions(c: NavCategoryEntry, ix: NavigationIndex, theme: Theme, branding: HeaderBranding,
                                stylesheetHref: string, additionalStylesheets: seq<string>, resolveHref: HrefResolver,
                                mainContent: string): (o: PageShellOptions)
    ensures o.title == c.title && o.navIndex == ix && o.theme == theme && o.mainContent == mainContent
    ensures o.activeDocId == None && o.activeCategoryId == Some(c.id)
    ensures o.breadcrumb == None && o.branding == Some(branding)
    ensures o.stylesheetHref == stylesheetHref && o.additionalStylesheets == additionalStylesheets
  {
    PageShellOptions(c.title, mainContent, ix, stylesheetHref, additionalStylesheets, resolveHref, None, None, Some(c.id),
      Some(branding), theme)
  }

  /** The whole category page. */
  method RenderCategoryPage(assets: PageAssets, c: NavCategoryEntry, ix: NavigationIndex, theme: Theme,
                            branding: HeaderBranding, stylesheetHref: string, additionalStylesheets: seq<string>,
                            resolveHref: HrefResolver, blocksHtml: string) returns (html: string)
    ensures html == Serialize(PageShellOf(assets, CategoryPageOptions(assets, c, ix, theme, branding, stylesheetHref,
                                                                     additionalStylesheets, resolveHref, blocksHtml)))
  {
    html := RenderPageShell(assets, CategoryPageOptions(assets, c, ix, theme, branding, stylesheetHref,
                                                        additionalStylesheets, resolveHref, blocksHtml));
  }

  /**
   * For a category of a well-formed index: the trail has one segment per breadcrumb entry,
   * every ancestor segment links to that category's page (when hrefs are never empty), the
   * last is the category itself, and the sidebar expands the category and its ancestors.
   */
  lemma CategoryPageInIndex(ix: NavigationIndex, c: NavCategoryEntry, resolveHref: HrefResolver)
    requires WellFormed(NavState(ix.categories, ix.documents))
    requires c.id != "" && c.id in ix.categories.entries && ix.categories.entries[c.id] == c
    requires forall p :: resolveHref(p) != ""
    ensures var items := TrailItems(CategoryTrail(ix, c, resolveHref));
      |items| == |c.breadcrumb|
      && items[|items| - 1] == TrailItem(c.title, None, true)
      && forall i :: 0 <= i < |c.ancestorCategoryIds| ==>
           items[i].link == Some(resolveHref(ix.categories.entries[c.ancestorCategoryIds[i]].outputPathRelative))
    ensures ExpandedIds(ix, Selection(None, Some(c.id))) == {c.id} + IdSet(c.ancestorCategoryIds)
  {
    assert Linked(c.breadcrumb, c.ancestorCategoryIds, c.parentCategoryId);
    assert Closed(c.ancestorCategoryIds, ix.categories.entries);
    AncestorTrailLinks(ix, c.ancestorCategoryIds, c.title, resolveHref);
  }
}
