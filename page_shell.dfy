/**
 * The page shell every generated page shares: the header with the logo, the sidebar with
 * the standalone documents and the category tree, the optional breadcrumb trail and the
 * page's own content.
 *
 * The sidebar is built in two steps. `CategoryViewOf` decides, for each category the tree
 * reaches, which docs and children it lists, whether it is the active row and whether it
 * starts expanded; `CategoryNode` turns that view into markup. The breadcrumb goes the same
 * way: `TrailItems` decides which segments are links and which one is the current page,
 * `BreadcrumbNav` writes them out.
 */
module PageShell {
  import opened Wrappers
  import opened Text
  import opened Html
  import opened Docs
  import opened Helpers
  import OrderedMaps
  import opened Paths
  import opened Navigation

  datatype BreadcrumbSegment = BreadcrumbSegment(text: string, href: Option<string>)

  datatype HeaderBranding = HeaderBranding(logoText: Option<string>, logoAlt: Option<string>, logoSrc: Option<string>)

  /** The fixed markup the pages inline: their SVG icons and the client-side navigation script. */
  datatype PageAssets = PageAssets(
    folderIcon: string, fileTextIcon: string, caretDownIcon: string,
    listIcon: string, menuIcon: string, closeIcon: string, githubIcon: string,
    fileHeaderIcon: string, folderHeaderIcon: string, folderCardIcon: string, fileCardIcon: string,
    navigationScript: string)

  /** `(targetRelative) => href`: the href of a page from the current one. */
  type HrefResolver = Path -> string

  /** A theme slot, or `""` when the theme does not define it. */
  function ThemeClass(theme: Theme, key: string): string
  {
    Slot(theme, key).GetOr("")
  }

  // ---------------------------------------------------------------------------
  // Expanded categories

  /** The active page of the shell: a document, a category, or neither. */
  datatype Selection = Selection(activeDocId: Option<string>, activeCategoryId: Option<string>)

  /** The ids of a list, as a set. */
  function IdSet(ids: seq<string>): (r: set<string>)
    ensures forall a :: a in r <==> a in ids
  {
    set a | a in ids
  }

  /** What the active document opens: its parent (when set) and its ancestors. */
  function DocExpansion(ix: NavigationIndex, activeDocId: Option<string>): set<string>
  {
    match activeDocId
    case Some(id) =>
      if id != "" && id in ix.documents.entries then
        var d := ix.documents.entries[id];
        (if Truthy(d.parentCategoryId) then {d.parentCategoryId.value} else {}) + IdSet(d.ancestorCategoryIds)
      else {}
    case None => {}
  }

  /** What the active category opens: itself and its ancestors. */
  function CategoryExpansion(ix: NavigationIndex, activeCategoryId: Option<string>): set<string>
  {
    match activeCategoryId
    case Some(id) =>
      if id != "" && id in ix.categories.entries then
        var c := ix.categories.entries[id];
        {c.id} + IdSet(c.ancestorCategoryIds)
      else {}
    case None => {}
  }

  /** The categories whose sidebar entry starts expanded. */
  function ExpandedIds(ix: NavigationIndex, sel: Selection): set<string>
  {
    DocExpansion(ix, sel.activeDocId) + CategoryExpansion(ix, sel.activeCategoryId)
  }

  /** `ids.forEach((id) => expanded.add(id))`. */
  method AddAll(s: set<string>, ids: seq<string>) returns (r: set<string>)
    ensures r == s + IdSet(ids)
  {
    r := s;
    for i := 0 to |ids|
      invariant r == s + IdSet(ids[..i])
    {
      assert ids[..i + 1] == ids[..i] + [ids[i]];
      r := r + {ids[i]};
    }
    assert ids[..|ids|] == ids;
  }

  /** `computeExpandedCategoryIds`. */
  method ComputeExpandedCategoryIds(ix: NavigationIndex, sel: Selection) returns (expanded: set<string>)
    ensures expanded == ExpandedIds(ix, sel)
  {
    expanded := {};
    if Truthy(sel.activeDocId) {
      var activeDoc := ix.documents.Get(sel.activeDocId.value);
      if activeDoc.Some? {
        if Truthy(activeDoc.value.parentCategoryId) {
          expanded := expanded + {activeDoc.value.parentCategoryId.value};
        }
        expanded := AddAll(expanded, activeDoc.value.ancestorCategoryIds);
      }
    }
    ghost var fromDoc := expanded;
    if Truthy(sel.activeCategoryId) {
      var activeCategory := ix.categories.Get(sel.activeCategoryId.value);
      if activeCategory.Some? {
        expanded := expanded + {activeCategory.value.id};
        expanded := AddAll(expanded, activeCategory.value.ancestorCategoryIds);
      }
    }
    assert fromDoc == DocExpansion(ix, sel.activeDocId);
  }

  /** Ids that are empty or unknown expand nothing. */
  lemma ExpandedUnknown(ix: NavigationIndex, sel: Selection)
    requires !Truthy(sel.activeDocId) || sel.activeDocId.value !in ix.documents.entries
    requires !Truthy(sel.activeCategoryId) || sel.activeCategoryId.value !in ix.categories.entries
    ensures ExpandedIds(ix, sel) == {}
  {
  }

  /**
   * In a well-formed index whose category entries are stored under their own ids, every
   * expanded id is a category of the index.
   */
  lemma ExpandedAreCategories(ix: NavigationIndex, sel: Selection)
    requires WellFormed(NavState(ix.categories, ix.documents)) && KeyedById(ix.categories.entries)
    ensures forall id :: id in ExpandedIds(ix, sel) ==> id in ix.categories.entries
  {
    var cats := ix.categories.entries;
    match sel.activeDocId
    case Some(id) =>
      if id != "" && id in ix.documents.entries {
        var d := ix.documents.entries[id];
        assert Linked(d.breadcrumb, d.ancestorCategoryIds, d.parentCategoryId) && Closed(d.ancestorCategoryIds, cats);
      }
    case None =>
    match sel.activeCategoryId
    case Some(id) =>
      if id != "" && id in cats {
        var c := cats[id];
        assert Closed(c.ancestorCategoryIds, cats);
      }
    case None =>
  }

  /** For a known active document the parent adds nothing: the expanded set is its ancestors. */
  lemma ExpandedForDocument(ix: NavigationIndex, id: string)
    requires WellFormed(NavState(ix.categories, ix.documents))
    requires id != "" && id in ix.documents.entries
    ensures ExpandedIds(ix, Selection(Some(id), None)) == IdSet(ix.documents.entries[id].ancestorCategoryIds)
  {
    var d := ix.documents.entries[id];
    assert Linked(d.breadcrumb, d.ancestorCategoryIds, d.parentCategoryId);
    if d.parentCategoryId.Some? {
      assert d.parentCategoryId.value in d.ancestorCategoryIds;
    }
  }

  /** In the index the navigation builder produces, every expanded id is a category. */
  lemma ExpandedInBuiltIndex(entry: VersionRenderEntry, publicDataPath: string, sel: Selection)
    ensures var ix := NavigationIndexOf(entry, publicDataPath);
      forall id :: id in ExpandedIds(ix, sel) ==> id in ix.categories.entries
  {
    IndexWellFormed(entry, publicDataPath);
    IndexKeyedById(entry, publicDataPath);
    ExpandedAreCategories(NavigationIndexOf(entry, publicDataPath), sel);
  }

  // ---------------------------------------------------------------------------
  // Breadcrumb trail

  /** How a segment shows: its label, the link it carries (if any), and whether it is the current page. */
  datatype TrailItem = TrailItem(text: string, link: Option<string>, current: bool)

  function TrailItemAt(segments: seq<BreadcrumbSegment>, i: nat): TrailItem
    requires i < |segments|
  {
    var isLast := i == |segments| - 1;
    TrailItem(segments[i].text, if Truthy(segments[i].href) && !isLast then segments[i].href else None, isLast)
  }

  /**
   * The items of a trail, one per segment in order. The last is the current page and never a
   * link; every other item links to its segment's href when that href is not empty.
   */
  function TrailItems(segments: seq<BreadcrumbSegment>): (r: seq<TrailItem>)
    ensures |r| == |segments|
    ensures forall i :: 0 <= i < |r| ==> r[i].text == segments[i].text
    ensures forall i :: 0 <= i < |r| ==> (r[i].current <==> i == |r| - 1)
    ensures forall i :: 0 <= i < |r| ==> (r[i].link.Some? <==> !r[i].current && Truthy(segments[i].href))
    ensures forall i :: 0 <= i < |r| && r[i].link.Some? ==> r[i].link == segments[i].href
  {
    seq(|segments|, i requires 0 <= i < |segments| => TrailItemAt(segments, i))
  }

  /** The classes a page gives its breadcrumb; the shell and the content pages differ. */
  datatype TrailStyle = TrailStyle(
    navClass: string, listClass: string, itemClass: string, linkClass: string,
    currentSpan: seq<Attr>, plainSpan: seq<Attr>)

  /** The trail style of `renderBreadcrumbTrail`. */
  function ShellTrailStyle(theme: Theme): TrailStyle
  {
    TrailStyle("mb-4", "flex flex-wrap gap-2 text-sm",
      ClassNames([ThemeClass(theme, "text.breadcrumb"), "flex items-center gap-2"]), "hover:underline", [], [])
  }

  /** One `<li>`: a link or a span with the label, then a separator unless it is the current page. */
  function TrailItemNode(style: TrailStyle, it: TrailItem): Node
  {
    var content :=
      match it.link
      case Some(h) => E("a", [Class(style.linkClass), Attr("href", h)], [Str(it.text)])
      case None => E("span", if it.current then style.currentSpan else style.plainSpan, [Str(it.text)]);
    var separator := if it.current then Empty else E("span", [Attr("aria-hidden", "true")], [Str("/")]);
    E("li", [Class(style.itemClass)] + (if it.current then [Attr("aria-current", "page")] else []), [content, separator])
  }

  function TrailNodes(style: TrailStyle, items: seq<TrailItem>): (r: seq<Node>)
    ensures |r| == |items|
    ensures forall i :: 0 <= i < |items| ==> r[i] == TrailItemNode(style, items[i])
  {
    seq(|items|, i requires 0 <= i < |items| => TrailItemNode(style, items[i]))
  }

  /** `renderBreadcrumbTrail`, and the inline trails of the document and category pages. */
  function BreadcrumbNav(style: TrailStyle, segments: seq<BreadcrumbSegment>): Node
  {
    if segments == [] then Empty
    else
      E("nav", [Attr("aria-label", "Breadcrumb"), Class(style.navClass)],
        [E("ol", [Class(style.listClass)], TrailNodes(style, TrailItems(segments)))])
  }

  /**
   * An empty trail is no markup at all. Otherwise the list holds one `<li>` per segment in
   * order; an item carries `aria-current="page"` exactly when it is the last, starts with an
   * `<a>` exactly when it is a link, and ends with a separator exactly when it is not the last.
   */
  lemma BreadcrumbShape(style: TrailStyle, segments: seq<BreadcrumbSegment>)
    ensures segments == [] ==> Serialize(BreadcrumbNav(style, segments)) == ""
    ensures segments != [] ==>
      var list := BreadcrumbNav(style, segments).children[0];
      var items := TrailItems(segments);
      |list.children| == |segments|
      && forall i :: 0 <= i < |segments| ==>
           (HasAttr(list.children[i].attrs, "aria-current") <==> i == |segments| - 1)
           && (list.children[i].children[0].tag == "a" <==> items[i].link.Some?)
           && (list.children[i].children[1] == Empty <==> i == |segments| - 1)
  {
    if segments != [] {
      var items := TrailItems(segments);
      forall i | 0 <= i < |segments|
        ensures HasAttr(TrailItemNode(style, items[i]).attrs, "aria-current") <==> i == |segments| - 1
      {
        var mark := if items[i].current then [Attr("aria-current", "page")] else [];
        AttrValueAppend([Class(style.itemClass)], mark, "aria-current");
      }
    }
  }

  /** The trail style the document and category pages use for their own breadcrumb. */
  function PageTrailStyle(theme: Theme): TrailStyle
  {
    TrailStyle("flex justify-center",
      ClassNames(["flex flex-wrap items-center justify-center gap-2 text-sm", ThemeClass(theme, "text.breadcrumb")]),
      "flex items-center gap-2",
      "hover:underline focus:outline-none focus-visible:ring-2 focus-visible:ring-offset-2 focus-visible:ring-current rounded transition-colors",
      [Class("cursor-default")], [Class("hover:underline")])
  }

  /**
   * The breadcrumb segments of a document or category page: its ancestors that the index
   * holds, in order, each linked to its page, then the page's own title without a link.
   */
  function AncestorTrail(ix: NavigationIndex, ancestorIds: seq<string>, title: string, resolveHref: HrefResolver): (r: seq<BreadcrumbSegment>)
    ensures |r| == |Found(ix.categories, ancestorIds)| + 1
    ensures r[|r| - 1] == BreadcrumbSegment(title, None)
    ensures forall i :: 0 <= i < |r| - 1 ==>
      r[i] == BreadcrumbSegment(Found(ix.categories, ancestorIds)[i].title, Some(resolveHref(Found(ix.categories, ancestorIds)[i].outputPathRelative)))
  {
    var parents := Found(ix.categories, ancestorIds);
    seq(|parents|, i requires 0 <= i < |parents| => BreadcrumbSegment(parents[i].title, Some(resolveHref(parents[i].outputPathRelative))))
      + [BreadcrumbSegment(title, None)]
  }

  /**
   * When every ancestor is in the index, the trail has one segment per breadcrumb entry of the
   * page; when hrefs are never empty, every segment but the last is a link to its category's page.
   */
  lemma AncestorTrailLinks(ix: NavigationIndex, ancestorIds: seq<string>, title: string, resolveHref: HrefResolver)
    requires Closed(ancestorIds, ix.categories.entries)
    requires forall p :: resolveHref(p) != ""
    ensures |AncestorTrail(ix, ancestorIds, title, resolveHref)| == |ancestorIds| + 1
    ensures var items := TrailItems(AncestorTrail(ix, ancestorIds, title, resolveHref));
      forall i :: 0 <= i < |ancestorIds| ==>
        items[i].link == Some(resolveHref(ix.categories.entries[ancestorIds[i]].outputPathRelative))
        && items[i].text == ix.categories.entries[ancestorIds[i]].title
  {
    FoundAll(ix.categories, ancestorIds);
  }

  // ---------------------------------------------------------------------------
  // Sidebar

  /** A document link of the sidebar. */
  datatype DocLinkView = DocLinkView(title: string, href: string, active: bool, nested: bool)

  /** A category of the sidebar, with the docs and children it lists. */
  datatype CategoryView = CategoryView(
    id: string, title: string, href: string, nested: bool, active: bool, expanded: bool,
    docs: seq<DocLinkView>, children: seq<CategoryView>)
  {
    /** Whether there is anything to fold: a listed doc or a listed child. */
    predicate HasNestedContent()
    {
      docs != [] || children != []
    }
  }

  /** The entries of the ids the map holds, in order: ids `map.get` misses are skipped. */
  function Found<V>(m: OrderedMaps.OrderedMap<string, V>, ids: seq<string>): (r: seq<V>)
    ensures |r| <= |ids|
  {
    if ids == [] then []
    else if ids[0] in m.entries then [m.entries[ids[0]]] + Found(m, ids[1..])
    else Found(m, ids[1..])
  }

  /** Nothing is found exactly when no id is a key. */
  lemma {:induction false} FoundEmpty<V>(m: OrderedMaps.OrderedMap<string, V>, ids: seq<string>)
    ensures Found(m, ids) == [] <==> forall id :: id in ids ==> id !in m.entries
  {
    if ids != [] {
      FoundEmpty(m, ids[1..]);
      assert forall id :: id in ids[1..] ==> id in ids;
      assert forall id :: id in ids ==> id == ids[0] || id in ids[1..];
    }
  }

  /** When every id is a key, the entries are found one for one, in order. */
  lemma {:induction false} FoundAll<V>(m: OrderedMaps.OrderedMap<string, V>, ids: seq<string>)
    requires forall id :: id in ids ==> id in m.entries
    ensures |Found(m, ids)| == |ids|
    ensures forall i :: 0 <= i < |ids| ==> Found(m, ids)[i] == m.entries[ids[i]]
  {
    if ids != [] {
      assert forall id :: id in ids[1..] ==> id in ids;
      FoundAll(m, ids[1..]);
    }
  }

  /** The active page and the expanded set, as `renderCategoryNode` receives them. */
  datatype NodeOptions = NodeOptions(sel: Selection, expanded: set<string>)

  /** `renderDocLink`'s decisions for one document at the given depth. */
  function DocLinkViewOf(d: NavDocumentEntry, activeDocId: Option<string>, resolveHref: HrefResolver, depth: nat): (r: DocLinkView)
    ensures r.active <==> activeDocId == Some(d.id)
    ensures r.nested <==> depth > 0
  {
    DocLinkView(d.title, resolveHref(d.outputPathRelative), activeDocId == Some(d.id), depth > 0)
  }

  function DocLinkViews(ds: seq<NavDocumentEntry>, activeDocId: Option<string>, resolveHref: HrefResolver, depth: nat): (r: seq<DocLinkView>)
    ensures |r| == |ds|
    ensures forall i :: 0 <= i < |ds| ==> r[i] == DocLinkViewOf(ds[i], activeDocId, resolveHref, depth)
  {
    seq(|ds|, i requires 0 <= i < |ds| => DocLinkViewOf(ds[i], activeDocId, resolveHref, depth))
  }

  /**
   * `renderCategoryNode`'s decisions for a category at the given depth. `fuel` bounds the
   * nesting: a category reached with no fuel left lists no children.
   */
  function CategoryViewOf(ix: NavigationIndex, c: NavCategoryEntry, opts: NodeOptions, resolveHref: HrefResolver, depth: nat, fuel: nat): (r: CategoryView)
    ensures r.id == c.id && r.title == c.title
    ensures r.expanded <==> c.id in opts.expanded
    ensures r.active <==> opts.sel.activeCategoryId == Some(c.id)
    ensures r.docs == DocLinkViews(Found(ix.documents, c.docs), opts.sel.activeDocId, resolveHref, depth + 1)
    ensures |r.children| == if fuel == 0 then 0 else |Found(ix.categories, c.childCategories)|
    decreases fuel
  {
    var children := if fuel == 0 then [] else Found(ix.categories, c.childCategories);
    CategoryView(c.id, c.title, resolveHref(c.outputPathRelative), depth > 0,
      opts.sel.activeCategoryId == Some(c.id), c.id in opts.expanded,
      DocLinkViews(Found(ix.documents, c.docs), opts.sel.activeDocId, resolveHref, depth + 1),
      seq(|children|, i requires 0 <= i < |children| => CategoryViewOf(ix, children[i], opts, resolveHref, depth + 1, fuel - 1)))
  }

  /**
   * A category has something to fold exactly when one of its doc ids or (with fuel left) one
   * of its child ids is found in the index.
   */
  lemma NestedIffResolvable(ix: NavigationIndex, c: NavCategoryEntry, opts: NodeOptions, resolveHref: HrefResolver, depth: nat, fuel: nat)
    requires fuel > 0
    ensures CategoryViewOf(ix, c, opts, resolveHref, depth, fuel).HasNestedContent()
      <==> (exists id :: id in c.docs && id in ix.documents.entries)
           || (exists id :: id in c.childCategories && id in ix.categories.entries)
  {
    FoundEmpty(ix.documents, c.docs);
    FoundEmpty(ix.categories, c.childCategories);
  }

  const DocRowBase := "flex items-center gap-2 px-2 py-1 cursor-pointer transition-colors"
  const CategoryRowBase := "flex items-center justify-between px-2 py-1 cursor-pointer transition-colors gap-2"
  const ToggleClass := "shrink-0 p-1 rounded focus:outline-none focus-visible:ring-2 focus-visible:ring-offset-2 focus-visible:ring-gray-400 text-gray-500 hover:text-gray-700 transition"

  /** The class of a sidebar row: the base, the depth class, the theme's row class, then the active or the hover class. */
  function RowClass(theme: Theme, base: string, nested: bool, active: bool): string
  {
    ClassNames([base, if nested then "text-sm" else "text-base", ThemeClass(theme, "navigation.row"),
      if active then ThemeClass(theme, "navigation.rowActive") else "",
      if active then "" else ThemeClass(theme, "navigation.rowHover")])
  }

  /** An active row ends with the theme's active class, any other row with its hover class. */
  lemma RowClassChoice(theme: Theme, base: string, nested: bool, active: bool)
    ensures RowClass(theme, base, nested, active)
      == ClassNames([base, if nested then "text-sm" else "text-base", ThemeClass(theme, "navigation.row"),
           if active then ThemeClass(theme, "navigation.rowActive") else ThemeClass(theme, "navigation.rowHover")])
  {
    var head := [base, if nested then "text-sm" else "text-base", ThemeClass(theme, "navigation.row")];
    var on := ThemeClass(theme, "navigation.rowActive");
    var off := ThemeClass(theme, "navigation.rowHover");
    assert [""][1..] == [];
    assert NonEmpty([""]) == [];
    if active {
      assert head + [on] + [""] == [base, if nested then "text-sm" else "text-base", ThemeClass(theme, "navigation.row"), on, ""];
      NonEmptyAppend(head + [on], [""]);
      assert NonEmpty(head + [on] + [""]) == NonEmpty(head + [on]);
      assert head + [on] == [base, if nested then "text-sm" else "text-base", ThemeClass(theme, "navigation.row"), on];
    } else {
      assert head + [""] + [off] == [base, if nested then "text-sm" else "text-base", ThemeClass(theme, "navigation.row"), "", off];
      NonEmptyAppend(head + [""], [off]);
      NonEmptyAppend(head, [""]);
      NonEmptyAppend(head, [off]);
      assert NonEmpty(head + [""] + [off]) == NonEmpty(head + [off]);
      assert head + [off] == [base, if nested then "text-sm" else "text-base", ThemeClass(theme, "navigation.row"), off];
    }
  }

  /** `renderDocLink`. */
  function DocLinkNode(assets: PageAssets, theme: Theme, v: DocLinkView): Node
  {
    E("a", [Class(RowClass(theme, DocRowBase, v.nested, v.active)), Attr("href", v.href)],
      [E("span", [Class("shrink-0")], [Raw(assets.fileTextIcon)]), E("span", [Class("truncate")], [Str(v.title)])])
  }

  /** The fold button: present only with nested content; its caret is turned while collapsed. */
  function ToggleButton(assets: PageAssets, v: CategoryView): Node
  {
    if !v.HasNestedContent() then Empty
    else
      E("button",
        [Attr("type", "button"), Class(ToggleClass), Attr("data-category-toggle", v.id),
         Attr("aria-label", "Toggle " + v.title), Attr("aria-expanded", if v.expanded then "true" else "false")],
        [E("span", [Class("block transition-transform"), Attr("data-category-caret", v.id)]
                     + (if v.expanded then [] else [Attr("style", "transform: rotate(-90deg);")]),
           [Raw(assets.caretDownIcon)])])
  }

  /** The row of a category: its link (tagged for the script when it has nested content) and the fold button. */
  function CategoryHeader(assets: PageAssets, theme: Theme, v: CategoryView): Node
  {
    E("div", [Class(RowClass(theme, CategoryRowBase, v.nested, v.active))],
      [E("a", [Class("flex items-center gap-2 flex-1"), Attr("href", v.href)]
                + (if v.HasNestedContent() then [Attr("data-category-link", v.id)] else []),
         [E("span", [Class("shrink-0")], [Raw(assets.folderIcon)]), E("span", [Class("truncate")], [Str(v.title)])]),
       ToggleButton(assets, v)])
  }

  /** The folding container of a category's doc list and child list, hidden while collapsed. */
  function NestedContent(assets: PageAssets, theme: Theme, v: CategoryView, childNodes: seq<Node>): Node
  {
    if !v.HasNestedContent() then Empty
    else
      var docItems := seq(|v.docs|, i requires 0 <= i < |v.docs| => E("li", [], [DocLinkNode(assets, theme, v.docs[i])]));
      var docList := if docItems == [] then Empty else E("ul", [Class("ml-5 space-y-1")], docItems);
      var childList := if childNodes == [] then Empty else E("ul", [Class("space-y-1")], childNodes);
      E("div", [Class("space-y-2"), Attr("data-category-children", v.id)]
                 + (if v.expanded then [] else [Attr("style", "display:none;")]),
        [docList, childList])
  }

  /** `renderCategoryNode`. */
  function CategoryNode(assets: PageAssets, theme: Theme, v: CategoryView): Node
    decreases v
  {
    var childNodes := seq(|v.children|, i requires 0 <= i < |v.children| => CategoryNode(assets, theme, v.children[i]));
    E("li", [Class(ClassNames(["space-y-1", if v.nested then "ml-4" else ""]))],
      [CategoryHeader(assets, theme, v), NestedContent(assets, theme, v, childNodes)])
  }

  /** The category link is tagged for the script exactly when there is nested content. */
  lemma CategoryLinkTagged(assets: PageAssets, theme: Theme, v: CategoryView)
    ensures var header := CategoryHeader(assets, theme, v);
      |header.children| == 2 && header.children[0].Element?
      && (HasAttr(header.children[0].attrs, "data-category-link") <==> v.HasNestedContent())
  {
    var linkAttrs := [Class("flex items-center gap-2 flex-1"), Attr("href", v.href)];
    var extra := if v.HasNestedContent() then [Attr("data-category-link", v.id)] else [];
    AttrValueAbsent(linkAttrs, "data-category-link");
    AttrValueAppend(linkAttrs, extra, "data-category-link");
  }

  /** The fold button exists exactly with nested content; it reports and shows the folding state. */
  lemma ToggleShape(assets: PageAssets, v: CategoryView)
    ensures ToggleButton(assets, v).Element? <==> v.HasNestedContent()
    ensures v.HasNestedContent() ==>
      var toggle := ToggleButton(assets, v);
      AttrValue(toggle.attrs, "aria-expanded") == Some(if v.expanded then "true" else "false")
      && |toggle.children| == 1 && toggle.children[0].Element?
      && (HasAttr(toggle.children[0].attrs, "style") <==> !v.expanded)
  {
    if v.HasNestedContent() {
      var state := if v.expanded then "true" else "false";
      var toggleAttrs := [Attr("type", "button"), Class(ToggleClass), Attr("data-category-toggle", v.id),
         Attr("aria-label", "Toggle " + v.title), Attr("aria-expanded", state)];
      AttrValueFirst(toggleAttrs, 4, "aria-expanded", state);
      var caretAttrs := [Class("block transition-transform"), Attr("data-category-caret", v.id)];
      var turn: seq<Attr> := if v.expanded then [] else [Attr("style", "transform: rotate(-90deg);")];
      AttrValueAbsent(caretAttrs, "style");
      AttrValueAppend(caretAttrs, turn, "style");
    }
  }

  /** The folding container exists exactly with nested content, and is hidden exactly while collapsed. */
  lemma NestedShape(assets: PageAssets, theme: Theme, v: CategoryView, childNodes: seq<Node>)
    ensures NestedContent(assets, theme, v, childNodes).Element? <==> v.HasNestedContent()
    ensures v.HasNestedContent() ==> (HasAttr(NestedContent(assets, theme, v, childNodes).attrs, "style") <==> !v.expanded)
  {
    if v.HasNestedContent() {
      var boxAttrs := [Class("space-y-2"), Attr("data-category-children", v.id)];
      var collapse: seq<Attr> := if v.expanded then [] else [Attr("style", "display:none;")];
      AttrValueAbsent(boxAttrs, "style");
      AttrValueAppend(boxAttrs, collapse, "style");
    }
  }

  /**
   * The link carries `data-category-link`, and the fold button and the folding container are
   * present, exactly when the category has nested content. Then the button says
   * `aria-expanded="true"` exactly when the category is expanded, and the caret is turned and
   * the container hidden exactly when it is not.
   */
  lemma CategoryNodeShape(assets: PageAssets, theme: Theme, v: CategoryView)
    ensures var node := CategoryNode(assets, theme, v);
      |node.children| == 2 && node.children[0] == CategoryHeader(assets, theme, v)
      && var header := node.children[0];
      var toggle := header.children[1];
      var nested := node.children[1];
      (HasAttr(header.children[0].attrs, "data-category-link") <==> v.HasNestedContent())
      && (toggle.Element? <==> v.HasNestedContent())
      && (nested.Element? <==> v.HasNestedContent())
      && (v.HasNestedContent() ==>
            AttrValue(toggle.attrs, "aria-expanded") == Some(if v.expanded then "true" else "false")
            && (HasAttr(toggle.children[0].attrs, "style") <==> !v.expanded)
            && (HasAttr(nested.attrs, "style") <==> !v.expanded))
  {
    var childNodes := seq(|v.children|, i requires 0 <= i < |v.children| => CategoryNode(assets, theme, v.children[i]));
    assert CategoryNode(assets, theme, v).children == [CategoryHeader(assets, theme, v), NestedContent(assets, theme, v, childNodes)];
    CategoryLinkTagged(assets, theme, v);
    ToggleShape(assets, v);
    NestedShape(assets, theme, v, childNodes);
  }

  /** The sidebar's "Standalone" section: one link per standalone document, none when there are none. */
  function StandaloneSection(assets: PageAssets, theme: Theme, ix: NavigationIndex, sel: Selection, resolveHref: HrefResolver): (r: Node)
    ensures r.Element? <==> ix.standaloneDocuments != []
    ensures r.Element? ==> |r.children| == 2 && r.children[1].Element? && |r.children[1].children| == |ix.standaloneDocuments|
  {
    var docs := ix.standaloneDocuments;
    var items := seq(|docs|, i requires 0 <= i < |docs| =>
      E("li", [], [DocLinkNode(assets, theme, DocLinkViewOf(docs[i], sel.activeDocId, resolveHref, 0))]));
    if items == [] then Empty
    else
      E("section", [Class("space-y-2")],
        [E("h2", [Class("text-xs uppercase tracking-wide text-gray-500")], [Str("Standalone")]),
         E("ul", [Class("space-y-1")], items)])
  }

  /**
   * The nesting bound of the sidebar: the number of categories. For an index the walk built
   * the bound is never reached (`SidebarDepth.SidebarFuelSuffices`).
   */
  function SidebarFuel(ix: NavigationIndex): nat
  {
    |ix.categories.keys|
  }

  /** The root categories of the sidebar, in tree order. */
  function RootViews(ix: NavigationIndex, opts: NodeOptions, resolveHref: HrefResolver): (r: seq<CategoryView>)
    ensures |r| == |ix.tree|
    ensures forall i :: 0 <= i < |ix.tree| ==> r[i] == CategoryViewOf(ix, ix.tree[i], opts, resolveHref, 0, SidebarFuel(ix))
  {
    seq(|ix.tree|, i requires 0 <= i < |ix.tree| => CategoryViewOf(ix, ix.tree[i], opts, resolveHref, 0, SidebarFuel(ix)))
  }

  /** `buildNavigationContent`. */
  function NavigationContent(assets: PageAssets, theme: Theme, ix: NavigationIndex, opts: NodeOptions, resolveHref: HrefResolver): Node
  {
    var roots := RootViews(ix, opts, resolveHref);
    E("div", [Class("space-y-4")],
      [StandaloneSection(assets, theme, ix, opts.sel, resolveHref),
       E("nav", [Attr("aria-label", "Sidebar navigation")],
         [E("ul", [Class("space-y-1")], seq(|roots|, i requires 0 <= i < |roots| => CategoryNode(assets, theme, roots[i])))])])
  }

  /** The sidebar lists one node per root category, in the order of `tree`. */
  lemma SidebarFollowsTree(assets: PageAssets, theme: Theme, ix: NavigationIndex, opts: NodeOptions, resolveHref: HrefResolver)
    ensures var list := NavigationContent(assets, theme, ix, opts, resolveHref).children[1].children[0];
      |list.children| == |ix.tree|
      && forall i :: 0 <= i < |ix.tree| ==>
           list.children[i] == CategoryNode(assets, theme, CategoryViewOf(ix, ix.tree[i], opts, resolveHref, 0, SidebarFuel(ix)))
  {
  }

  /** `renderNavigationLayouts`: the desktop and the mobile sidebar around the same content, and the scrim. */
  datatype Layouts = Layouts(desktop: Node, mobile: Node, scrim: Node)

  function NavigationLayouts(assets: PageAssets, theme: Theme, ix: NavigationIndex, sel: Selection, resolveHref: HrefResolver, expanded: set<string>): Layouts
  {
    var content := NavigationContent(assets, theme, ix, NodeOptions(sel, expanded), resolveHref);
    var background := ThemeClass(theme, "sections.sidebarBackground");
    Layouts(
      E("aside", [Class(ClassNames(["hidden md:block fixed md:sticky top-16 bottom-0 md:top-16 md:h-[calc(100vh-4rem)] w-64 shrink-0 p-4 overflow-y-auto custom-scrollbar z-40 transition-colors", background]))], [content]),
      E("aside", [Attr("id", "mobile-navigation"), Class(ClassNames(["md:hidden fixed inset-x-0 top-16 bottom-0 z-40 overflow-y-auto custom-scrollbar transition-colors shadow-lg", background])), Flag("data-mobile-nav-panel"), Flag("hidden")],
        [E("div", [Class(ClassNames(["h-full px-4 py-4 space-y-4"]))], [content])]),
      E("div", [Class("md:hidden fixed inset-x-0 top-16 bottom-0 bg-black/40 backdrop-blur-sm z-30"), Flag("data-mobile-nav-scrim"), Flag("hidden")], []))
  }

  // ---------------------------------------------------------------------------
  // Header

  const GithubUrl := "https://github.com/ShadowShardTools/SST-Docs"

  /** `branding?.logoText ?? versionLabel`: an empty logo text is kept. */
  function LogoText(ix: NavigationIndex, branding: Option<HeaderBranding>): (r: string)
    ensures branding.Some? && branding.value.logoText.Some? ==> r == branding.value.logoText.value
    ensures branding.None? || branding.value.logoText.None? ==> r == ix.versionLabel
  {
    match branding
    case Some(b) => b.logoText.GetOr(ix.versionLabel)
    case None => ix.versionLabel
  }

  /** `branding?.logoAlt ?? logoText`. */
  function LogoAlt(ix: NavigationIndex, branding: Option<HeaderBranding>): (r: string)
    ensures branding.Some? && branding.value.logoAlt.Some? ==> r == branding.value.logoAlt.value
    ensures branding.None? || branding.value.logoAlt.None? ==> r == LogoText(ix, branding)
  {
    match branding
    case Some(b) => b.logoAlt.GetOr(LogoText(ix, branding))
    case None => LogoText(ix, branding)
  }

  /** The logo image, present only when the branding names a non-empty source. */
  function LogoImage(ix: NavigationIndex, branding: Option<HeaderBranding>): (r: Node)
    ensures r.Element? <==> branding.Some? && Truthy(branding.value.logoSrc)
    ensures r.Element? ==> |r.attrs| == 3 && r.attrs[0] == Attr("src", branding.value.logoSrc.value) && r.attrs[1] == Attr("alt", LogoAlt(ix, branding))
  {
    match branding
    case Some(b) =>
      if Truthy(b.logoSrc) then
        E("img", [Attr("src", b.logoSrc.value), Attr("alt", LogoAlt(ix, branding)), Class("h-8 w-auto rounded-full pointer-events-none select-none")], [])
      else Empty
    case None => Empty
  }

  /** A GitHub button of the header; `buttons.common` falls back to a grey border. */
  function GithubButton(assets: PageAssets, theme: Theme, base: string): Node
  {
    E("a", [Class(ClassNames([base, Slot(theme, "buttons.common").GetOr("border border-gray-300 rounded")])),
            Attr("href", GithubUrl), Attr("target", "_blank"), Attr("rel", "noopener noreferrer")],
      [Raw(assets.githubIcon), E("span", [], [Str("GitHub")])])
  }

  /** A mobile toggle button of the header, with its closed and open icons. */
  function MobileToggle(assets: PageAssets, theme: Theme, slot: string, kind: string, controls: string, closedIcon: string): Node
  {
    E("div", [Class("md:hidden")],
      [E("button", [Attr("type", "button"), Class(ClassNames(["md:hidden inline-flex items-center justify-center p-2", ThemeClass(theme, slot)])),
                    Flag("data-mobile-" + kind + "-toggle"), Attr("aria-expanded", "false"), Attr("aria-controls", controls)],
         [E("span", [Attr("data-mobile-" + kind + "-icon", "closed")], [Raw(closedIcon)]),
          E("span", [Attr("data-mobile-" + kind + "-icon", "open"), Attr("style", "display:none;")], [Raw(assets.closeIcon)])])])
  }

  /** The logo block: the image when there is one, then the logo text in the theme's logo class. */
  function LogoBlock(theme: Theme, ix: NavigationIndex, branding: Option<HeaderBranding>): Node
  {
    E("div", [Class("flex-1 flex items-center justify-center md:justify-start gap-2 select-none")],
      [LogoImage(ix, branding),
       E("span", [Class(Slot(theme, "text.logoText").GetOr("text-lg font-semibold"))], [Str(LogoText(ix, branding))])])
  }

  /** `renderHeader`. */
  function Header(assets: PageAssets, theme: Theme, ix: NavigationIndex, branding: Option<HeaderBranding>): Node
  {
    var headerBackground := ThemeClass(theme, "sections.headerBackground");
    var mobileMenu :=
      E("div", [Attr("id", "mobile-header-menu"), Class(ClassNames(["md:hidden border-t p-4 space-y-3", headerBackground])), Flag("data-mobile-menu-panel"), Flag("hidden")],
        [E("div", [Class("pt-3 flex flex-col gap-3")],
           [GithubButton(assets, theme, "inline-flex items-center justify-center gap-2 px-3 py-1.5 text-sm w-full")])]);
    E("header", [Class(ClassNames(["sticky top-0 z-50 w-full transition-colors", headerBackground]))],
      [E("div", [Class("flex items-center justify-between h-16 px-4 md:px-6")],
         [MobileToggle(assets, theme, "header.mobileNavigationToggle", "nav", "mobile-navigation", assets.listIcon),
          LogoBlock(theme, ix, branding),
          MobileToggle(assets, theme, "header.mobileMenuToggle", "menu", "mobile-header-menu", assets.menuIcon),
          GithubButton(assets, theme, "hidden md:inline-flex items-center gap-2 px-3 py-1.5 text-sm w-auto")]),
       mobileMenu])
  }

  // ---------------------------------------------------------------------------
  // The shell

  datatype PageShellOptions = PageShellOptions(
    title: string,
    mainContent: string,
    navIndex: NavigationIndex,
    stylesheetHref: string,
    additionalStylesheets: seq<string>,
    resolveHref: HrefResolver,
    breadcrumb: Option<seq<BreadcrumbSegment>>,
    activeDocId: Option<string>,
    activeCategoryId: Option<string>,
    branding: Option<HeaderBranding>,
    theme: Theme)

  function StylesheetLink(href: string): Node
  {
    E("link", [Attr("rel", "stylesheet"), Attr("href", href)], [])
  }

  /** The `<head>`: charset, viewport, the title `title | versionLabel`, the main stylesheet, then one link per extra stylesheet. */
  function Head(o: PageShellOptions): (r: Node)
    ensures r.Element? && |r.children| == 4 + |o.additionalStylesheets|
    ensures r.children[2] == E("title", [], [Str(o.title + " | " + o.navIndex.versionLabel)])
    ensures r.children[3] == StylesheetLink(o.stylesheetHref)
    ensures forall i :: 0 <= i < |o.additionalStylesheets| ==> r.children[4 + i] == StylesheetLink(o.additionalStylesheets[i])
  {
    var extra := o.additionalStylesheets;
    E("head", [],
      [E("meta", [Attr("charset", "utf-8")], []),
       E("meta", [Attr("name", "viewport"), Attr("content", "width=device-width, initial-scale=1")], []),
       E("title", [], [Str(o.title + " | " + o.navIndex.versionLabel)]),
       StylesheetLink(o.stylesheetHref)]
      + seq(|extra|, i requires 0 <= i < |extra| => StylesheetLink(extra[i])))
  }

  /** The breadcrumb of the shell: `renderBreadcrumbTrail` when the option is given, else nothing. */
  function ShellBreadcrumb(o: PageShellOptions): Node
  {
    match o.breadcrumb
    case Some(segments) => BreadcrumbNav(ShellTrailStyle(o.theme), segments)
    case None => Empty
  }

  /** The `<main>` element: the desktop sidebar beside the breadcrumb and the page's content. */
  function MainArea(o: PageShellOptions, nav: Layouts): Node
  {
    E("main", [Class("flex flex-1")],
      [nav.desktop,
       E("div", [Class(ClassNames(["flex-1 overflow-x-auto", ThemeClass(o.theme, "sections.contentBackground"), "transition-colors"]))],
         [E("div", [Class("w-full")], [ShellBreadcrumb(o), Raw(o.mainContent)])])])
  }

  /** The storage key the navigation script keeps the folding state under. */
  function StorageKey(ix: NavigationIndex): string
  {
    "sst-docs-nav-" + ix.versionId
  }

  /** The attributes of `<body>`: its classes and the storage key `sst-docs-nav-<versionId>`. */
  function BodyAttrs(ix: NavigationIndex): (r: seq<Attr>)
    ensures AttrValue(r, "data-nav-storage-key") == Some("sst-docs-nav-" + ix.versionId)
  {
    [Class(ClassNames(["min-h-screen", "transition-colors"])), Attr("data-nav-storage-key", StorageKey(ix))]
  }

  /** The `<body>`, given the set of expanded categories. */
  function Body(assets: PageAssets, o: PageShellOptions, expanded: set<string>): Node
  {
    var nav := NavigationLayouts(assets, o.theme, o.navIndex, Selection(o.activeDocId, o.activeCategoryId), o.resolveHref, expanded);
    E("body", BodyAttrs(o.navIndex),
      [E("div", [Class(ClassNames([ThemeClass(o.theme, "sections.siteBackground"), "transition-colors"]))],
         [E("div", [Class("min-h-screen max-w-7xl mx-auto px-0 md:px-6 lg:px-8")],
            [E("div", [Class(ClassNames([ThemeClass(o.theme, "sections.siteBorders")]))],
               [E("div", [Class("flex flex-col min-h-screen")],
                  [Header(assets, o.theme, o.navIndex, o.branding), nav.scrim, nav.mobile, MainArea(o, nav)])])])]),
       Raw(assets.navigationScript)])
  }

  /** The whole page of `renderPageShell`. */
  function PageShellOf(assets: PageAssets, o: PageShellOptions): Node
  {
    var expanded := ExpandedIds(o.navIndex, Selection(o.activeDocId, o.activeCategoryId));
    Fragment([Raw("<!doctype html>\n"), E("html", [Attr("lang", "en")], [Head(o), Body(assets, o, expanded)])])
  }

  /** `renderPageShell`. */
  method RenderPageShell(assets: PageAssets, o: PageShellOptions) returns (html: string)
    ensures html == Serialize(PageShellOf(assets, o))
  {
    var expanded := ComputeExpandedCategoryIds(o.navIndex, Selection(o.activeDocId, o.activeCategoryId));
    html := Serialize(Fragment([Raw("<!doctype html>\n"), E("html", [Attr("lang", "en")], [Head(o), Body(assets, o, expanded)])]));
  }

  /** The breadcrumb shows only when the option is given, and an empty trail shows nothing. */
  lemma ShellBreadcrumbShown(o: PageShellOptions)
    ensures o.breadcrumb.None? || o.breadcrumb == Some([]) ==> Serialize(ShellBreadcrumb(o)) == ""
    ensures o.breadcrumb.Some? && o.breadcrumb.value != [] ==> ShellBreadcrumb(o).Element?
  {
    if o.breadcrumb == Some([]) {
      BreadcrumbShape(ShellTrailStyle(o.theme), []);
    }
  }
}
