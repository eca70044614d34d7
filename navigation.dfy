/**
 * The navigation index of one version: every category and document of the tree, by id,
 * with its breadcrumb, its ancestors, its parent and the path of its page.
 *
 * `buildNavigationIndex` walks the category forest in pre-order and writes into two
 * `Map`s as it goes. The walk is specified by `VisitCategory`/`VisitChildren`, pure
 * functions that thread the two maps through the same steps; `IndexBuilder` is the walk
 * itself, proved against them. `FlattenCategory` shows that the walk is the same as
 * setting, in order, the entries of the pre-order list of the forest, which is where the
 * last-writer-wins rule for duplicate ids comes from.
 */
module Navigation {
  import opened Wrappers
  import opened Docs
  import opened OrderedMaps
  import opened Paths

  const CategoryDir := "categories"
  const DocDir := "docs"

  datatype NavCategoryEntry = NavCategoryEntry(
    id: string,
    title: string,
    description: Option<string>,
    breadcrumb: seq<string>,
    outputPathRelative: Path,
    content: seq<Content>,
    docs: seq<string>,
    childCategories: seq<string>,
    parentCategoryId: Option<string>,
    ancestorCategoryIds: seq<string>)

  datatype NavDocumentEntry = NavDocumentEntry(
    id: string,
    title: string,
    description: Option<string>,
    breadcrumb: seq<string>,
    outputPathRelative: Path,
    content: seq<Content>,
    parentCategoryId: Option<string>,
    ancestorCategoryIds: seq<string>,
    isStandalone: bool)

  datatype NavigationIndex = NavigationIndex(
    versionBaseUrl: string,
    versionId: string,
    versionLabel: string,
    categories: OrderedMap<string, NavCategoryEntry>,
    documents: OrderedMap<string, NavDocumentEntry>,
    tree: seq<NavCategoryEntry>,
    standaloneDocuments: seq<NavDocumentEntry>)

  /** The two maps the walk writes into. */
  datatype NavState = NavState(
    categories: OrderedMap<string, NavCategoryEntry>,
    documents: OrderedMap<string, NavDocumentEntry>)
  {
    ghost predicate Valid()
    {
      categories.Valid() && documents.Valid()
    }
  }

  // ---------------------------------------------------------------------------
  // Entries

  /** `createCategoryOutput`: `categories/<id>/index.html`, at any depth. */
  function CategoryOutput(id: string): Path
  {
    [CategoryDir, id, "index.html"]
  }

  /** `createDocOutput`: `docs/<id>/index.html`, at any depth. */
  function DocOutput(id: string): Path
  {
    [DocDir, id, "index.html"]
  }

  function DocIdsOf(ds: seq<DocItem>): (r: seq<string>)
    ensures |r| == |ds| && forall i :: 0 <= i < |ds| ==> r[i] == ds[i].id
  {
    if ds == [] then [] else [ds[0].id] + DocIdsOf(ds[1..])
  }

  function CategoryIdsOf(cs: seq<Category>): (r: seq<string>)
    ensures |r| == |cs| && forall i :: 0 <= i < |cs| ==> r[i] == cs[i].id
  {
    if cs == [] then [] else [cs[0].id] + CategoryIdsOf(cs[1..])
  }

  /** The parent of an entry with the given ancestors: the last of them. */
  function ParentOf(ancestors: seq<string>): (r: Option<string>)
    ensures r.None? <==> ancestors == []
    ensures r.Some? ==> r.value == ancestors[|ancestors| - 1]
  {
    if |ancestors| > 0 then Some(ancestors[|ancestors| - 1]) else None
  }

  /** `makeCategoryEntry`. */
  function MakeCategoryEntry(c: Category, parent: Option<string>, ancestors: seq<string>, breadcrumb: seq<string>): NavCategoryEntry
  {
    NavCategoryEntry(
      c.id, c.title, c.description, breadcrumb, CategoryOutput(c.id),
      if c.content.Some? then c.content.value else [],
      DocIdsOf(c.docs), CategoryIdsOf(c.children), parent, ancestors)
  }

  /** `makeDocumentEntry`. */
  function MakeDocumentEntry(d: DocItem, parent: Option<string>, ancestors: seq<string>, breadcrumb: seq<string>, isStandalone: bool): NavDocumentEntry
  {
    NavDocumentEntry(d.id, d.title, d.description, breadcrumb, DocOutput(d.id), d.content, parent, ancestors, isStandalone)
  }

  /** The entry `traverseCategory` makes for `c` under the given breadcrumb trail and ancestors. */
  function CategoryEntryAt(c: Category, trail: seq<string>, ancestors: seq<string>): NavCategoryEntry
  {
    MakeCategoryEntry(c, ParentOf(ancestors), ancestors, trail + [c.title])
  }

  /** The entry of a doc listed by a category whose own breadcrumb and ancestor ids (itself included) are given. */
  function DocEntryAt(d: DocItem, categoryId: string, ids: seq<string>, crumb: seq<string>): NavDocumentEntry
  {
    MakeDocumentEntry(d, Some(categoryId), ids, crumb + [d.title], false)
  }

  /** The entry of a standalone doc. */
  function StandaloneEntry(d: DocItem): NavDocumentEntry
  {
    MakeDocumentEntry(d, None, [], [d.title], true)
  }

  function DocPairs(ds: seq<DocItem>, categoryId: string, ids: seq<string>, crumb: seq<string>): (r: seq<(string, NavDocumentEntry)>)
    ensures |r| == |ds|
    ensures forall i :: 0 <= i < |ds| ==> r[i] == (ds[i].id, DocEntryAt(ds[i], categoryId, ids, crumb))
  {
    if ds == [] then [] else [(ds[0].id, DocEntryAt(ds[0], categoryId, ids, crumb))] + DocPairs(ds[1..], categoryId, ids, crumb)
  }

  function StandalonePairs(ds: seq<DocItem>): (r: seq<(string, NavDocumentEntry)>)
    ensures |r| == |ds|
    ensures forall i :: 0 <= i < |ds| ==> r[i] == (ds[i].id, StandaloneEntry(ds[i]))
  {
    if ds == [] then [] else [(ds[0].id, StandaloneEntry(ds[0]))] + StandalonePairs(ds[1..])
  }

  // ---------------------------------------------------------------------------
  // The walk, as pure functions

  /** `traverseCategory(c, trail, ancestors)`: register `c`, then its docs, then its children. */
  function VisitCategory(s: NavState, c: Category, trail: seq<string>, ancestors: seq<string>): (r: NavState)
    requires s.Valid()
    ensures r.Valid()
    decreases c, 1
  {
    var crumb := trail + [c.title];
    var ids := ancestors + [c.id];
    var s1 := s.(categories := s.categories.Set(c.id, CategoryEntryAt(c, trail, ancestors)));
    var s2 := s1.(documents := SetAll(s1.documents, DocPairs(c.docs, c.id, ids, crumb)));
    VisitChildren(s2, c.children, crumb, ids)
  }

  /** `cs.forEach(child => traverseCategory(child, trail, ancestors))`. */
  function VisitChildren(s: NavState, cs: seq<Category>, trail: seq<string>, ancestors: seq<string>): (r: NavState)
    requires s.Valid()
    ensures r.Valid()
    decreases cs, 0
  {
    if cs == [] then s else VisitChildren(VisitCategory(s, cs[0], trail, ancestors), cs[1..], trail, ancestors)
  }

  /** The root entries, in input order. */
  function RootEntries(tree: seq<Category>): (r: seq<NavCategoryEntry>)
    ensures |r| == |tree|
    ensures forall i :: 0 <= i < |tree| ==> r[i] == CategoryEntryAt(tree[i], [], [])
  {
    if tree == [] then [] else [CategoryEntryAt(tree[0], [], [])] + RootEntries(tree[1..])
  }

  function StandaloneEntries(ds: seq<DocItem>): (r: seq<NavDocumentEntry>)
    ensures |r| == |ds|
    ensures forall i :: 0 <= i < |ds| ==> r[i] == StandaloneEntry(ds[i])
  {
    if ds == [] then [] else [StandaloneEntry(ds[0])] + StandaloneEntries(ds[1..])
  }

  /** The state after the walk over the forest and the standalone docs. */
  function FinalState(entry: VersionRenderEntry): (r: NavState)
    ensures r.Valid()
  {
    var s := VisitChildren(NavState(Empty(), Empty()), entry.tree, [], []);
    s.(documents := SetAll(s.documents, StandalonePairs(entry.standaloneDocs)))
  }

  /** `buildNavigationIndex(entry, config)`, where `publicDataPath` is `config.PUBLIC_DATA_PATH`. */
  function NavigationIndexOf(entry: VersionRenderEntry, publicDataPath: string): (r: NavigationIndex)
    ensures r.categories.Valid() && r.documents.Valid()
  {
    var s := FinalState(entry);
    NavigationIndex(
      JoinUrl([publicDataPath, if entry.product.Some? then entry.product.value.product else "", entry.version.version]),
      entry.version.version,
      if entry.version.versionLabel.Some? then entry.version.versionLabel.value else entry.version.version,
      s.categories, s.documents, RootEntries(entry.tree), StandaloneEntries(entry.standaloneDocs))
  }

  // ---------------------------------------------------------------------------
  // The walk as a list of writes

  /** The pre-order list of the categories of a forest. */
  function AllCategories(cs: seq<Category>): seq<Category>
    decreases cs, 0
  {
    if cs == [] then []
    else [cs[0]] + AllCategories(cs[0].children) + AllCategories(cs[1..])
  }

  /** The category writes of `traverseCategory(c, …)`, in order: `c` itself first. */
  function CategoryWrites(c: Category, trail: seq<string>, ancestors: seq<string>): seq<(string, NavCategoryEntry)>
    decreases c, 1
  {
    [(c.id, CategoryEntryAt(c, trail, ancestors))]
      + ForestCategoryWrites(c.children, trail + [c.title], ancestors + [c.id])
  }

  function ForestCategoryWrites(cs: seq<Category>, trail: seq<string>, ancestors: seq<string>): seq<(string, NavCategoryEntry)>
    decreases cs, 0
  {
    if cs == [] then [] else CategoryWrites(cs[0], trail, ancestors) + ForestCategoryWrites(cs[1..], trail, ancestors)
  }

  /** The document writes of `traverseCategory(c, …)`, in order: `c`'s own docs first. */
  function DocWrites(c: Category, trail: seq<string>, ancestors: seq<string>): seq<(string, NavDocumentEntry)>
    decreases c, 1
  {
    DocPairs(c.docs, c.id, ancestors + [c.id], trail + [c.title])
      + ForestDocWrites(c.children, trail + [c.title], ancestors + [c.id])
  }

  function ForestDocWrites(cs: seq<Category>, trail: seq<string>, ancestors: seq<string>): seq<(string, NavDocumentEntry)>
    decreases cs, 0
  {
    if cs == [] then [] else DocWrites(cs[0], trail, ancestors) + ForestDocWrites(cs[1..], trail, ancestors)
  }

  /** Visiting a category is setting its category writes and its document writes. */
  lemma {:induction false} FlattenCategory(s: NavState, c: Category, trail: seq<string>, ancestors: seq<string>)
    requires s.Valid()
    ensures VisitCategory(s, c, trail, ancestors)
      == NavState(SetAll(s.categories, CategoryWrites(c, trail, ancestors)), SetAll(s.documents, DocWrites(c, trail, ancestors)))
    decreases c, 1
  {
    var crumb := trail + [c.title];
    var ids := ancestors + [c.id];
    var pair := (c.id, CategoryEntryAt(c, trail, ancestors));
    var s1 := s.(categories := s.categories.Set(c.id, CategoryEntryAt(c, trail, ancestors)));
    var own := DocPairs(c.docs, c.id, ids, crumb);
    var s2 := s1.(documents := SetAll(s1.documents, own));
    assert [pair][1..] == [];
    assert SetAll(s.categories, [pair]) == s1.categories;
    FlattenChildren(s2, c.children, crumb, ids);
    SetAllAppend(s.categories, [pair], ForestCategoryWrites(c.children, crumb, ids));
    SetAllAppend(s.documents, own, ForestDocWrites(c.children, crumb, ids));
  }

  lemma {:induction false} FlattenChildren(s: NavState, cs: seq<Category>, trail: seq<string>, ancestors: seq<string>)
    requires s.Valid()
    ensures VisitChildren(s, cs, trail, ancestors)
      == NavState(SetAll(s.categories, ForestCategoryWrites(cs, trail, ancestors)), SetAll(s.documents, ForestDocWrites(cs, trail, ancestors)))
    decreases cs, 0
  {
    if cs != [] {
      FlattenCategory(s, cs[0], trail, ancestors);
      var s1 := VisitCategory(s, cs[0], trail, ancestors);
      FlattenChildren(s1, cs[1..], trail, ancestors);
      SetAllAppend(s.categories, CategoryWrites(cs[0], trail, ancestors), ForestCategoryWrites(cs[1..], trail, ancestors));
      SetAllAppend(s.documents, DocWrites(cs[0], trail, ancestors), ForestDocWrites(cs[1..], trail, ancestors));
    }
  }

  /** The category writes name the categories of the forest, in pre-order. */
  lemma {:induction false} WritesFollowPreOrder(cs: seq<Category>, trail: seq<string>, ancestors: seq<string>)
    ensures |ForestCategoryWrites(cs, trail, ancestors)| == |AllCategories(cs)|
    ensures forall i :: 0 <= i < |AllCategories(cs)| ==> ForestCategoryWrites(cs, trail, ancestors)[i].0 == AllCategories(cs)[i].id
    decreases cs
  {
    if cs != [] {
      WritesFollowPreOrder(cs[0].children, trail + [cs[0].title], ancestors + [cs[0].id]);
      WritesFollowPreOrder(cs[1..], trail, ancestors);
    }
  }

  /**
   * The index is the result of writing, in order, the pre-order category entries and the
   * document entries followed by the standalone ones: for duplicate ids the last write wins,
   * so a standalone doc replaces a categorised doc of the same id.
   */
  lemma IndexIsWrites(entry: VersionRenderEntry, publicDataPath: string)
    ensures NavigationIndexOf(entry, publicDataPath).categories == SetAll(Empty(), ForestCategoryWrites(entry.tree, [], []))
    ensures NavigationIndexOf(entry, publicDataPath).documents
      == SetAll(Empty(), ForestDocWrites(entry.tree, [], []) + StandalonePairs(entry.standaloneDocs))
  {
    FlattenChildren(NavState(Empty(), Empty()), entry.tree, [], []);
    SetAllAppend(Empty(), ForestDocWrites(entry.tree, [], []), StandalonePairs(entry.standaloneDocs));
  }

  /** Every category of the forest has an entry. */
  lemma EveryCategoryRegistered(entry: VersionRenderEntry, publicDataPath: string, c: Category)
    requires c in AllCategories(entry.tree)
    ensures c.id in NavigationIndexOf(entry, publicDataPath).categories.entries
  {
    IndexIsWrites(entry, publicDataPath);
    WritesFollowPreOrder(entry.tree, [], []);
    var all := AllCategories(entry.tree);
    var i :| 0 <= i < |all| && all[i] == c;
    var w := ForestCategoryWrites(entry.tree, [], []);
    assert w[i].0 == c.id;
    SetAllKeys(Empty(), w, c.id);
  }

  /** Every standalone doc's id maps to the entry of the last standalone doc with that id. */
  lemma StandaloneWins(entry: VersionRenderEntry, publicDataPath: string, i: nat)
    requires i < |entry.standaloneDocs|
    requires forall j :: i < j < |entry.standaloneDocs| ==> entry.standaloneDocs[j].id != entry.standaloneDocs[i].id
    ensures var docs := NavigationIndexOf(entry, publicDataPath).documents.entries;
      entry.standaloneDocs[i].id in docs && docs[entry.standaloneDocs[i].id] == StandaloneEntry(entry.standaloneDocs[i])
  {
    IndexIsWrites(entry, publicDataPath);
    SetAllLastOfSuffix(Empty(), ForestDocWrites(entry.tree, [], []), StandalonePairs(entry.standaloneDocs), i);
  }

  // ---------------------------------------------------------------------------
  // Invariants of the entries

  /** One breadcrumb item per ancestor plus the entry's own, and the parent is the nearest ancestor. */
  predicate Linked(breadcrumb: seq<string>, ancestors: seq<string>, parent: Option<string>)
  {
    |breadcrumb| == |ancestors| + 1 && parent == ParentOf(ancestors)
  }

  /** Every ancestor id is a key of the category map. */
  predicate Closed(ancestors: seq<string>, categories: map<string, NavCategoryEntry>)
  {
    forall a :: a in ancestors ==> a in categories
  }

  /** Every entry of both maps is linked and closed. */
  ghost predicate WellFormed(s: NavState)
  {
    s.Valid()
    && (forall k :: k in s.categories.entries ==>
          var e := s.categories.entries[k];
          Linked(e.breadcrumb, e.ancestorCategoryIds, e.parentCategoryId) && Closed(e.ancestorCategoryIds, s.categories.entries))
    && (forall k :: k in s.documents.entries ==>
          var e := s.documents.entries[k];
          Linked(e.breadcrumb, e.ancestorCategoryIds, e.parentCategoryId) && Closed(e.ancestorCategoryIds, s.categories.entries))
  }

  /** A walk only adds category keys. */
  lemma {:induction false} VisitGrows(s: NavState, c: Category, trail: seq<string>, ancestors: seq<string>)
    requires s.Valid()
    ensures s.categories.entries.Keys <= VisitCategory(s, c, trail, ancestors).categories.entries.Keys
    decreases c, 1
  {
    var s1 := s.(categories := s.categories.Set(c.id, CategoryEntryAt(c, trail, ancestors)));
    var s2 := s1.(documents := SetAll(s1.documents, DocPairs(c.docs, c.id, ancestors + [c.id], trail + [c.title])));
    ChildrenGrow(s2, c.children, trail + [c.title], ancestors + [c.id]);
  }

  lemma {:induction false} ChildrenGrow(s: NavState, cs: seq<Category>, trail: seq<string>, ancestors: seq<string>)
    requires s.Valid()
    ensures s.categories.entries.Keys <= VisitChildren(s, cs, trail, ancestors).categories.entries.Keys
    decreases cs, 0
  {
    if cs != [] {
      VisitGrows(s, cs[0], trail, ancestors);
      ChildrenGrow(VisitCategory(s, cs[0], trail, ancestors), cs[1..], trail, ancestors);
    }
  }

  /** Setting linked, closed document entries keeps a state well formed. */
  lemma {:induction false} DocPairsKeep(s: NavState, ds: seq<DocItem>, categoryId: string, ids: seq<string>, crumb: seq<string>)
    requires WellFormed(s)
    requires |crumb| == |ids| && ids != [] && ids[|ids| - 1] == categoryId
    requires Closed(ids, s.categories.entries)
    ensures WellFormed(s.(documents := SetAll(s.documents, DocPairs(ds, categoryId, ids, crumb))))
    decreases |ds|
  {
    if ds != [] {
      var e := DocEntryAt(ds[0], categoryId, ids, crumb);
      var s1 := s.(documents := s.documents.Set(ds[0].id, e));
      assert Linked(e.breadcrumb, e.ancestorCategoryIds, e.parentCategoryId);
      assert WellFormed(s1);
      DocPairsKeep(s1, ds[1..], categoryId, ids, crumb);
      assert DocPairs(ds, categoryId, ids, crumb)[1..] == DocPairs(ds[1..], categoryId, ids, crumb);
    }
  }

  /**
   * The walk keeps every entry linked and closed: breadcrumb length is ancestor count + 1,
   * the parent is the last ancestor, and every ancestor is a registered category, because a
   * category is registered before the walk descends into it.
   */
  lemma {:induction false} VisitKeepsWellFormed(s: NavState, c: Category, trail: seq<string>, ancestors: seq<string>)
    requires WellFormed(s) && |trail| == |ancestors| && Closed(ancestors, s.categories.entries)
    ensures WellFormed(VisitCategory(s, c, trail, ancestors))
    decreases c, 1
  {
    var crumb := trail + [c.title];
    var ids := ancestors + [c.id];
    var e := CategoryEntryAt(c, trail, ancestors);
    var s1 := s.(categories := s.categories.Set(c.id, e));
    assert Linked(e.breadcrumb, e.ancestorCategoryIds, e.parentCategoryId);
    assert WellFormed(s1);
    assert Closed(ids, s1.categories.entries);
    DocPairsKeep(s1, c.docs, c.id, ids, crumb);
    var s2 := s1.(documents := SetAll(s1.documents, DocPairs(c.docs, c.id, ids, crumb)));
    ChildrenKeepWellFormed(s2, c.children, crumb, ids);
  }

  lemma {:induction false} ChildrenKeepWellFormed(s: NavState, cs: seq<Category>, trail: seq<string>, ancestors: seq<string>)
    requires WellFormed(s) && |trail| == |ancestors| && Closed(ancestors, s.categories.entries)
    ensures WellFormed(VisitChildren(s, cs, trail, ancestors))
    decreases cs, 0
  {
    if cs != [] {
      VisitKeepsWellFormed(s, cs[0], trail, ancestors);
      VisitGrows(s, cs[0], trail, ancestors);
      ChildrenKeepWellFormed(VisitCategory(s, cs[0], trail, ancestors), cs[1..], trail, ancestors);
    }
  }

  /** Standalone entries are linked and have no ancestors. */
  lemma {:induction false} StandaloneKeep(s: NavState, ds: seq<DocItem>)
    requires WellFormed(s)
    ensures WellFormed(s.(documents := SetAll(s.documents, StandalonePairs(ds))))
    decreases |ds|
  {
    if ds != [] {
      var s1 := s.(documents := s.documents.Set(ds[0].id, StandaloneEntry(ds[0])));
      assert WellFormed(s1);
      StandaloneKeep(s1, ds[1..]);
      assert StandalonePairs(ds)[1..] == StandalonePairs(ds[1..]);
    }
  }

  /**
   * In the built index, for every category and document entry: the breadcrumb has one more
   * item than the ancestor list, the parent is the last ancestor (none at a root), and every
   * ancestor id is a key of the category map.
   */
  lemma IndexWellFormed(entry: VersionRenderEntry, publicDataPath: string)
    ensures WellFormed(NavState(NavigationIndexOf(entry, publicDataPath).categories, NavigationIndexOf(entry, publicDataPath).documents))
  {
    var s0 := NavState(Empty(), Empty());
    ChildrenKeepWellFormed(s0, entry.tree, [], []);
    StandaloneKeep(VisitChildren(s0, entry.tree, [], []), entry.standaloneDocs);
  }

  /** A doc listed by a category: that category is its parent, its ancestors are the category's plus the category. */
  lemma DocUnderCategory(d: DocItem, c: Category, trail: seq<string>, ancestors: seq<string>)
    ensures var e := DocEntryAt(d, c.id, ancestors + [c.id], trail + [c.title]);
      var ce := CategoryEntryAt(c, trail, ancestors);
      e.parentCategoryId == Some(ce.id)
      && e.ancestorCategoryIds == ce.ancestorCategoryIds + [ce.id]
      && e.breadcrumb == ce.breadcrumb + [d.title]
      && !e.isStandalone
      && e.outputPathRelative == [DocDir, d.id, "index.html"]
  {
  }

  /** The tree holds the root entries in input order; each has a one-item breadcrumb and no parent. */
  lemma TreeIsRoots(entry: VersionRenderEntry, publicDataPath: string)
    ensures var ix := NavigationIndexOf(entry, publicDataPath);
      |ix.tree| == |entry.tree|
      && forall i :: 0 <= i < |entry.tree| ==>
           ix.tree[i].id == entry.tree[i].id && ix.tree[i].breadcrumb == [entry.tree[i].title]
           && ix.tree[i].parentCategoryId.None? && ix.tree[i].ancestorCategoryIds == []
           && ix.tree[i].outputPathRelative == [CategoryDir, entry.tree[i].id, "index.html"]
  {
  }

  /** Every category entry is stored under its own id. */
  predicate KeyedById(categories: map<string, NavCategoryEntry>)
  {
    forall k :: k in categories ==> categories[k].id == k
  }

  lemma {:induction false} CategoryWritesKeyed(c: Category, trail: seq<string>, ancestors: seq<string>)
    ensures forall i :: 0 <= i < |CategoryWrites(c, trail, ancestors)| ==>
      CategoryWrites(c, trail, ancestors)[i].1.id == CategoryWrites(c, trail, ancestors)[i].0
    decreases c, 1
  {
    ForestWritesKeyed(c.children, trail + [c.title], ancestors + [c.id]);
  }

  lemma {:induction false} ForestWritesKeyed(cs: seq<Category>, trail: seq<string>, ancestors: seq<string>)
    ensures forall i :: 0 <= i < |ForestCategoryWrites(cs, trail, ancestors)| ==>
      ForestCategoryWrites(cs, trail, ancestors)[i].1.id == ForestCategoryWrites(cs, trail, ancestors)[i].0
    decreases cs, 0
  {
    if cs != [] {
      CategoryWritesKeyed(cs[0], trail, ancestors);
      ForestWritesKeyed(cs[1..], trail, ancestors);
    }
  }

  lemma {:induction false} SetAllKeyed(m: OrderedMap<string, NavCategoryEntry>, kvs: seq<(string, NavCategoryEntry)>)
    requires m.Valid() && KeyedById(m.entries)
    requires forall i :: 0 <= i < |kvs| ==> kvs[i].1.id == kvs[i].0
    ensures KeyedById(SetAll(m, kvs).entries)
    decreases |kvs|
  {
    if kvs != [] {
      SetAllKeyed(m.Set(kvs[0].0, kvs[0].1), kvs[1..]);
    }
  }

  /** In the built index, the category map stores every entry under its own id. */
  lemma IndexKeyedById(entry: VersionRenderEntry, publicDataPath: string)
    ensures KeyedById(NavigationIndexOf(entry, publicDataPath).categories.entries)
  {
    IndexIsWrites(entry, publicDataPath);
    ForestWritesKeyed(entry.tree, [], []);
    SetAllKeyed(Empty(), ForestCategoryWrites(entry.tree, [], []));
  }

  // ---------------------------------------------------------------------------
  // The walk, as the source performs it

  class IndexBuilder {
    var categories: OrderedMap<string, NavCategoryEntry>
    var documents: OrderedMap<string, NavDocumentEntry>
    var treeEntries: seq<NavCategoryEntry>

    function State(): NavState
      reads this
    {
      NavState(categories, documents)
    }

    constructor()
      ensures State() == NavState(Empty(), Empty()) && treeEntries == []
    {
      categories := Empty();
      documents := Empty();
      treeEntries := [];
    }

    /** The loop of `buildNavigationIndex` over the root categories: each is traversed and its entry appended to the tree. */
    method TraverseRoots(tree: seq<Category>)
      requires State() == NavState(Empty(), Empty()) && treeEntries == []
      modifies this
      ensures State() == VisitChildren(NavState(Empty(), Empty()), tree, [], [])
      ensures treeEntries == RootEntries(tree)
    {
      var i := 0;
      while i < |tree|
        invariant 0 <= i <= |tree|
        invariant State().Valid()
        invariant VisitChildren(State(), tree[i..], [], []) == VisitChildren(NavState(Empty(), Empty()), tree, [], [])
        invariant treeEntries == RootEntries(tree[..i])
      {
        assert tree[i..][1..] == tree[i + 1..];
        AppendRoot(tree, i);
        i := i + 1;
      }
      assert tree[..i] == tree;
    }

    /** One round of that loop: root `i` is traversed and its entry appended. */
    method AppendRoot(tree: seq<Category>, i: nat)
      requires i < |tree| && State().Valid()
      requires treeEntries == RootEntries(tree[..i])
      modifies this
      ensures State().Valid() && State() == VisitCategory(old(State()), tree[i], [], [])
      ensures treeEntries == RootEntries(tree[..i + 1])
    {
      var navCategory := TraverseCategory(tree[i], [], []);
      treeEntries := treeEntries + [navCategory];
      RootEntriesAppend(tree[..i], tree[i]);
      assert tree[..i + 1] == tree[..i] + [tree[i]];
    }

    /** `documents.set(...)` for each pair, in order. */
    method SetDocuments(pairs: seq<(string, NavDocumentEntry)>)
      requires documents.Valid()
      modifies this
      ensures documents == SetAll(old(documents), pairs)
      ensures categories == old(categories) && treeEntries == old(treeEntries)
    {
      var i := 0;
      while i < |pairs|
        invariant 0 <= i <= |pairs|
        invariant documents.Valid()
        invariant SetAll(documents, pairs[i..]) == SetAll(old(documents), pairs)
        invariant categories == old(categories) && treeEntries == old(treeEntries)
      {
        assert pairs[i..][1..] == pairs[i + 1..];
        documents := documents.Set(pairs[i].0, pairs[i].1);
        i := i + 1;
      }
    }

    /** `traverseCategory`. */
    method TraverseCategory(c: Category, trail: seq<string>, ancestors: seq<string>) returns (e: NavCategoryEntry)
      requires State().Valid()
      modifies this
      ensures State() == VisitCategory(old(State()), c, trail, ancestors)
      ensures treeEntries == old(treeEntries)
      ensures e == CategoryEntryAt(c, trail, ancestors)
      decreases c
    {
      var crumb := trail + [c.title];
      var ids := ancestors + [c.id];
      e := CategoryEntryAt(c, trail, ancestors);
      categories := categories.Set(c.id, e);
      SetDocuments(DocPairs(c.docs, c.id, ids, crumb));
      ghost var s2 := State();
      var i := 0;
      while i < |c.children|
        invariant 0 <= i <= |c.children|
        invariant State().Valid()
        invariant VisitChildren(State(), c.children[i..], crumb, ids) == VisitChildren(s2, c.children, crumb, ids)
        invariant treeEntries == old(treeEntries)
      {
        assert c.children[i..][1..] == c.children[i + 1..];
        var _ := TraverseCategory(c.children[i], crumb, ids);
        i := i + 1;
      }
    }
  }

  /** `buildNavigationIndex(entry, config)`. */
  method BuildNavigationIndex(entry: VersionRenderEntry, publicDataPath: string) returns (index: NavigationIndex)
    ensures index == NavigationIndexOf(entry, publicDataPath)
  {
    var b := new IndexBuilder();
    b.TraverseRoots(entry.tree);
    b.SetDocuments(StandalonePairs(entry.standaloneDocs));
    var standalone := StandaloneEntries(entry.standaloneDocs);
    var product := if entry.product.Some? then entry.product.value.product else "";
    var versionLabel := if entry.version.versionLabel.Some? then entry.version.versionLabel.value else entry.version.version;
    index := NavigationIndex(
      JoinUrl([publicDataPath, product, entry.version.version]), entry.version.version, versionLabel,
      b.categories, b.documents, b.treeEntries, standalone);
  }

  lemma {:induction false} RootEntriesAppend(tree: seq<Category>, c: Category)
    ensures RootEntries(tree + [c]) == RootEntries(tree) + [CategoryEntryAt(c, [], [])]
  {
  }
}
