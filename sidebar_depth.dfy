/**
 * How deep the sidebar can nest. The sidebar follows child ids through the category map
 * of the navigation index; this module shows that for an index the walk built, a chain of
 * child ids is never longer than the number of categories, so the nesting bound the sidebar
 * uses (`PageShell.SidebarFuel`) never cuts a branch the unbounded recursion would show.
 */
module SidebarDepth {
  import opened Wrappers
  import opened Docs
  import opened OrderedMaps
  import opened Navigation
  import opened PageShell

  type Writes = seq<(string, NavCategoryEntry)>

  // ---------------------------------------------------------------------------
  // The category writes of the walk

  /** Every child id of a written entry is written again later in the list. */
  predicate ChildrenLater(w: Writes)
  {
    forall i, c :: 0 <= i < |w| && c in w[i].1.childCategories ==> exists j :: i < j < |w| && w[j].0 == c
  }

  /** Each category of a forest is written, with its own entry, somewhere in the forest's writes. */
  lemma {:induction false} RootWritten(cs: seq<Category>, trail: seq<string>, ancestors: seq<string>, m: nat)
    requires m < |cs|
    ensures exists j :: (0 <= j < |ForestCategoryWrites(cs, trail, ancestors)|
      && ForestCategoryWrites(cs, trail, ancestors)[j] == (cs[m].id, CategoryEntryAt(cs[m], trail, ancestors)))
  {
    var head := CategoryWrites(cs[0], trail, ancestors);
    var w := ForestCategoryWrites(cs, trail, ancestors);
    assert w == head + ForestCategoryWrites(cs[1..], trail, ancestors);
    if m == 0 {
      assert w[0] == head[0];
    } else {
      RootWritten(cs[1..], trail, ancestors, m - 1);
      var j :| 0 <= j < |ForestCategoryWrites(cs[1..], trail, ancestors)|
        && ForestCategoryWrites(cs[1..], trail, ancestors)[j] == (cs[1..][m - 1].id, CategoryEntryAt(cs[1..][m - 1], trail, ancestors));
      assert w[|head| + j] == ForestCategoryWrites(cs[1..], trail, ancestors)[j];
    }
  }

  /** An entry whose children are all written in `b`, put before `b`. */
  lemma ConsLater(x: (string, NavCategoryEntry), b: Writes)
    requires ChildrenLater(b)
    requires forall c :: c in x.1.childCategories ==> exists j :: 0 <= j < |b| && b[j].0 == c
    ensures ChildrenLater([x] + b)
  {
    var w := [x] + b;
    forall i, c | 0 <= i < |w| && c in w[i].1.childCategories
      ensures exists j :: i < j < |w| && w[j].0 == c
    {
      if i == 0 {
        var j :| 0 <= j < |b| && b[j].0 == c;
        assert w[j + 1] == b[j];
      } else {
        assert w[i] == b[i - 1];
        var j :| i - 1 < j < |b| && b[j].0 == c;
        assert w[j + 1] == b[j];
      }
    }
  }

  /** Two lists each with the property keep it side by side. */
  lemma AppendLater(a: Writes, b: Writes)
    requires ChildrenLater(a) && ChildrenLater(b)
    ensures ChildrenLater(a + b)
  {
    var w := a + b;
    forall i, c | 0 <= i < |w| && c in w[i].1.childCategories
      ensures exists j :: i < j < |w| && w[j].0 == c
    {
      if i < |a| {
        assert w[i] == a[i];
        var j :| i < j < |a| && a[j].0 == c;
        assert w[j] == a[j];
      } else {
        assert w[i] == b[i - |a|];
        var j :| i - |a| < j < |b| && b[j].0 == c;
        assert w[j + |a|] == b[j];
      }
    }
  }

  /** A category is written before its children: every child id of an entry is written after it. */
  lemma {:induction false} CategoryWritesLater(c: Category, trail: seq<string>, ancestors: seq<string>)
    ensures ChildrenLater(CategoryWrites(c, trail, ancestors))
    decreases c, 1
  {
    var rest := ForestCategoryWrites(c.children, trail + [c.title], ancestors + [c.id]);
    var e := CategoryEntryAt(c, trail, ancestors);
    ForestWritesLater(c.children, trail + [c.title], ancestors + [c.id]);
    forall id | id in e.childCategories ensures exists j :: 0 <= j < |rest| && rest[j].0 == id {
      var m :| 0 <= m < |c.children| && CategoryIdsOf(c.children)[m] == id;
      RootWritten(c.children, trail + [c.title], ancestors + [c.id], m);
    }
    ConsLater((c.id, e), rest);
  }

  lemma {:induction false} ForestWritesLater(cs: seq<Category>, trail: seq<string>, ancestors: seq<string>)
    ensures ChildrenLater(ForestCategoryWrites(cs, trail, ancestors))
    decreases cs, 0
  {
    if cs != [] {
      CategoryWritesLater(cs[0], trail, ancestors);
      ForestWritesLater(cs[1..], trail, ancestors);
      AppendLater(CategoryWrites(cs[0], trail, ancestors), ForestCategoryWrites(cs[1..], trail, ancestors));
    }
  }

  // ---------------------------------------------------------------------------
  // The category map as the last writes

  /** The position of the last write of `k`. */
  function LastWrite(w: Writes, k: string): (r: Option<nat>)
    ensures r.Some? ==> r.value < |w| && w[r.value].0 == k && forall j :: r.value < j < |w| ==> w[j].0 != k
    ensures r.None? ==> forall j :: 0 <= j < |w| ==> w[j].0 != k
  {
    if w == [] then None
    else if w[|w| - 1].0 == k then Some(|w| - 1)
    else LastWrite(w[..|w| - 1], k)
  }

  /** The keys whose last write comes after position `i`. */
  function Above(w: Writes, i: nat): set<string>
  {
    set j | 0 <= j < |w| && i < j :: w[j].0
  }

  /** Past the last write of a key written after `i`, fewer keys are above than above `i`. */
  lemma AboveShrinks(w: Writes, i: nat, j: nat)
    requires i < j < |w| && forall k :: j < k < |w| ==> w[k].0 != w[j].0
    ensures |Above(w, j)| < |Above(w, i)|
  {
    var a, b := Above(w, j), Above(w, i);
    assert w[j].0 in b && w[j].0 !in a;
    assert a <= b;
    assert b == a + (b - a);
    assert |b - a| >= 1 by { assert w[j].0 in b - a; }
  }

  /** No more keys are above a position than there are keys. */
  lemma AboveBounded(w: Writes, i: nat)
    ensures |Above(w, i)| <= |SetAll(Empty(), w).keys|
  {
    var m := SetAll(Empty(), w);
    forall k | k in Above(w, i) ensures k in m.keys {
      var j :| 0 <= j < |w| && i < j && w[j].0 == k;
      SetAllKeys(Empty(), w, k);
    }
    DistinctKeys(m.keys);
    assert Above(w, i) <= set k | k in m.keys;
    SubsetSmaller(Above(w, i), set k | k in m.keys);
  }

  lemma SubsetSmaller(a: set<string>, b: set<string>)
    requires a <= b
    ensures |a| <= |b|
  {
    assert b == a + (b - a);
  }

  /** A list without repeats has as many members as entries. */
  lemma {:induction false} DistinctKeys(ks: seq<string>)
    requires forall i, j :: 0 <= i < j < |ks| ==> ks[i] != ks[j]
    ensures |set k | k in ks| == |ks|
  {
    if ks != [] {
      DistinctKeys(ks[1..]);
      assert (set k | k in ks) == {ks[0]} + (set k | k in ks[1..]);
      assert ks[0] !in (set k | k in ks[1..]);
    }
  }

  // ---------------------------------------------------------------------------
  // Fuel

  /** Every category the sidebar finds for a list of ids is the map's entry for one of them. */
  lemma {:induction false} FoundFrom(m: OrderedMap<string, NavCategoryEntry>, ids: seq<string>, n: nat)
    requires n < |Found(m, ids)|
    ensures exists id :: id in ids && id in m.entries && Found(m, ids)[n] == m.entries[id]
  {
    if ids[0] in m.entries {
      if n > 0 {
        FoundFrom(m, ids[1..], n - 1);
      }
    } else {
      FoundFrom(m, ids[1..], n);
    }
  }

  /** A child the sidebar finds under the entry written at `i` is the last write of a later key. */
  lemma FoundChildLater(ix: NavigationIndex, w: Writes, i: nat, n: nat)
    requires ix.categories == SetAll(Empty(), w) && ChildrenLater(w)
    requires i < |w| && n < |Found(ix.categories, w[i].1.childCategories)|
    ensures exists j :: (i < j < |w| && Found(ix.categories, w[i].1.childCategories)[n] == w[j].1
      && |Above(w, j)| < |Above(w, i)|)
  {
    var c := w[i].1;
    FoundFrom(ix.categories, c.childCategories, n);
    var id :| id in c.childCategories && id in ix.categories.entries && Found(ix.categories, c.childCategories)[n] == ix.categories.entries[id];
    var later :| i < later < |w| && w[later].0 == id;
    var j := LastWrite(w, id).value;
    SetAllLast(Empty(), w, j);
    AboveShrinks(w, i, j);
  }

  /**
   * With the category map built from writes in which children come later, an entry written at
   * position `i` shows the same subtree with any fuel at least the number of keys above `i`.
   */
  lemma {:induction false} FuelEnough(ix: NavigationIndex, w: Writes, i: nat, opts: NodeOptions, resolveHref: HrefResolver,
                                      depth: nat, f: nat, g: nat)
    requires ix.categories == SetAll(Empty(), w) && ChildrenLater(w)
    requires i < |w| && |Above(w, i)| <= f <= g
    ensures CategoryViewOf(ix, w[i].1, opts, resolveHref, depth, f) == CategoryViewOf(ix, w[i].1, opts, resolveHref, depth, g)
    decreases f
  {
    var c := w[i].1;
    var found := Found(ix.categories, c.childCategories);
    if f == 0 {
      if found != [] {
        FoundChildLater(ix, w, i, 0);
      }
    } else {
      var vf := CategoryViewOf(ix, c, opts, resolveHref, depth, f);
      var vg := CategoryViewOf(ix, c, opts, resolveHref, depth, g);
      forall n | 0 <= n < |found| ensures vf.children[n] == vg.children[n] {
        FoundChildLater(ix, w, i, n);
        var j :| i < j < |w| && found[n] == w[j].1 && |Above(w, j)| < |Above(w, i)|;
        FuelEnough(ix, w, j, opts, resolveHref, depth + 1, f - 1, g - 1);
      }
    }
  }

  /**
   * For an index the walk built, the sidebar's nesting bound is never reached: every root
   * category shows the same subtree with the bound as with any larger one.
   */
  lemma SidebarFuelSuffices(entry: VersionRenderEntry, publicDataPath: string, t: nat,
                            opts: NodeOptions, resolveHref: HrefResolver, g: nat)
    requires t < |entry.tree|
    requires g >= SidebarFuel(NavigationIndexOf(entry, publicDataPath))
    ensures var ix := NavigationIndexOf(entry, publicDataPath);
      CategoryViewOf(ix, ix.tree[t], opts, resolveHref, 0, SidebarFuel(ix)) == CategoryViewOf(ix, ix.tree[t], opts, resolveHref, 0, g)
  {
    var ix := NavigationIndexOf(entry, publicDataPath);
    var w := ForestCategoryWrites(entry.tree, [], []);
    IndexIsWrites(entry, publicDataPath);
    ForestWritesLater(entry.tree, [], []);
    RootWritten(entry.tree, [], [], t);
    var p :| 0 <= p < |w| && w[p] == (entry.tree[t].id, CategoryEntryAt(entry.tree[t], [], []));
    assert ix.tree[t] == w[p].1;
    AboveBounded(w, p);
    FuelEnough(ix, w, p, opts, resolveHref, 0, SidebarFuel(ix), g);
  }
}
