/**
 * The dispatch from a block's type tag to its template, the per-process render session
 * (the instance counters, the compare-script flag and the loaded Prism languages), and
 * `renderBlocks`, which joins the fragments of a page's blocks.
 */
module BlockRender {
  import opened Wrappers
  import opened Text
  import opened Html
  import opened Docs
  import opened Helpers
  import opened Blocks
  import opened CodeBlocks
  import opened MediaBlocks

  // ---------------------------------------------------------------------------
  // Block kinds

  /** The block kinds the renderer table knows, and `Other` for every other tag. */
  datatype BlockKind =
    | TitleBlock | TextBlock | ListBlock | DividerBlock | MessageBoxBlock | TableBlock | CodeBlock
    | MathBlock | AudioBlock | ImageBlock | ImageGridBlock | ImageCarouselBlock | ImageCompareBlock
    | YoutubeBlock | ChartBlock | GraphBlock | CategoryNavigatorBlock
    | Other(tag: string)

  /** The key of a known kind in the renderer table. */
  function TagOf(k: BlockKind): (r: string)
    requires !k.Other?
  {
    match k
    case TitleBlock => "title"
    case TextBlock => "text"
    case ListBlock => "list"
    case DividerBlock => "divider"
    case MessageBoxBlock => "messageBox"
    case TableBlock => "table"
    case CodeBlock => "code"
    case MathBlock => "math"
    case AudioBlock => "audio"
    case ImageBlock => "image"
    case ImageGridBlock => "imageGrid"
    case ImageCarouselBlock => "imageCarousel"
    case ImageCompareBlock => "imageCompare"
    case YoutubeBlock => "youtube"
    case ChartBlock => "chart"
    case GraphBlock => "graph"
    case CategoryNavigatorBlock => "categoryNavigator"
  }

  /** The kind a tag selects among the table's own keys; a missing tag is looked up as `""`. */
  function KindOf(tag: Option<string>): (k: BlockKind)
    ensures k.Other? ==> k.tag == tag.GetOr("")
  {
    var t := tag.GetOr("");
    if t == "title" then TitleBlock
    else if t == "text" then TextBlock
    else if t == "list" then ListBlock
    else if t == "divider" then DividerBlock
    else if t == "messageBox" then MessageBoxBlock
    else if t == "table" then TableBlock
    else if t == "code" then CodeBlock
    else if t == "math" then MathBlock
    else if t == "audio" then AudioBlock
    else if t == "image" then ImageBlock
    else if t == "imageGrid" then ImageGridBlock
    else if t == "imageCarousel" then ImageCarouselBlock
    else if t == "imageCompare" then ImageCompareBlock
    else if t == "youtube" then YoutubeBlock
    else if t == "chart" then ChartBlock
    else if t == "graph" then GraphBlock
    else if t == "categoryNavigator" then CategoryNavigatorBlock
    else Other(t)
  }

  /** Every known kind is selected by its own key. */
  lemma KindOfTagOf(k: BlockKind)
    requires !k.Other?
    ensures KindOf(Some(TagOf(k))) == k
  {
    match k
    case TitleBlock =>
    case TextBlock =>
    case ListBlock =>
    case DividerBlock =>
    case MessageBoxBlock =>
    case TableBlock =>
    case CodeBlock =>
    case MathBlock =>
    case AudioBlock =>
    case ImageBlock =>
    case ImageGridBlock =>
    case ImageCarouselBlock =>
    case ImageCompareBlock =>
    case YoutubeBlock =>
    case ChartBlock =>
    case GraphBlock =>
    case CategoryNavigatorBlock =>
    case Other(_) =>
  }

  /** A tag that selects a known kind is that kind's key: the table has one key per kind. */
  lemma {:induction false} TagOfKindOf(tag: Option<string>)
    requires !KindOf(tag).Other?
    ensures tag == Some(TagOf(KindOf(tag)))
  {
  }

  /** A missing tag falls back like an unknown one. */
  lemma MissingTagIsOther()
    ensures KindOf(None) == Other("")
  {
  }

  // ---------------------------------------------------------------------------
  // Fixed fragments

  /** The notices of blocks that have no template of their own. */
  datatype Notice = UnsupportedNotice | GraphNotice

  function NoticeText(n: Notice): string
  {
    match n
    case UnsupportedNotice => "Unsupported block type in static export."
    case GraphNotice => "Graph block is not yet supported in static export."
  }

  /** The dashed placeholder box carrying a notice. */
  function Placeholder(n: Notice): (r: Node)
    ensures r.Element? && r.tag == "div" && r.children == [Str(NoticeText(n))]
  {
    E("div", [Class("my-4 p-4 border border-dashed border-gray-400 text-sm text-gray-500")], [Str(NoticeText(n))])
  }

  // ---------------------------------------------------------------------------
  // Session state

  /** The process-wide state the templates keep between blocks. */
  datatype SessionState = SessionState(
    codeBlocks: nat, carousels: nat, compareSliders: nat,
    compareScriptInjected: bool, loadedLanguages: set<string>)

  /** The state when the module is loaded: counters at 0, no script, only `plaintext` loaded. */
  const InitialSession := SessionState(0, 0, 0, false, {"plaintext"})

  /** The three id counters. */
  datatype Counter = CodeCounter | CarouselCounter | CompareCounter

  function CounterValue(s: SessionState, c: Counter): nat
  {
    match c
    case CodeCounter => s.codeBlocks
    case CarouselCounter => s.carousels
    case CompareCounter => s.compareSliders
  }

  /** The counter a kind draws its ids from, if any. */
  function CounterOf(k: BlockKind): Option<Counter>
  {
    match k
    case CodeBlock => Some(CodeCounter)
    case ImageCarouselBlock => Some(CarouselCounter)
    case ImageCompareBlock => Some(CompareCounter)
    case _ => None
  }

  /**
   * The session after a block of kind `k`: a code block with sections draws a block id and
   * loads its languages, a carousel with images draws a carousel id, and a slider draws a
   * compare id and marks the script as emitted. Only the kind's own counter can move, and by
   * one; the script flag and the loaded languages only grow.
   */
  function NextState(ext: Externals, k: BlockKind, block: Content, s: SessionState): (t: SessionState)
    ensures forall c :: CounterOf(k) != Some(c) ==> CounterValue(t, c) == CounterValue(s, c)
    ensures forall c :: CounterValue(t, c) == CounterValue(s, c) || CounterValue(t, c) == CounterValue(s, c) + 1
    ensures s.loadedLanguages <= t.loadedLanguages
    ensures k != CodeBlock ==> t.loadedLanguages == s.loadedLanguages
    ensures s.compareScriptInjected ==> t.compareScriptInjected
    ensures k != ImageCompareBlock ==> t.compareScriptInjected == s.compareScriptInjected
  {
    match k
    case CodeBlock =>
      var sections := NormaliseCodeSections(block.codeData);
      s.(codeBlocks := if sections == [] then s.codeBlocks else s.codeBlocks + 1,
         loadedLanguages := LoadedAfter(ext.prism, sections, s.loadedLanguages))
    case ImageCarouselBlock =>
      s.(carousels := if CarouselReady(block.imageCarouselData) then s.carousels + 1 else s.carousels)
    case ImageCompareBlock =>
      if IsSliderCompare(block.imageCompareData) then s.(compareSliders := s.compareSliders + 1, compareScriptInjected := true) else s
    case _ => s
  }

  // ---------------------------------------------------------------------------
  // Dispatch

  /** The fragment the template of kind `k` renders in session state `s` (`None` for null). */
  function FragmentOf(ext: Externals, ctx: RenderContext, k: BlockKind, block: Content, s: SessionState): Option<Node>
  {
    match k
    case TitleBlock => RenderTitle(ext, ctx, block.titleData)
    case TextBlock => RenderText(ext, ctx, block.textData)
    case ListBlock => RenderList(ext, ctx, block)
    case DividerBlock => RenderDivider(ext, ctx, block.dividerData)
    case MessageBoxBlock => RenderMessageBox(ext, ctx, block)
    case TableBlock => Some(RenderTable(ctx, block.tableData))
    case CodeBlock => Some(RenderCode(ext, ctx, block.codeData, s.loadedLanguages, s.codeBlocks).0)
    case MathBlock => RenderMath(ext, ctx, block)
    case AudioBlock => RenderAudio(ext, ctx, block)
    case ImageBlock => RenderImage(ext, ctx, block)
    case ImageGridBlock => RenderImageGrid(ext, ctx, block)
    case ImageCarouselBlock => RenderCarousel(ext, ctx, block, s.carousels).0
    case ImageCompareBlock => RenderImageCompare(ext, ctx, block, s.compareSliders, s.compareScriptInjected).0
    case YoutubeBlock => RenderYoutube(ext, ctx, block)
    case ChartBlock => RenderChart(ext, ctx, block)
    case GraphBlock => Some(Placeholder(GraphNotice))
    case CategoryNavigatorBlock => None
    case Other(_) => Some(Placeholder(UnsupportedNotice))
  }

  /**
   * The code template advances the session as `NextState` says: the block counter when the
   * block has sections, and the languages its sections load.
   */
  lemma CodeTemplateAgrees(ext: Externals, ctx: RenderContext, block: Content, s: SessionState)
    ensures var (_, loaded, counter) := RenderCode(ext, ctx, block.codeData, s.loadedLanguages, s.codeBlocks);
      NextState(ext, CodeBlock, block, s) == s.(loadedLanguages := loaded, codeBlocks := counter)
  {
  }

  /** The carousel template advances the carousel counter as `NextState` says. */
  lemma CarouselTemplateAgrees(ext: Externals, ctx: RenderContext, block: Content, s: SessionState)
    ensures NextState(ext, ImageCarouselBlock, block, s) == s.(carousels := RenderCarousel(ext, ctx, block, s.carousels).1)
  {
  }

  /** The compare template advances the compare counter and sets the script flag as `NextState` says. */
  lemma CompareTemplateAgrees(ext: Externals, ctx: RenderContext, block: Content, s: SessionState)
    ensures var (_, counter, injected) := RenderImageCompare(ext, ctx, block, s.compareSliders, s.compareScriptInjected);
      NextState(ext, ImageCompareBlock, block, s) == s.(compareSliders := counter, compareScriptInjected := injected)
  {
  }

  // ---------------------------------------------------------------------------
  // The renderer table as written

  /**
   * The members every JavaScript object inherits from `Object.prototype`. An object
   * literal used as a table answers a lookup of one of these names with the inherited
   * member instead of `undefined`.
   */
  predicate IsPrototypeKey(key: string)
  {
    key in {
      "constructor", "toString", "toLocaleString", "valueOf", "hasOwnProperty", "isPrototypeOf",
      "propertyIsEnumerable", "__proto__", "__defineGetter__", "__defineSetter__",
      "__lookupGetter__", "__lookupSetter__"}
  }

  /** What `blockRendererMap[tag] ?? renderUnknownBlock` called as `renderer(ctx, block)` does. */
  datatype Outcome =
    /** One of the table's own templates or the fallback: the fragment `FragmentOf` gives. */
    | ByTable
    /** An inherited member that returns a string, which the page then shows. */
    | Returns(fragment: Node)
    /** The call returns an object, which `renderBlocks` drops as not a string. */
    | NotAString
    /** The call throws a `TypeError`, which aborts the page. */
    | Throws

  /**
   * The table lookup as written. None of the table's own keys is an inherited member name,
   * so a tag that is not one finds its template or falls back, and one that is finds the
   * inherited member: `toString` called without a receiver returns `[object Undefined]`,
   * `constructor` (that is, `Object`) returns its first argument, and the other members
   * throw on the missing receiver or are not functions.
   */
  function DispatchAsWritten(tag: Option<string>): (r: Outcome)
    ensures r == ByTable <==> !IsPrototypeKey(tag.GetOr(""))
    ensures tag == Some("toString") ==> r == Returns(Raw("[object Undefined]"))
    ensures tag == Some("constructor") ==> r == NotAString
  {
    var key := tag.GetOr("");
    if !IsPrototypeKey(key) then ByTable
    else if key == "toString" then Returns(Raw("[object Undefined]"))
    else if key == "constructor" then NotAString
    else Throws
  }

  /**
   * `renderContentBlock` with the lookup as written, where `table` is the fragment the
   * table's template or the fallback renders: `Err` when the inherited member throws, which
   * aborts the page.
   */
  function ContentBlockAsWritten(tag: Option<string>, table: Option<Node>): (r: Result<Option<Node>>)
  {
    match DispatchAsWritten(tag)
    case ByTable => Ok(table)
    case Returns(f) => Ok(Some(f))
    case NotAString => Ok(None)
    case Throws => Err("TypeError")
  }

  /**
   * The lookup as written renders what the table renders exactly off the inherited member
   * names; on those it never consults the table, and those names are all the fallback's.
   */
  lemma AsWrittenDiffersOnlyOnPrototypeKeys(tag: Option<string>, table: Option<Node>)
    ensures !IsPrototypeKey(tag.GetOr("")) ==> ContentBlockAsWritten(tag, table) == Ok(table)
    ensures IsPrototypeKey(tag.GetOr("")) ==>
      KindOf(tag).Other? && forall other :: ContentBlockAsWritten(tag, other) == ContentBlockAsWritten(tag, table)
  {
    if IsPrototypeKey(tag.GetOr("")) {
      KindOfPrototype(tag.GetOr(""));
    }
  }

  /**
   * The session renders what the source renders for every tag that is not an inherited
   * member name: its fragment is what the lookup as written yields.
   */
  lemma SessionAgreesOffPrototype(ext: Externals, ctx: RenderContext, block: Content, s: SessionState)
    requires !IsPrototypeKey(block.blockType.GetOr(""))
    ensures var f := FragmentOf(ext, ctx, KindOf(block.blockType), block, s);
      ContentBlockAsWritten(block.blockType, f) == Ok(f)
  {
    AsWrittenDiffersOnlyOnPrototypeKeys(block.blockType, FragmentOf(ext, ctx, KindOf(block.blockType), block, s));
  }

  /**
   * For `toString` the source shows `[object Undefined]` whatever the table holds, where the
   * session falls back to the unsupported-block notice.
   */
  lemma ToStringShowsObjectUndefined(table: Option<Node>)
    ensures ContentBlockAsWritten(Some("toString"), table) == Ok(Some(Raw("[object Undefined]")))
    ensures KindOf(Some("toString")) == Other("toString")
  {
    KindOfPrototype("toString");
  }

  /** No inherited member name is one of the table's own keys. */
  lemma KindOfPrototype(key: string)
    requires IsPrototypeKey(key)
    ensures KindOf(Some(key)) == Other(key)
  {
    if |key| < 10 {
      assert key == "toString" || key == "valueOf" || key == "__proto__";
    } else if |key| < 14 {
      assert key == "constructor" || key == "isPrototypeOf";
    }
  }

  // ---------------------------------------------------------------------------
  // A page's blocks

  /** The session after the blocks of `blocks`, in order, starting from `s`. */
  function StateAfter(ext: Externals, blocks: seq<Content>, s: SessionState): SessionState
    decreases |blocks|
  {
    if blocks == [] then s
    else
      var last := blocks[|blocks| - 1];
      NextState(ext, KindOf(last.blockType), last, StateAfter(ext, blocks[..|blocks| - 1], s))
  }

  /** The non-null fragments of `blocks`, in order, each rendered in the session its predecessors left. */
  function Fragments(ext: Externals, ctx: RenderContext, blocks: seq<Content>, s: SessionState): (r: seq<Node>)
    ensures |r| <= |blocks|
    decreases |blocks|
  {
    if blocks == [] then []
    else
      var last := blocks[|blocks| - 1];
      var f := FragmentOf(ext, ctx, KindOf(last.blockType), last, StateAfter(ext, blocks[..|blocks| - 1], s));
      Fragments(ext, ctx, blocks[..|blocks| - 1], s) + (if f.Some? then [f.value] else [])
  }

  /** The session block `i` of `blocks` sees. */
  function StateAt(ext: Externals, blocks: seq<Content>, s: SessionState, i: nat): SessionState
    requires i <= |blocks|
  {
    StateAfter(ext, blocks[..i], s)
  }

  /** The fragment of block `i` of `blocks`, in the session it sees. */
  function FragmentAt(ext: Externals, ctx: RenderContext, blocks: seq<Content>, s: SessionState, i: nat): Option<Node>
    requires i < |blocks|
  {
    FragmentOf(ext, ctx, KindOf(blocks[i].blockType), blocks[i], StateAt(ext, blocks, s, i))
  }

  /** One more block moves the session by that block's kind. */
  lemma StateStep(ext: Externals, blocks: seq<Content>, s: SessionState, i: nat)
    requires i < |blocks|
    ensures StateAt(ext, blocks, s, i + 1) == NextState(ext, KindOf(blocks[i].blockType), blocks[i], StateAt(ext, blocks, s, i))
  {
    assert blocks[..i + 1][..i] == blocks[..i];
  }

  /** One more block adds its fragment, if it has one, after those of the blocks before it. */
  lemma FragmentsStep(ext: Externals, ctx: RenderContext, blocks: seq<Content>, s: SessionState, i: nat)
    requires i < |blocks|
    ensures var f := FragmentAt(ext, ctx, blocks, s, i);
      Fragments(ext, ctx, blocks[..i + 1], s) == Fragments(ext, ctx, blocks[..i], s) + (if f.Some? then [f.value] else [])
  {
    assert blocks[..i + 1][..i] == blocks[..i];
  }

  /** `renderBlocks`: the serialized non-null fragments joined with line breaks, and the session after the page. */
  function RenderBlocksSpec(ext: Externals, ctx: RenderContext, blocks: seq<Content>, s: SessionState): (r: (string, SessionState))
  {
    (Join(SerializeEach(Fragments(ext, ctx, blocks, s)), "\n"), StateAfter(ext, blocks, s))
  }

  function SerializeEach(nodes: seq<Node>): (r: seq<string>)
    ensures |r| == |nodes| && forall i :: 0 <= i < |nodes| ==> r[i] == Serialize(nodes[i])
  {
    seq(|nodes|, i requires 0 <= i < |nodes| => Serialize(nodes[i]))
  }

  /** An empty content list renders to the empty string and leaves the session alone. */
  lemma EmptyContent(ext: Externals, ctx: RenderContext, s: SessionState)
    ensures RenderBlocksSpec(ext, ctx, [], s) == ("", s)
  {
  }

  /** Counters never go back along a page. */
  lemma {:induction false} CounterMonotone(ext: Externals, blocks: seq<Content>, s: SessionState, i: nat, j: nat, c: Counter)
    requires i <= j <= |blocks|
    ensures CounterValue(StateAt(ext, blocks, s, i), c) <= CounterValue(StateAt(ext, blocks, s, j), c)
    decreases j - i
  {
    if i < j {
      CounterMonotone(ext, blocks, s, i, j - 1, c);
      StateStep(ext, blocks, s, j - 1);
    }
  }

  /**
   * A block that draws an id from a counter leaves it strictly below the value any later
   * block sees: ids drawn along a page are pairwise distinct.
   */
  lemma IdsDrawnAreDistinct(ext: Externals, blocks: seq<Content>, s: SessionState, i: nat, j: nat, c: Counter)
    requires i < j <= |blocks|
    requires CounterValue(StateAt(ext, blocks, s, i + 1), c) == CounterValue(StateAt(ext, blocks, s, i), c) + 1
    ensures CounterValue(StateAt(ext, blocks, s, i), c) < CounterValue(StateAt(ext, blocks, s, j), c)
  {
    CounterMonotone(ext, blocks, s, i + 1, j, c);
  }

  /** The code block `i` of `blocks` as its template renders it in the session it sees. */
  function CodeBlockAt(ext: Externals, ctx: RenderContext, blocks: seq<Content>, s: SessionState, i: nat): Node
    requires i < |blocks|
  {
    var t := StateAt(ext, blocks, s, i);
    RenderCode(ext, ctx, blocks[i].codeData, t.loadedLanguages, t.codeBlocks).0
  }

  /** Two code blocks of one page that both have sections carry different ids. */
  lemma CodeBlockIdsDistinctInPage(ext: Externals, ctx: RenderContext, blocks: seq<Content>, s: SessionState, i: nat, j: nat)
    requires i < j < |blocks|
    requires KindOf(blocks[i].blockType) == CodeBlock && NormaliseCodeSections(blocks[i].codeData) != []
    requires KindOf(blocks[j].blockType) == CodeBlock && NormaliseCodeSections(blocks[j].codeData) != []
    ensures CodeBlockAt(ext, ctx, blocks, s, i).Element? && CodeBlockAt(ext, ctx, blocks, s, j).Element?
    ensures AttrValue(CodeBlockAt(ext, ctx, blocks, s, i).attrs, "id") != AttrValue(CodeBlockAt(ext, ctx, blocks, s, j).attrs, "id")
  {
    var si, sj := StateAt(ext, blocks, s, i), StateAt(ext, blocks, s, j);
    StateStep(ext, blocks, s, i);
    IdsDrawnAreDistinct(ext, blocks, s, i, j, CodeCounter);
    CodeBlockIdsDistinct(si.codeBlocks, sj.codeBlocks);
  }

  /** The script flag never goes back along a page. */
  lemma {:induction false} ScriptFlagMonotone(ext: Externals, blocks: seq<Content>, s: SessionState, i: nat, j: nat)
    requires i <= j <= |blocks|
    requires StateAt(ext, blocks, s, i).compareScriptInjected
    ensures StateAt(ext, blocks, s, j).compareScriptInjected
    decreases j - i
  {
    if i < j {
      ScriptFlagStep(ext, blocks, s, i);
      ScriptFlagMonotone(ext, blocks, s, i + 1, j);
    }
  }

  /** One block never clears the script flag. */
  lemma ScriptFlagStep(ext: Externals, blocks: seq<Content>, s: SessionState, i: nat)
    requires i < |blocks|
    requires StateAt(ext, blocks, s, i).compareScriptInjected
    ensures StateAt(ext, blocks, s, i + 1).compareScriptInjected
  {
    StateStep(ext, blocks, s, i);
  }

  /** Once a slider was rendered, every later slider comes without the script. */
  lemma CompareScriptEmittedOnce(ext: Externals, ctx: RenderContext, blocks: seq<Content>, s: SessionState, i: nat, j: nat)
    requires i < j < |blocks|
    requires KindOf(blocks[i].blockType) == ImageCompareBlock && IsSliderCompare(blocks[i].imageCompareData)
    requires IsSliderCompare(blocks[j].imageCompareData)
    ensures var t := StateAt(ext, blocks, s, j);
      RenderImageCompare(ext, ctx, blocks[j], t.compareSliders, t.compareScriptInjected).0 ==
        Some(Fragment([SliderCompare(ext, ctx, blocks[j], blocks[j].imageCompareData.value, CompareId(t.compareSliders)), Empty]))
  {
    StateStep(ext, blocks, s, i);
    ScriptFlagMonotone(ext, blocks, s, i + 1, j);
    var t := StateAt(ext, blocks, s, j);
    SliderOutcome(ext, ctx, blocks[j], t.compareSliders, t.compareScriptInjected);
  }

  // ---------------------------------------------------------------------------
  // The session object

  /** The module-level counters and flags of the block templates, as one object. */
  class RenderSession {
    var codeBlocks: nat
    var carousels: nat
    var compareSliders: nat
    var compareScriptInjected: bool
    var loadedLanguages: set<string>

    function State(): SessionState
      reads this
    {
      SessionState(codeBlocks, carousels, compareSliders, compareScriptInjected, loadedLanguages)
    }

    /** A fresh session, as when the module is first loaded. */
    constructor()
      ensures State() == InitialSession
    {
      codeBlocks, carousels, compareSliders := 0, 0, 0;
      compareScriptInjected := false;
      loadedLanguages := {"plaintext"};
    }

    /**
     * `renderContentBlock`: the fragment of the template the block's tag selects, with the
     * session advanced as that template advances it (see `CodeTemplateAgrees`,
     * `CarouselTemplateAgrees` and `CompareTemplateAgrees`).
     */
    method RenderContentBlock(ext: Externals, ctx: RenderContext, block: Content) returns (r: Option<Node>)
      modifies this
      ensures r == FragmentOf(ext, ctx, KindOf(block.blockType), block, old(State()))
      ensures State() == NextState(ext, KindOf(block.blockType), block, old(State()))
    {
      var k := KindOf(block.blockType);
      var s := State();
      r := FragmentOf(ext, ctx, k, block, s);
      SetState(NextState(ext, k, block, s));
    }

    /** Stores a session state in the fields. */
    method SetState(t: SessionState)
      modifies this
      ensures State() == t
    {
      codeBlocks, carousels, compareSliders := t.codeBlocks, t.carousels, t.compareSliders;
      compareScriptInjected, loadedLanguages := t.compareScriptInjected, t.loadedLanguages;
    }

    /** `renderBlocks`: each block in order, nulls dropped, the fragments joined with line breaks. */
    method RenderBlocks(ext: Externals, ctx: RenderContext, content: seq<Content>) returns (html: string)
      modifies this
      ensures (html, State()) == RenderBlocksSpec(ext, ctx, content, old(State()))
    {
      ghost var s0 := State();
      var fragments: seq<Node> := [];
      var i := 0;
      while i < |content|
        invariant 0 <= i <= |content|
        invariant fragments == Fragments(ext, ctx, content[..i], s0)
        invariant State() == StateAt(ext, content, s0, i)
      {
        FragmentsStep(ext, ctx, content, s0, i);
        StateStep(ext, content, s0, i);
        var fragment := RenderContentBlock(ext, ctx, content[i]);
        if fragment.Some? {
          fragments := fragments + [fragment.value];
        }
        i := i + 1;
      }
      assert content[..i] == content;
      html := Join(SerializeEach(fragments), "\n");
    }
  }
}
