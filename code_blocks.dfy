/**
 * The code block: section normalisation, Prism language names and loading, highlighted
 * segments with optional line numbers, and the tabbed markup of a multi-section block.
 */
module CodeBlocks {
  import opened Wrappers
  import opened Text
  import opened Html
  import opened Docs
  import opened Helpers
  import opened Blocks

  // ---------------------------------------------------------------------------
  // Sections

  /** The block lists explicit sections. */
  predicate HasSections(data: CodeData)
  {
    data.sections.Some? && data.sections.value != []
  }

  /**
   * The sections of a code block: the explicit sections (missing content read as empty),
   * else one section made of the block's own content when it has any, else none.
   */
  function NormaliseCodeSections(data: Option<CodeData>): (r: seq<CodeSection>)
    ensures data.Some? && HasSections(data.value) ==>
      && |r| == |data.value.sections.value|
      && forall i :: 0 <= i < |r| ==>
           var s := data.value.sections.value[i];
           r[i] == CodeSection(s.language, Some(s.content.GetOr("")), s.filename)
    ensures data.Some? && !HasSections(data.value) && Truthy(data.value.content) ==>
      r == [CodeSection(Some(data.value.language.GetOr("plaintext")), data.value.content, data.value.name)]
    ensures r == [] <==> data.None? || (!HasSections(data.value) && !Truthy(data.value.content))
    ensures forall i :: 0 <= i < |r| ==> r[i].content.Some?
  {
    if data.None? then []
    else if HasSections(data.value) then
      var ss := data.value.sections.value;
      seq(|ss|, i requires 0 <= i < |ss| => CodeSection(ss[i].language, Some(ss[i].content.GetOr("")), ss[i].filename))
    else if Truthy(data.value.content) then
      [CodeSection(Some(data.value.language.GetOr("plaintext")), data.value.content, data.value.name)]
    else []
  }

  // ---------------------------------------------------------------------------
  // Prism languages

  /** `PRISM_LANGUAGE_ALIASES`: common names and file extensions to Prism language ids. */
  const PrismAliases: map<string, string> := map[
    "js" := "javascript", "jsx" := "jsx", "ts" := "typescript", "tsx" := "tsx",
    "mjs" := "javascript", "cjs" := "javascript", "sh" := "bash", "shell" := "bash",
    "zsh" := "bash", "html" := "markup", "xml" := "markup", "svg" := "markup",
    "yml" := "yaml", "md" := "markdown", "csharp" := "csharp", "c#" := "csharp",
    "cpp" := "cpp", "c++" := "cpp", "kt" := "kotlin", "rb" := "ruby",
    "ps" := "powershell", "ps1" := "powershell", "dockerfile" := "docker",
    "plaintext" := "plaintext", "text" := "plaintext"]

  /** `normalizePrismLanguage`: `plaintext` for nothing, else the lower-cased name through the alias table. */
  function NormalizePrismLanguage(value: Option<string>): (r: string)
    ensures !Truthy(value) ==> r == "plaintext"
    ensures Truthy(value) && ToLower(value.value) in PrismAliases ==> r == PrismAliases[ToLower(value.value)]
    ensures Truthy(value) && ToLower(value.value) !in PrismAliases ==> r == ToLower(value.value)
    ensures r != ""
  {
    if !Truthy(value) then "plaintext"
    else
      var raw := ToLower(value.value);
      if raw in PrismAliases then PrismAliases[raw] else raw
  }

  /** A string without upper-case ASCII letters is its own lower-case form. */
  lemma {:induction false} ToLowerFixed(s: string)
    requires forall i :: 0 <= i < |s| ==> !('A' <= s[i] <= 'Z')
    ensures ToLower(s) == s
  {
    if s != [] {
      ToLowerFixed(s[1..]);
      assert s == [s[0]] + s[1..];
    }
  }

  /** The alias targets that are keys of the table themselves. */
  const SelfAliasTargets: set<string> := {"jsx", "tsx", "csharp", "cpp", "plaintext"}

  /** The alias targets reached only through another name, in two halves. */
  const RenamedTargetsA: set<string> := {"javascript", "typescript", "bash", "markup", "yaml"}
  const RenamedTargetsB: set<string> := {"markdown", "kotlin", "ruby", "powershell", "docker"}

  /** The languages the alias table maps to. */
  const PrismAliasTargets: set<string> := SelfAliasTargets + RenamedTargetsA + RenamedTargetsB

  lemma AliasTargetIn(k: string)
    requires k in PrismAliases
    ensures PrismAliases[k] in PrismAliasTargets
  {
  }

  lemma AliasTargetLower(t: string)
    requires t in PrismAliasTargets
    ensures forall i :: 0 <= i < |t| ==> !('A' <= t[i] <= 'Z')
  {
  }

  lemma SelfTargetsMapToThemselves(t: string)
    requires t in SelfAliasTargets
    ensures t in PrismAliases && PrismAliases[t] == t
  {
  }

  lemma RenamedTargetsAreNotKeysA(t: string)
    requires t in RenamedTargetsA
    ensures t !in PrismAliases
  {
  }

  lemma RenamedTargetsAreNotKeysB(t: string)
    requires t in RenamedTargetsB
    ensures t !in PrismAliases
  {
  }

  /** A target that is also a key maps to itself. */
  lemma AliasTargetKey(t: string)
    requires t in PrismAliasTargets && t in PrismAliases
    ensures PrismAliases[t] == t
  {
    if t in SelfAliasTargets {
      SelfTargetsMapToThemselves(t);
    } else if t in RenamedTargetsA {
      RenamedTargetsAreNotKeysA(t);
    } else {
      RenamedTargetsAreNotKeysB(t);
    }
  }

  /** Every alias names a language that normalises to itself. */
  lemma AliasTargetsAreNormal(k: string)
    requires k in PrismAliases
    ensures NormalizePrismLanguage(Some(PrismAliases[k])) == PrismAliases[k]
  {
    var t := PrismAliases[k];
    AliasTargetIn(k);
    AliasTargetLower(t);
    ToLowerFixed(t);
    if t in PrismAliases {
      AliasTargetKey(t);
    }
  }

  /** Normalising a normalised name changes nothing. */
  lemma NormalizeIdempotent(value: Option<string>)
    ensures NormalizePrismLanguage(Some(NormalizePrismLanguage(value))) == NormalizePrismLanguage(value)
  {
    if !Truthy(value) {
      AliasTargetsAreNormal("plaintext");
    } else {
      var raw := ToLower(value.value);
      ToLowerIdempotent(value.value);
      if raw in PrismAliases {
        AliasTargetsAreNormal(raw);
      }
    }
  }

  /**
   * `ensurePrismLanguage`: an empty or already loaded language changes nothing; otherwise
   * the language is recorded as loaded unless loading it throws.
   */
  function EnsurePrismLanguage(prism: Prism, loaded: set<string>, language: string): (r: set<string>)
    ensures loaded <= r && r <= loaded + {language}
    ensures language in r <==> language in loaded || (language != "" && language !in prism.loadThrows)
  {
    if language == "" || language in loaded then loaded
    else if language in prism.loadThrows then loaded
    else loaded + {language}
  }

  /** The grammar Prism uses: the language's own when it has one, else the plain-text grammar. */
  function GrammarName(prism: Prism, loaded: set<string>, language: string): (r: string)
    ensures r == language || r == "plaintext"
  {
    if language in prism.builtin || (language in loaded && language in prism.components) then language else "plaintext"
  }

  /** The result of `highlightWithPrism`, with the loaded-language set after it. */
  datatype Highlighted = Highlighted(highlighted: Node, prismLanguage: string, loaded: set<string>)

  /**
   * `highlightWithPrism`: Prism's markup under the normalised language; when highlighting
   * throws, the escaped code under `plaintext`.
   */
  function HighlightWithPrism(prism: Prism, loaded: set<string>, code: string, languageRaw: Option<string>): (r: Highlighted)
    ensures r.loaded == EnsurePrismLanguage(prism, loaded, NormalizePrismLanguage(languageRaw))
    ensures var language := NormalizePrismLanguage(languageRaw);
      match prism.highlight(code, GrammarName(prism, r.loaded, language), language)
      case Some(h) => r.highlighted == Raw(h) && r.prismLanguage == language
      case None => r.highlighted == Str(code) && r.prismLanguage == "plaintext"
  {
    var language := NormalizePrismLanguage(languageRaw);
    var loaded' := EnsurePrismLanguage(prism, loaded, language);
    match prism.highlight(code, GrammarName(prism, loaded', language), language)
    case Some(h) => Highlighted(Raw(h), language, loaded')
    case None => Highlighted(Str(code), "plaintext", loaded')
  }

  // ---------------------------------------------------------------------------
  // Segments

  /** What is kept of each rendered section. */
  datatype Segment = Segment(
    highlighted: Node, prismLanguage: string, languageName: string,
    lineNumberColumn: Node, whitespaceClass: string)

  /**
   * The language shown for a section: the configured name of the section's language (or of
   * the Prism language when the section has none), else that of the Prism language, else
   * the section's language as written.
   */
  function LanguageName(ext: Externals, sectionLanguage: Option<string>, prismLanguage: string): (r: string)
    ensures sectionLanguage.GetOr(prismLanguage) in ext.codeLanguageNames ==>
      r == ext.codeLanguageNames[sectionLanguage.GetOr(prismLanguage)]
    ensures sectionLanguage.GetOr(prismLanguage) !in ext.codeLanguageNames && prismLanguage in ext.codeLanguageNames ==>
      r == ext.codeLanguageNames[prismLanguage]
    ensures sectionLanguage.GetOr(prismLanguage) !in ext.codeLanguageNames && prismLanguage !in ext.codeLanguageNames ==>
      r == sectionLanguage.GetOr(prismLanguage)
  {
    var displayKey := sectionLanguage.GetOr(prismLanguage);
    if displayKey in ext.codeLanguageNames then ext.codeLanguageNames[displayKey]
    else if prismLanguage in ext.codeLanguageNames then ext.codeLanguageNames[prismLanguage]
    else displayKey
  }

  /** The number of line `i` (counting from 0). */
  function LineNumber(i: nat): Node
  {
    E("div", [Class("leading-6 min-h-[1.5rem]")], [Str(NatToString(i + 1))])
  }

  /** The line-number column: nothing when switched off, else one number per line of the content. */
  function LineNumberColumn(ctx: RenderContext, content: string, show: bool): (r: Node)
    ensures !show ==> r == Empty
    ensures show ==>
      && r.Element? && |r.children| == |Split(content, '\n')|
      && forall i :: 0 <= i < |r.children| ==> r.children[i] == LineNumber(i)
  {
    if !show then Empty
    else
      var lines := Split(content, '\n');
      E("div", [Class(ClassNames(["select-none flex-shrink-0 text-right", StyleOr(ctx, "code.lines", "")])),
                Attr("style", "padding-right:1rem;margin-right:1.25rem;")],
        seq(|lines|, i requires 0 <= i < |lines| => LineNumber(i)))
  }

  /** One section rendered: line numbers unless switched off explicitly, wrapping on request. */
  function RenderSegment(ext: Externals, ctx: RenderContext, data: CodeData, section: CodeSection, loaded: set<string>): (r: (Segment, set<string>))
    ensures var h := HighlightWithPrism(ext.prism, loaded, section.content.GetOr(""), section.language);
      && r.1 == h.loaded
      && r.0.highlighted == h.highlighted && r.0.prismLanguage == h.prismLanguage
      && r.0.languageName == LanguageName(ext, section.language, h.prismLanguage)
    ensures (r.0.lineNumberColumn == Empty) <== (data.showLineNumbers == Some(false))
    ensures data.showLineNumbers != Some(false) ==>
      r.0.lineNumberColumn.Element? && |r.0.lineNumberColumn.children| == |Split(section.content.GetOr(""), '\n')|
  {
    var content := section.content.GetOr("");
    var h := HighlightWithPrism(ext.prism, loaded, content, section.language);
    var column := LineNumberColumn(ctx, content, data.showLineNumbers != Some(false));
    var ws := if data.wrapLines then "whitespace-pre-wrap break-words" else "whitespace-pre";
    (Segment(h.highlighted, h.prismLanguage, LanguageName(ext, section.language, h.prismLanguage), column, ws), h.loaded)
  }

  /**
   * The loaded languages after highlighting `sections` in order: every section's language
   * is loaded afterwards unless loading it throws, and nothing else is added.
   */
  function LoadedAfter(prism: Prism, sections: seq<CodeSection>, loaded: set<string>): (r: set<string>)
    ensures loaded <= r
    ensures forall l :: l in r && l !in loaded ==>
      l !in prism.loadThrows && exists i :: 0 <= i < |sections| && l == NormalizePrismLanguage(sections[i].language)
    ensures forall i :: 0 <= i < |sections| && NormalizePrismLanguage(sections[i].language) !in prism.loadThrows ==>
      NormalizePrismLanguage(sections[i].language) in r
  {
    if sections == [] then loaded
    else
      var first := EnsurePrismLanguage(prism, loaded, NormalizePrismLanguage(sections[0].language));
      var r := LoadedAfter(prism, sections[1..], first);
      assert forall l :: l in r && l !in loaded ==>
        l !in prism.loadThrows && exists i :: 0 <= i < |sections| && l == NormalizePrismLanguage(sections[i].language) by {
        forall l | l in r && l !in loaded
          ensures l !in prism.loadThrows && exists i :: 0 <= i < |sections| && l == NormalizePrismLanguage(sections[i].language)
        {
          if l !in first {
            var j :| 0 <= j < |sections[1..]| && l == NormalizePrismLanguage(sections[1..][j].language);
            assert l == NormalizePrismLanguage(sections[j + 1].language);
          } else {
            assert l == NormalizePrismLanguage(sections[0].language);
          }
        }
      }
      assert forall i :: 0 <= i < |sections| && NormalizePrismLanguage(sections[i].language) !in prism.loadThrows ==>
        NormalizePrismLanguage(sections[i].language) in r by {
        forall i | 0 <= i < |sections| && NormalizePrismLanguage(sections[i].language) !in prism.loadThrows
          ensures NormalizePrismLanguage(sections[i].language) in r
        {
          if i > 0 {
            assert sections[i] == sections[1..][i - 1];
          }
        }
      }
      r
  }

  /** The sections rendered in order, each seeing the languages loaded by those before it. */
  function RenderSegments(ext: Externals, ctx: RenderContext, data: CodeData, sections: seq<CodeSection>, loaded: set<string>): (r: (seq<Segment>, set<string>))
    ensures |r.0| == |sections|
    ensures r.1 == LoadedAfter(ext.prism, sections, loaded)
  {
    if sections == [] then ([], loaded)
    else
      var first := RenderSegment(ext, ctx, data, sections[0], loaded);
      var rest := RenderSegments(ext, ctx, data, sections[1..], first.1);
      ([first.0] + rest.0, rest.1)
  }

  // ---------------------------------------------------------------------------
  // Markup

  /** The id of the `n`-th code block rendered by the process. */
  function CodeBlockId(n: nat): string
  {
    "code-block-" + NatToString(n)
  }

  /** Different counter values give different block ids. */
  lemma CodeBlockIdsDistinct(m: nat, n: nat)
    requires m != n
    ensures CodeBlockId(m) != CodeBlockId(n)
  {
    NatToStringInjective(m, n);
    var p := "code-block-";
    assert (p + NatToString(m))[|p|..] == NatToString(m);
    assert (p + NatToString(n))[|p|..] == NatToString(n);
  }

  /** The block's title: its name, else the first section's file name, else the configured language name, else `Code`. */
  function CodeTitle(ext: Externals, data: CodeData, sections: seq<CodeSection>): (r: string)
    requires sections != []
    ensures data.name.Some? ==> r == data.name.value
    ensures data.name.None? && sections[0].filename.Some? ==> r == sections[0].filename.value
    ensures (data.name.None? && sections[0].filename.None?
             && (sections[0].language.None? || sections[0].language.value !in ext.codeLanguageNames)) ==> r == "Code"
  {
    if data.name.Some? then data.name.value
    else if sections[0].filename.Some? then sections[0].filename.value
    else if sections[0].language.Some? && sections[0].language.value in ext.codeLanguageNames then
      ext.codeLanguageNames[sections[0].language.value]
    else "Code"
  }

  // The fixed class strings and texts of the code block.
  const CodeTabLabelsClass := "static-code-tab-labels flex items-center gap-1 flex-wrap"
  const CodeHeaderClass := "px-3 py-2 flex flex-wrap gap-2 items-center justify-between static-code-header"
  const CodeHeaderLeadingClass := "flex items-center gap-2 min-w-0 flex-1 flex-wrap"
  const CodeStaticNote := "Static snippet (copy/download disabled)"
  const CodePreClass := " text-sm w-full overflow-x-auto "
  const CodeBadgeClass := "static-code-language-badge "
  const CodeEmptyClass := "bg-gray-50 text-gray-500 text-sm border"
  const NoCodeText := "No code content provided"

  /** One code panel: the highlighted code under its language class, and the language badge. */
  function Panel(ctx: RenderContext, segment: Segment): Node
  {
    var codeNode := E("code", [Class("language-" + segment.prismLanguage + " block p-4")], [segment.highlighted]);
    E("div", [Class("static-code-panel")],
      [E("pre", [Class("language-" + segment.prismLanguage + CodePreClass + segment.whitespaceClass)],
         [E("div", [Class("flex min-h-full")], [segment.lineNumberColumn, E("div", [Class("flex-1 relative")], [codeNode])])]),
       E("div", [Class(CodeBadgeClass + StyleOr(ctx, "code.language", ""))], [Str(segment.languageName)])])
  }

  /** The id of the radio input of tab `i`. */
  function TabOptionId(blockId: string, i: nat): string
  {
    blockId + "-option-" + NatToString(i)
  }

  /** The radio input of tab `i`; only the first is checked. */
  function TabInput(blockId: string, i: nat): (r: Node)
    ensures r.Element? && r.tag == "input"
  {
    E("input", [Attr("type", "radio"), Attr("name", blockId + "-tab"), Attr("id", TabOptionId(blockId, i)),
                Class("static-code-tab-input")] + (if i == 0 then [Flag("checked")] else []), [])
  }

  /** The input of tab `i` has the tab's option id, and it is checked exactly when it is the first. */
  lemma TabInputAttrs(blockId: string, i: nat)
    ensures AttrValue(TabInput(blockId, i).attrs, "id") == Some(TabOptionId(blockId, i))
    ensures AttrValue(TabInput(blockId, i).attrs, "checked").Some? <==> i == 0
  {
    var attrs := TabInput(blockId, i).attrs;
    var fixed := attrs[..4];
    var extra := attrs[4..];
    assert attrs == fixed + extra;
    AttrValueAppend(fixed, extra, "id");
    AttrValueAppend(fixed, extra, "checked");
    assert fixed[0] == Attr("type", "radio") && fixed[1] == Attr("name", blockId + "-tab");
    assert fixed[2] == Attr("id", TabOptionId(blockId, i)) && fixed[3] == Class("static-code-tab-input");
    assert AttrValue(fixed, "id") == AttrValue(fixed[1..], "id") == AttrValue(fixed[1..][1..], "id");
    assert AttrValue(fixed, "checked") == AttrValue(fixed[1..], "checked") == AttrValue(fixed[1..][1..], "checked");
    assert AttrValue(fixed[1..][1..], "checked") == AttrValue(fixed[1..][1..][1..], "checked");
    assert AttrValue(fixed[1..][1..][1..], "checked") == AttrValue(fixed[1..][1..][1..][1..], "checked");
    assert fixed[1..][1..][1..][1..] == [];
    if i == 0 {
      assert extra == [Flag("checked")];
    } else {
      assert extra == [];
    }
  }

  /** The label of tab `i`: the segment's language name, pointing at the tab's input. */
  function TabLabel(ctx: RenderContext, blockId: string, i: nat, segment: Segment): (r: Node)
    ensures r.Element? && r.tag == "label" && r.children == [Str(segment.languageName)]
    ensures AttrValue(r.attrs, "for") == Some(TabOptionId(blockId, i))
  {
    E("label", [Class(ClassNames(["static-code-tab-label", StyleOr(ctx, "buttons.tabSmall", "")])),
                Attr("for", TabOptionId(blockId, i))], [Str(segment.languageName)])
  }

  /**
   * A rule of a multi-section block's inline style: for tab `nth`, the rule that shows its
   * panel and highlights its label when its input is checked, and the dark-scheme variant.
   */
  datatype TabCss = TabSelected(blockId: string, nth: nat) | TabSelectedDark(blockId: string, nth: nat)

  /** The fixed pieces of the rule texts. */
  datatype CodeCss = InputOfType | CheckedLabel | LabelLight | CheckedPanel | PanelShown | DarkScheme | LabelDark | PanelsHidden

  function CodeCssText(piece: CodeCss): string
  {
    match piece
    case InputOfType => " .static-code-tab-input:nth-of-type("
    case CheckedLabel => "):checked ~ .static-code-header .static-code-tab-labels label:nth-of-type("
    case LabelLight => ") { background-color: rgba(59, 130, 246, 0.24); border-color: rgba(59, 130, 246, 0.4); color: inherit; }\n"
    case CheckedPanel => "):checked ~ .static-code-body .static-code-tab-panels .static-code-panel:nth-of-type("
    case PanelShown => ") { display: block; }"
    case DarkScheme => "@media (prefers-color-scheme: dark) { #"
    case LabelDark => ") { background-color: rgba(96, 165, 250, 0.3); border-color: rgba(147, 197, 253, 0.45); color: #f8fafc; } }"
    case PanelsHidden => " .static-code-tab-panels .static-code-panel { display: none; }\n"
  }

  /** The text of a rule. */
  function TabCssText(rule: TabCss): string
  {
    var id := EscapeHtml(rule.blockId);
    var n := NatToString(rule.nth);
    match rule
    case TabSelected(_, _) =>
      "#" + id + CodeCssText(InputOfType) + n + CodeCssText(CheckedLabel) + n + CodeCssText(LabelLight)
      + "#" + id + CodeCssText(InputOfType) + n + CodeCssText(CheckedPanel) + n + CodeCssText(PanelShown)
    case TabSelectedDark(_, _) =>
      CodeCssText(DarkScheme) + id + CodeCssText(InputOfType) + n + CodeCssText(CheckedLabel) + n + CodeCssText(LabelDark)
  }

  /** The inputs of `n` tabs. */
  function TabInputs(blockId: string, n: nat): (r: seq<Node>)
    ensures |r| == n && forall i :: 0 <= i < n ==> r[i] == TabInput(blockId, i)
  {
    seq(n, i requires 0 <= i < n => TabInput(blockId, i))
  }

  /** No two tabs of a block share an input id, and exactly the first input is checked. */
  lemma TabInputsDistinct(blockId: string, n: nat, i: nat, j: nat)
    requires i < n && j < n && i != j
    ensures AttrValue(TabInputs(blockId, n)[i].attrs, "id") != AttrValue(TabInputs(blockId, n)[j].attrs, "id")
    ensures AttrValue(TabInputs(blockId, n)[i].attrs, "checked").Some? <==> i == 0
  {
    TabInputAttrs(blockId, i);
    TabInputAttrs(blockId, j);
    NatToStringInjective(i, j);
    var p := blockId + "-option-";
    assert (p + NatToString(i))[|p|..] == NatToString(i);
    assert (p + NatToString(j))[|p|..] == NatToString(j);
  }

  /** The labels of the tabs, one per segment. */
  function TabLabels(ctx: RenderContext, blockId: string, segments: seq<Segment>): (r: seq<Node>)
    ensures |r| == |segments| && forall i :: 0 <= i < |r| ==> r[i] == TabLabel(ctx, blockId, i, segments[i])
  {
    seq(|segments|, i requires 0 <= i < |segments| => TabLabel(ctx, blockId, i, segments[i]))
  }

  /** The panels, one per segment. */
  function Panels(ctx: RenderContext, segments: seq<Segment>): (r: seq<Node>)
    ensures |r| == |segments| && forall i :: 0 <= i < |r| ==> r[i] == Panel(ctx, segments[i])
  {
    seq(|segments|, i requires 0 <= i < |segments| => Panel(ctx, segments[i]))
  }

  /** The style rules of the first `n` tabs: for each, its rule and then its dark variant. */
  function TabStyles(blockId: string, n: nat): (r: seq<TabCss>)
    ensures |r| == 2 * n
  {
    if n == 0 then [] else TabStyles(blockId, n - 1) + [TabSelected(blockId, n), TabSelectedDark(blockId, n)]
  }

  /** Tab `i` (from 0) owns rules `2i` and `2i + 1`, both for its position `i + 1`. */
  lemma {:induction false} TabStylesAt(blockId: string, n: nat, i: nat)
    requires i < n
    ensures TabStyles(blockId, n)[2 * i] == TabSelected(blockId, i + 1)
    ensures TabStyles(blockId, n)[2 * i + 1] == TabSelectedDark(blockId, i + 1)
  {
    if i < n - 1 {
      TabStylesAt(blockId, n - 1, i);
    }
  }

  /**
   * The tab loop of a multi-section block: for each segment in order, its input, its label,
   * its panel and its two style rules.
   */
  method BuildTabs(ctx: RenderContext, blockId: string, segments: seq<Segment>)
    returns (inputs: seq<Node>, labels: seq<Node>, panels: seq<Node>, styles: seq<TabCss>)
    ensures inputs == TabInputs(blockId, |segments|)
    ensures labels == TabLabels(ctx, blockId, segments)
    ensures panels == Panels(ctx, segments)
    ensures styles == TabStyles(blockId, |segments|)
  {
    inputs, labels, panels, styles := [], [], [], [];
    var index := 0;
    while index < |segments|
      invariant 0 <= index <= |segments|
      invariant inputs == TabInputs(blockId, index)
      invariant labels == TabLabels(ctx, blockId, segments[..index])
      invariant panels == Panels(ctx, segments[..index])
      invariant styles == TabStyles(blockId, index)
    {
      var nth := index + 1;
      inputs := inputs + [TabInput(blockId, index)];
      labels := labels + [TabLabel(ctx, blockId, index, segments[index])];
      panels := panels + [Panel(ctx, segments[index])];
      styles := styles + [TabSelected(blockId, nth), TabSelectedDark(blockId, nth)];
      index := index + 1;
      assert segments[..index] == segments[..index - 1] + [segments[index - 1]];
    }
    assert segments[..index] == segments;
  }

  /** The placeholder of a code block without content. */
  function NoCode(ctx: RenderContext): Node
  {
    E("div", [Class(ClassNames(["mb-6 p-4", StyleOr(ctx, "code.empty", CodeEmptyClass)]))],
      [Str(NoCodeText)])
  }

  /** The texts of the rules joined with line breaks (`styleParts.join("\n")`). */
  function TabCssJoined(rules: seq<TabCss>): string
  {
    if |rules| == 0 then ""
    else if |rules| == 1 then TabCssText(rules[0])
    else TabCssText(rules[0]) + "\n" + TabCssJoined(rules[1..])
  }

  /** The inline style of a multi-section block: all panels hidden but the checked one. */
  function TabStyleSheet(blockId: string, n: nat): Node
  {
    E("style", [], [Raw("\n#" + EscapeHtml(blockId) + CodeCssText(PanelsHidden)
                        + TabCssJoined(TabStyles(blockId, n)) + "\n")])
  }

  /** The header of a code block: the title (and, for several sections, the tab labels) and the static-snippet note. */
  function CodeHeader(ext: Externals, ctx: RenderContext, data: CodeData, sections: seq<CodeSection>,
                      segments: seq<Segment>, blockId: string): Node
    requires sections != []
  {
    var labels :=
      if |segments| > 1 then [E("div", [Class(CodeTabLabelsClass)], TabLabels(ctx, blockId, segments))]
      else [];
    var titleNode := E("span", [Class("font-mono text-sm truncate")], [Str(CodeTitle(ext, data, sections))]);
    E("div", [Class(ClassNames([CodeHeaderClass,
                                StyleOr(ctx, "code.header", "")]))],
      [E("div", [Class(CodeHeaderLeadingClass)], [titleNode] + labels),
       E("span", [Class(StyleOr(ctx, "code.language", "text-xs text-gray-300"))],
         [Str(CodeStaticNote)])])
  }

  /** The body of a code block: every panel for several sections, else the single one. */
  function CodeBody(ctx: RenderContext, segments: seq<Segment>): Node
    requires segments != []
  {
    var panels := if |segments| > 1 then Panels(ctx, segments) else [Panel(ctx, segments[0])];
    E("div", [Class("static-code-body")], [E("div", [Class("static-code-tab-panels")], panels)])
  }

  /**
   * The children of a code block: the tab inputs and the inline style (several sections
   * only), then the header and the body.
   */
  function CodeBlockChildren(ext: Externals, ctx: RenderContext, data: CodeData, sections: seq<CodeSection>,
                             segments: seq<Segment>, blockId: string): (r: seq<Node>)
    requires sections != [] && |segments| == |sections|
    ensures |segments| > 1 ==> |r| == |segments| + 3 && r[..|segments|] == TabInputs(blockId, |segments|)
    ensures |segments| == 1 ==> |r| == 2
  {
    var multi := |segments| > 1;
    var inputs := if multi then TabInputs(blockId, |segments|) else [];
    var style := if multi then [TabStyleSheet(blockId, |segments|)] else [];
    var rest := style + [CodeHeader(ext, ctx, data, sections, segments, blockId), CodeBody(ctx, segments)];
    assert (inputs + rest)[..|inputs|] == inputs;
    inputs + rest
  }

  const CodeContainerClass := "relative mb-6 overflow-hidden rounded border border-gray-300 static-code-block"

  /** The markup of a code block with sections, under its block id. */
  function CodeBlockMarkup(ext: Externals, ctx: RenderContext, data: CodeData, sections: seq<CodeSection>,
                           segments: seq<Segment>, blockId: string): (r: Node)
    requires sections != [] && |segments| == |sections|
    ensures r.Element? && AttrValue(r.attrs, "id") == Some(blockId)
  {
    E("div", [Class(ClassNames([CodeContainerClass])), Attr("id", blockId)],
      CodeBlockChildren(ext, ctx, data, sections, segments, blockId))
  }

  /** The markup of a code block: the placeholder without sections, else the block under the id of block number `counter`. */
  function CodeMarkup(ext: Externals, ctx: RenderContext, data: Option<CodeData>, loaded: set<string>, counter: nat): Node
  {
    var sections := NormaliseCodeSections(data);
    if sections == [] then NoCode(ctx)
    else CodeBlockMarkup(ext, ctx, data.value, sections, RenderSegments(ext, ctx, data.value, sections, loaded).0, CodeBlockId(counter))
  }

  /**
   * The code block, given the loaded languages and the block counter: its markup, the
   * languages loaded once its sections are rendered, and the counter, which advances by
   * one exactly when the block has sections.
   */
  function RenderCode(ext: Externals, ctx: RenderContext, data: Option<CodeData>, loaded: set<string>, counter: nat)
    : (Node, set<string>, nat)
  {
    var sections := NormaliseCodeSections(data);
    (CodeMarkup(ext, ctx, data, loaded, counter),
     if sections == [] then loaded else RenderSegments(ext, ctx, data.value, sections, loaded).1,
     if sections == [] then counter else counter + 1)
  }

  /**
   * Without sections a code block is the placeholder and changes nothing; with sections it
   * carries the id of the current counter, which advances by one. Either way the loaded
   * languages grow as `LoadedAfter` says.
   */
  lemma CodeOutcome(ext: Externals, ctx: RenderContext, data: Option<CodeData>, loaded: set<string>, counter: nat)
    ensures var r := RenderCode(ext, ctx, data, loaded, counter);
      && (NormaliseCodeSections(data) == [] ==> r == (NoCode(ctx), loaded, counter))
      && (NormaliseCodeSections(data) != [] ==>
            r.2 == counter + 1 && r.0.Element? && AttrValue(r.0.attrs, "id") == Some(CodeBlockId(counter)))
      && r.1 == LoadedAfter(ext.prism, NormaliseCodeSections(data), loaded)
  {
  }
}
