/**
 * The block templates for the text-like blocks — title, text, list, divider, message box —
 * and the table block. Each renderer receives the page context and the block's data and
 * gives the block's markup, or `None` where the template returns `null`.
 */
module Blocks {
  import opened Wrappers
  import opened Text
  import opened Html
  import opened Docs
  import opened Helpers

  /** A theme slot with the template's fallback (`ctx.styles.x.y ?? fallback`). */
  function StyleOr(ctx: RenderContext, slot: string, fallback: string): (r: string)
    ensures slot in ctx.styles ==> r == ctx.styles[slot]
    ensures slot !in ctx.styles ==> r == fallback
  {
    Slot(ctx.styles, slot).GetOr(fallback)
  }

  // ---------------------------------------------------------------------------
  // Title

  /** The heading level: `level ?? 1`, clamped to 1..6. */
  function TitleLevel(level: Option<int>): (l: nat)
    ensures 1 <= l <= 6
    ensures level.None? ==> l == 1
    ensures level.Some? && 1 <= level.value <= 6 ==> l == level.value
    ensures level.Some? && level.value < 1 ==> l == 1
    ensures level.Some? && level.value > 6 ==> l == 6
  {
    var v := level.GetOr(1);
    if v < 1 then 1 else if v > 6 then 6 else v
  }

  /** Levels 1 to 3 have their own theme slot; every level falls back to the document title class. */
  function TitleBaseClass(ctx: RenderContext, level: nat): (r: string)
    ensures level > 3 ==> r == StyleOr(ctx, "text.documentTitle", "")
    ensures level == 1 && "text.titleLevel1" in ctx.styles ==> r == ctx.styles["text.titleLevel1"]
  {
    var levelSlot :=
      if level == 1 then Slot(ctx.styles, "text.titleLevel1")
      else if level == 2 then Slot(ctx.styles, "text.titleLevel2")
      else if level == 3 then Slot(ctx.styles, "text.titleLevel3")
      else None;
    levelSlot.GetOr(StyleOr(ctx, "text.documentTitle", ""))
  }

  /** The heading id: the slug of the text when anchor links are enabled. */
  function HeadingId(ext: Externals, data: TitleData): (r: Option<string>)
    ensures r.Some? <==> data.enableAnchorLink && Truthy(data.text)
  {
    if data.enableAnchorLink then SlugFromTitle(ext, data.text) else None
  }

  /**
   * The `h1`..`h6` element of a title. It carries an `id` and a trailing `#` anchor link
   * exactly when anchor links are enabled and the slug is not empty.
   */
  function TitleHeading(ext: Externals, ctx: RenderContext, data: TitleData): (r: Node)
    requires Truthy(data.text)
    ensures r.Element? && r.tag == "h" + NatToString(TitleLevel(data.level))
    ensures var anchored := data.enableAnchorLink && ext.slugify(data.text.value) != "";
      && AttrValue(r.attrs, "id") == (if anchored then Some(ext.slugify(data.text.value)) else None)
      && |r.children| == (if anchored then 2 else 1)
      && r.children[0] == Str(data.text.value)
      && (anchored ==> r.children[1].Element? && r.children[1].tag == "a"
                       && AttrValue(r.children[1].attrs, "href") == Some("#" + ext.slugify(data.text.value)))
  {
    var level := TitleLevel(data.level);
    var alignment := GetAlignment(ext, data.alignment);
    var headingId := HeadingId(ext, data);
    var anchored := Truthy(headingId) && data.enableAnchorLink;
    var anchor :=
      if anchored then
        [E("a", [Class(ClassNames([StyleOr(ctx, "text.titleAnchor", "text-blue-500"), "ml-2 text-sm"])),
                 Attr("href", "#" + headingId.value), Attr("aria-label", "Anchor link")], [Str("#")])]
      else [];
    var idAttr := if Truthy(headingId) then [Attr("id", headingId.value)] else [];
    var classes := ClassNames([alignment.text, "font-bold scroll-mt-20 group relative",
                               TitleBaseClass(ctx, level), if data.underline then "border-b-2 pb-2 border-gray-300" else ""]);
    E("h" + NatToString(level), idAttr + [Class(classes)], [Str(data.text.value)] + anchor)
  }

  /** The title block: nothing without text; spacing falls back to `none`. */
  function RenderTitle(ext: Externals, ctx: RenderContext, data: Option<TitleData>): (r: Option<Node>)
    ensures r.Some? <==> data.Some? && Truthy(data.value.text)
  {
    if data.None? || !Truthy(data.value.text) then None
    else
      var alignment := GetAlignment(ext, data.value.alignment);
      var container := E("div", [Class(ClassNames([alignment.text]))], [TitleHeading(ext, ctx, data.value)]);
      Some(SectionWrapper(GetSpacingClass(ext, data.value.spacing, "none"), container))
  }

  // ---------------------------------------------------------------------------
  // Text

  /** The text block: one paragraph keeping the line breaks of its text; spacing falls back to `medium`. */
  function RenderText(ext: Externals, ctx: RenderContext, data: Option<TextData>): (r: Option<Node>)
    ensures r.Some? <==> data.Some? && Truthy(data.value.text)
    ensures r.Some? && GetSpacingClass(ext, data.value.spacing, "medium") == "" ==>
      r.value.Element? && r.value.tag == "p" && r.value.children == [Str(data.value.text.value)]
  {
    if data.None? || !Truthy(data.value.text) then None
    else
      var alignment := GetAlignment(ext, data.value.alignment);
      var paragraph := E("p", [Class(ClassNames([alignment.text, StyleOr(ctx, "text.general", "")])),
                               Attr("style", "white-space: pre-line;")], [Str(data.value.text.value)]);
      Some(SectionWrapper(GetSpacingClass(ext, data.value.spacing, "medium"), paragraph))
  }

  // ---------------------------------------------------------------------------
  // List

  /** The `start` attribute: only on an ordered list with a start number. */
  function ListStartAttr(data: ListData): (r: seq<Attr>)
    ensures |r| <= 1
  {
    if data.listType == Some("ol") && data.startNumber.Some? then [Attr("start", IntToString(data.startNumber.value))]
    else []
  }

  /** The `aria-label` attribute: only for a non-empty label. */
  function ListAriaAttr(data: ListData): (r: seq<Attr>)
    ensures |r| <= 1
  {
    if Truthy(data.ariaLabel) then [Attr("aria-label", data.ariaLabel.value)] else []
  }

  /** The `ol` or `ul` element of a list: one escaped `li` per item, in order. */
  function ListElement(ext: Externals, ctx: RenderContext, data: ListData, items: seq<string>): (r: Node)
    ensures r.Element? && r.tag == (if data.listType == Some("ol") then "ol" else "ul")
    ensures |r.children| == |items|
    ensures forall i :: 0 <= i < |items| ==> r.children[i] == E("li", [], [Str(items[i])])
  {
    var alignment := GetAlignment(ext, data.alignment);
    var classes := ClassNames([StyleOr(ctx, "text.list", ""), alignment.text,
                               if data.listType == Some("ol") then "list-decimal" else "list-disc",
                               if data.inside then "ml-4" else ""]);
    E(if data.listType == Some("ol") then "ol" else "ul",
      [Class(classes)] + ListStartAttr(data) + ListAriaAttr(data) + [Attr("role", "list")],
      seq(|items|, i requires 0 <= i < |items| => E("li", [], [Str(items[i])])))
  }

  /** The attributes of a list: `start` only on an ordered list with a number, `aria-label` only when given, always `role="list"`. */
  lemma ListAttributes(ext: Externals, ctx: RenderContext, data: ListData, items: seq<string>)
    ensures var attrs := ListElement(ext, ctx, data, items).attrs;
      && AttrValue(attrs, "start") ==
           (if data.listType == Some("ol") && data.startNumber.Some? then Some(IntToString(data.startNumber.value)) else None)
      && AttrValue(attrs, "aria-label") == (if Truthy(data.ariaLabel) then data.ariaLabel else None)
      && AttrValue(attrs, "role") == Some("list")
  {
    var attrs := ListElement(ext, ctx, data, items).attrs;
    var c := [attrs[0]];
    var st := ListStartAttr(data);
    var aria := ListAriaAttr(data);
    var role := [Attr("role", "list")];
    assert attrs == ((c + st) + aria) + role;
    assert attrs[0].Attr? && attrs[0].name == "class";
    AttrValueAppend(c + st + aria, role, "start");
    AttrValueAppend(c + st, aria, "start");
    AttrValueAppend(c, st, "start");
    AttrValueAppend(c + st + aria, role, "aria-label");
    AttrValueAppend(c + st, aria, "aria-label");
    AttrValueAppend(c, st, "aria-label");
    AttrValueAppend(c + st + aria, role, "role");
    AttrValueAppend(c + st, aria, "role");
    AttrValueAppend(c, st, "role");
  }

  /** The list block: nothing without items; spacing comes from the block and falls back to `medium`. */
  function RenderList(ext: Externals, ctx: RenderContext, block: Content): (r: Option<Node>)
    ensures r.Some? <==> block.listData.Some? && block.listData.value.items.GetOr([]) != []
  {
    var items := if block.listData.Some? then block.listData.value.items.GetOr([]) else [];
    if items == [] then None
    else
      Some(SectionWrapper(GetSpacingClass(ext, GetBlockSpacing(block), "medium"),
                          ListElement(ext, ctx, block.listData.value, items)))
  }

  // ---------------------------------------------------------------------------
  // Divider

  /** `pat` occurs in `s` at position `j`. */
  predicate OccursAt(s: string, pat: string, j: nat)
  {
    j + |pat| <= |s| && s[j..j + |pat|] == pat
  }

  /** The first position at or after `from` where `pat` occurs in `s`. */
  function IndexOfFrom(s: string, pat: string, from: nat): (r: Option<nat>)
    requires from <= |s|
    ensures r.Some? ==> from <= r.value && OccursAt(s, pat, r.value)
    ensures r.Some? ==> forall j :: from <= j < r.value ==> !OccursAt(s, pat, j)
    ensures r.None? ==> forall j :: from <= j ==> !OccursAt(s, pat, j)
    decreases |s| - from
  {
    if from + |pat| > |s| then None
    else if s[from..from + |pat|] == pat then Some(from)
    else IndexOfFrom(s, pat, from + 1)
  }

  /** `s.replace(pat, rep)` with a string pattern: only the first occurrence is replaced. */
  function ReplaceFirst(s: string, pat: string, rep: string): (r: string)
    ensures IndexOfFrom(s, pat, 0).None? ==> r == s
    ensures IndexOfFrom(s, pat, 0).Some? ==>
      var i := IndexOfFrom(s, pat, 0).value; i + |pat| <= |s| && r == s[..i] + rep + s[i + |pat|..]
  {
    match IndexOfFrom(s, pat, 0)
    case None => s
    case Some(i) => s[..i] + rep + s[i + |pat|..]
  }

  /** A string that starts with the pattern has it replaced at the front. */
  lemma ReplaceFirstAtStart(s: string, pat: string, rep: string)
    requires StartsWith(s, pat)
    ensures ReplaceFirst(s, pat, rep) == rep + s[|pat|..]
  {
    assert s[0..|pat|] == pat;
  }

  /** The base rule class: `w-full` and the border colour. */
  function DividerBase(ctx: RenderContext): string
  {
    ClassNames(["w-full", StyleOr(ctx, "divider.border", "border-gray-300")])
  }

  /** The rule's class by divider type; an unknown or missing type is a thin top border. */
  function DividerClass(ctx: RenderContext, dividerType: Option<string>): (r: string)
    ensures dividerType != Some("gradient") ==>
      exists extra :: extra != "" && r == ClassNames([DividerBase(ctx), extra])
  {
    var base := DividerBase(ctx);
    if dividerType == Some("dashed") then ClassNames([base, "border-t-2 border-dashed"])
    else if dividerType == Some("dotted") then ClassNames([base, "border-t-2 border-dotted"])
    else if dividerType == Some("double") then ClassNames([base, "border-t-4 border-double"])
    else if dividerType == Some("thick") then ClassNames([base, "border-t-2"])
    else if dividerType == Some("gradient") then
      ClassNames(["h-px w-full bg-gradient-to-r", StyleOr(ctx, "divider.gradient", "from-transparent via-gray-300 to-transparent")])
    else ClassNames([base, "border-t"])
  }

  /** `classNames(a, b)` of two non-empty class strings is `a b`. */
  lemma ClassNamesPair(a: string, b: string)
    requires a != "" && b != ""
    ensures ClassNames([a, b]) == a + " " + b
  {
    var xs := [a, b];
    assert xs[1..] == [b];
    assert xs[1..][1..] == [];
    assert NonEmpty(xs) == [a, b];
    JoinTwo(a, b, " ");
  }

  /** `classNames("w-full", c)` starts with `w-full` whatever `c` is. */
  lemma DividerBaseStartsWithFullWidth(ctx: RenderContext)
    ensures StartsWith(DividerBase(ctx), "w-full")
  {
    var border := StyleOr(ctx, "divider.border", "border-gray-300");
    if border == "" {
      assert ["w-full", border][1..] == [border];
      assert NonEmpty(["w-full", border]) == ["w-full"];
    } else {
      ClassNamesPair("w-full", border);
    }
  }

  /**
   * For every type but `gradient` the rule class starts with `w-full`, so the side rules of
   * a divider with text take `flex-1` in its place.
   */
  lemma DividerSideClass(ctx: RenderContext, dividerType: Option<string>)
    requires dividerType != Some("gradient")
    ensures var c := DividerClass(ctx, dividerType);
      StartsWith(c, "w-full") && ReplaceFirst(c, "w-full", "flex-1") == "flex-1" + c[6..]
  {
    var c := DividerClass(ctx, dividerType);
    var extra :| extra != "" && c == ClassNames([DividerBase(ctx), extra]);
    DividerBaseStartsWithFullWidth(ctx);
    ClassNamesPair(DividerBase(ctx), extra);
    assert c[..6] == DividerBase(ctx)[..6];
    ReplaceFirstAtStart(c, "w-full", "flex-1");
  }

  /**
   * The divider's own markup: a plain rule, or for a divider with text the text in a span
   * between two equal side rules.
   */
  function DividerMarkup(ctx: RenderContext, data: DividerData): (r: Node)
    ensures r.Element? && r.tag == "div"
    ensures Truthy(data.text) ==>
      && |r.children| == 3 && r.children[0] == r.children[2]
      && r.children[0] == E("div", [Class(ReplaceFirst(DividerClass(ctx, data.dividerType), "w-full", "flex-1"))], [])
      && r.children[1].Element? && r.children[1].tag == "span" && r.children[1].children == [Str(data.text.value)]
    ensures !Truthy(data.text) ==> r.children == [] && AttrValue(r.attrs, "class") == Some(DividerClass(ctx, data.dividerType))
  {
    var dividerClass := DividerClass(ctx, data.dividerType);
    if Truthy(data.text) then
      var side := E("div", [Class(ReplaceFirst(dividerClass, "w-full", "flex-1"))], []);
      var textClass := ClassNames(["px-4", StyleOr(ctx, "divider.text", "text-gray-500 text-sm")]);
      E("div", [Class("flex items-center")], [side, E("span", [Class(textClass)], [Str(data.text.value)]), side])
    else
      E("div", [Class(dividerClass)], [])
  }

  /** The divider block: nothing without data; spacing falls back to `medium`. */
  function RenderDivider(ext: Externals, ctx: RenderContext, data: Option<DividerData>): (r: Option<Node>)
    ensures r.Some? <==> data.Some?
    ensures r.Some? ==> r.value == SectionWrapper(GetSpacingClass(ext, data.value.spacing, "medium"), DividerMarkup(ctx, data.value))
  {
    if data.None? then None
    else Some(SectionWrapper(GetSpacingClass(ext, data.value.spacing, "medium"), DividerMarkup(ctx, data.value)))
  }

  // ---------------------------------------------------------------------------
  // Message box

  /** The padding and text size of a message box. */
  function MessageBoxSizeClass(size: Option<string>): (r: string)
    ensures size == Some("small") ==> r == "p-3 text-sm"
    ensures size == Some("large") ==> r == "p-6 text-lg"
    ensures size != Some("small") && size != Some("large") ==> r == "p-4 text-base"
  {
    if size == Some("small") then "p-3 text-sm" else if size == Some("large") then "p-6 text-lg" else "p-4 text-base"
  }

  /** The theme class of the box type (`neutral` when missing), falling back to the neutral class. */
  function MessageBoxTypeClass(ctx: RenderContext, boxType: Option<string>): (r: string)
    ensures ("messageBox." + boxType.GetOr("neutral")) !in ctx.styles ==> r == StyleOr(ctx, "messageBox.neutral", "")
  {
    Slot(ctx.styles, "messageBox." + boxType.GetOr("neutral")).GetOr(StyleOr(ctx, "messageBox.neutral", ""))
  }

  /**
   * The message-box block: nothing without text. A quote is a spacing-wrapped blockquote;
   * every other type is a boxed `div.my-4` that ignores the block's spacing.
   */
  function RenderMessageBox(ext: Externals, ctx: RenderContext, block: Content): (r: Option<Node>)
    ensures r.Some? <==> block.messageBoxData.Some? && Truthy(block.messageBoxData.value.text)
    ensures r.Some? && block.messageBoxData.value.boxType == Some("quote") ==>
      exists q :: r.value == SectionWrapper(GetSpacingClass(ext, GetBlockSpacing(block), "medium"), q)
               && q.Element? && q.tag == "blockquote" && q.children == [Str(block.messageBoxData.value.text.value)]
    ensures r.Some? && block.messageBoxData.value.boxType != Some("quote") ==>
      r.value.Element? && r.value.tag == "div" && AttrValue(r.value.attrs, "class") == Some("my-4")
  {
    var data := block.messageBoxData;
    if data.None? || !Truthy(data.value.text) then None
    else if data.value.boxType == Some("quote") then
      var q := E("blockquote", [Class(ClassNames(["pl-4 py-2", StyleOr(ctx, "messageBox.quote", "")]))], [Str(data.value.text.value)]);
      Some(SectionWrapper(GetSpacingClass(ext, GetBlockSpacing(block), "medium"), q))
    else
      var boxClass := ClassNames(["rounded-lg border flex", MessageBoxTypeClass(ctx, data.value.boxType),
                                  MessageBoxSizeClass(data.value.size)]);
      Some(E("div", [Class("my-4")], [E("div", [Class(boxClass)], [E("div", [Class("flex-1")], [Str(data.value.text.value)])])]))
  }

  // ---------------------------------------------------------------------------
  // Table

  /**
   * The theme class of a cell. The matrix corner comes first, then header cells, then the
   * first row of a vertical table and the first column of a horizontal one; every other
   * cell takes the row class.
   */
  function CellStyle(ctx: RenderContext, tableType: Option<string>, row: nat, col: nat, isHeader: bool): (r: string)
    ensures tableType == Some("matrix") && row == 0 && col == 0 ==> r == StyleOr(ctx, "table.cornerCell", "")
    ensures !(tableType == Some("matrix") && row == 0 && col == 0)
      && (isHeader || (tableType == Some("vertical") && row == 0) || (tableType == Some("horizontal") && col == 0))
      ==> r == StyleOr(ctx, "table.headers", "")
    ensures !(tableType == Some("matrix") && row == 0 && col == 0) && !isHeader
      && !(tableType == Some("vertical") && row == 0) && !(tableType == Some("horizontal") && col == 0)
      ==> r == StyleOr(ctx, "table.rows", "")
  {
    if tableType == Some("matrix") && row == 0 && col == 0 then StyleOr(ctx, "table.cornerCell", "")
    else if isHeader then StyleOr(ctx, "table.headers", "")
    else if tableType == Some("vertical") && row == 0 then StyleOr(ctx, "table.headers", "")
    else if tableType == Some("horizontal") && col == 0 then StyleOr(ctx, "table.headers", "")
    else StyleOr(ctx, "table.rows", "")
  }

  /** One cell: `th` for a header cell, else `td`; a `scope` only when given; missing content is empty. */
  function CellNode(ctx: RenderContext, tableType: Option<string>, row: nat, col: nat, cell: TableCell): (r: Node)
    ensures r.Element? && (r.tag == "th" <==> cell.isHeader) && (r.tag == "td" <==> !cell.isHeader)
    ensures r.children == [Str(cell.content.GetOr(""))]
    ensures AttrValue(r.attrs, "scope") == (if Truthy(cell.scope) then cell.scope else None)
    ensures AttrValue(r.attrs, "class") ==
      Some(ClassNames(["px-2 py-1 border-r", StyleOr(ctx, "table.border", "border-gray-200"),
                       CellStyle(ctx, tableType, row, col, cell.isHeader), "last:border-r-0"]))
  {
    var baseClass := ClassNames(["px-2 py-1 border-r", StyleOr(ctx, "table.border", "border-gray-200"),
                                 CellStyle(ctx, tableType, row, col, cell.isHeader), "last:border-r-0"]);
    E(if cell.isHeader then "th" else "td",
      [Class(baseClass)] + (if Truthy(cell.scope) then [Attr("scope", cell.scope.value)] else []),
      [Str(cell.content.GetOr(""))])
  }

  /** One `tr` per row and one cell per entry, each cell knowing its row and column. */
  function TableRows(ctx: RenderContext, tableType: Option<string>, rows: seq<seq<TableCell>>): (r: seq<Node>)
    ensures |r| == |rows|
    ensures forall i :: 0 <= i < |rows| ==>
      r[i].Element? && r[i].tag == "tr" && |r[i].children| == |rows[i]|
      && forall j :: 0 <= j < |rows[i]| ==> r[i].children[j] == CellNode(ctx, tableType, i, j, rows[i][j])
  {
    var rowClass := ClassNames(["border-b last:border-b-0", StyleOr(ctx, "table.border", "border-gray-200"),
                                StyleOr(ctx, "table.rows", "")]);
    seq(|rows|, i requires 0 <= i < |rows| =>
      E("tr", [Class(rowClass)], seq(|rows[i]|, j requires 0 <= j < |rows[i]| => CellNode(ctx, tableType, i, j, rows[i][j]))))
  }

  /** The placeholder of a table without rows. */
  function NoTableData(ctx: RenderContext): Node
  {
    E("div", [Class(ClassNames(["mb-6 p-4", StyleOr(ctx, "table.empty", "")]))], [Str("No data available")])
  }

  /** The table block never gives `null`: without rows it is the placeholder, else the table of its rows. */
  function RenderTable(ctx: RenderContext, data: Option<TableData>): (r: Node)
    ensures (data.None? || data.value.rows.None? || data.value.rows.value == []) <==> r == NoTableData(ctx)
    ensures !(data.None? || data.value.rows.None? || data.value.rows.value == []) ==>
      r.Element? && |r.children| == 1 && r.children[0].Element? && r.children[0].tag == "table"
      && r.children[0].children == [E("tbody", [], TableRows(ctx, data.value.tableType, data.value.rows.value))]
  {
    if data.None? || data.value.rows.None? || data.value.rows.value == [] then NoTableData(ctx)
    else
      var tableClass := ClassNames([StyleOr(ctx, "table.border", "border-gray-200"), "border rounded-lg min-w-full"]);
      E("div", [Class("mb-6 overflow-x-auto")],
        [E("table", [Class(tableClass), Attr("style", "border-collapse: collapse; table-layout: auto;")],
           [E("tbody", [], TableRows(ctx, data.value.tableType, data.value.rows.value))])])
  }
}
