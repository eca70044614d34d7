/**
 * The template helpers: external-path test, class-name joining, spacing and alignment
 * lookups, asset-path resolution, figure captions and where a block keeps its spacing.
 */
module Helpers {
  import opened Wrappers
  import opened Text
  import opened Html
  import opened Docs

  /** The length of the run of ASCII letters at the start of `s`. */
  function LeadingLetters(s: string): (n: nat)
    ensures n <= |s|
    ensures forall i :: 0 <= i < n ==> IsLetter(s[i])
    ensures n < |s| ==> !IsLetter(s[n])
  {
    if s != [] && IsLetter(s[0]) then 1 + LeadingLetters(s[1..]) else 0
  }

  predicate IsLetter(c: char)
  {
    ('a' <= c <= 'z') || ('A' <= c <= 'Z')
  }

  /**
   * `isExternalPath`: `//host…`, `scheme://…` with a scheme of ASCII letters (any case),
   * or a `data:` URL.
   */
  predicate IsExternalPath(v: string)
  {
    StartsWith(v, "//")
    || (LeadingLetters(v) > 0 && StartsWith(v[LeadingLetters(v)..], "://"))
    || StartsWith(v, "data:")
  }

  /**
   * `classNames(...)`: the falsy entries (`undefined`, `false`, `""`, all given here as
   * `""`) are dropped and the rest joined with single spaces.
   */
  function ClassNames(classes: seq<string>): string
  {
    Join(NonEmpty(classes), " ")
  }

  /** Joining non-empty pieces gives the empty string only for no pieces. */
  lemma {:induction false} JoinNonEmpty(pieces: seq<string>, sep: string)
    requires forall i :: 0 <= i < |pieces| ==> pieces[i] != ""
    ensures Join(pieces, sep) == "" <==> pieces == []
  {
    if |pieces| > 1 {
      assert |Join(pieces, sep)| >= |pieces[0]|;
    }
  }

  /** The class string is empty exactly when every entry is empty. */
  lemma ClassNamesEmpty(classes: seq<string>)
    ensures ClassNames(classes) == "" <==> forall i :: 0 <= i < |classes| ==> classes[i] == ""
  {
    var kept := NonEmpty(classes);
    NonEmptyMembers(classes);
    JoinNonEmpty(kept, " ");
    if kept == [] {
      forall i | 0 <= i < |classes| ensures classes[i] == "" {
        assert classes[i] in classes;
      }
    } else {
      assert kept[0] in classes;
    }
  }

  /** A single non-empty entry is the whole class string; empty entries around it change nothing. */
  lemma ClassNamesSingle(before: seq<string>, c: string, after: seq<string>)
    requires c != ""
    requires forall i :: 0 <= i < |before| ==> before[i] == ""
    requires forall i :: 0 <= i < |after| ==> after[i] == ""
    ensures ClassNames(before + [c] + after) == c
  {
    NonEmptyAllEmpty(before);
    NonEmptyAllEmpty(after);
    NonEmptyAppend(before + [c], after);
    NonEmptyAppend(before, [c]);
    assert [c][1..] == [];
  }

  lemma {:induction false} NonEmptyAllEmpty(xs: seq<string>)
    requires forall i :: 0 <= i < |xs| ==> xs[i] == ""
    ensures NonEmpty(xs) == []
  {
    if xs != [] {
      NonEmptyAllEmpty(xs[1..]);
    }
  }

  lemma {:induction false} NonEmptyAppend(xs: seq<string>, ys: seq<string>)
    ensures NonEmpty(xs + ys) == NonEmpty(xs) + NonEmpty(ys)
  {
    if xs == [] {
      assert xs + ys == ys;
    } else {
      assert (xs + ys)[0] == xs[0];
      assert (xs + ys)[1..] == xs[1..] + ys;
      NonEmptyAppend(xs[1..], ys);
    }
  }

  /** The example from the helper tests: `classNames("one", undefined, false, "two")`. */
  lemma ClassNamesExample()
    ensures ClassNames(["one", "", "", "two"]) == "one two"
  {
    var xs := ["one", "", "", "two"];
    assert xs[1..] == ["", "", "two"];
    assert xs[1..][1..] == ["", "two"];
    assert xs[1..][1..][1..] == ["two"];
    assert ["two"][1..] == [];
    assert NonEmpty(xs) == ["one", "two"];
    assert ["one", "two"][1..] == ["two"];
  }

  /**
   * `getSpacingClass(spacing, fallback)`: the `SPACING_CLASSES` entry for the spacing,
   * or for the fallback key when the spacing is undefined; `""` for an unknown key.
   */
  function GetSpacingClass(ext: Externals, spacing: Option<string>, fallback: string): (r: string)
    // an explicit but unknown spacing gives no class: the fallback serves only an undefined one
    ensures spacing.Some? && spacing.value !in ext.spacingClasses ==> r == ""
  {
    var key := spacing.GetOr(fallback);
    if key in ext.spacingClasses then ext.spacingClasses[key] else ""
  }

  /** `wrapWithSpacing`: the markup unchanged when the spacing class is empty, else inside one div. */
  function WrapWithSpacing(ext: Externals, html: Node, spacing: Option<string>, fallback: string): (r: Node)
    ensures GetSpacingClass(ext, spacing, fallback) == "" ==> r == html
    ensures GetSpacingClass(ext, spacing, fallback) != "" ==>
      r == Element("div", [RawAttr("class", GetSpacingClass(ext, spacing, fallback))], [html])
  {
    var spacingClass := GetSpacingClass(ext, spacing, fallback);
    if spacingClass == "" then html else E("div", [RawAttr("class", spacingClass)], [html])
  }

  /** `buildSectionWrapper` of the block templates: like `WrapWithSpacing`, but the class is escaped. */
  function SectionWrapper(spacingClass: string, inner: Node): (r: Node)
    ensures spacingClass == "" ==> r == inner
    ensures spacingClass != "" ==> r.Element? && r.tag == "div" && r.children == [inner]
  {
    if spacingClass == "" then inner else E("div", [Class(spacingClass)], [inner])
  }

  /** `getAlignment`: the `ALIGNMENT_CLASSES` entry, falling back to `left` for undefined or unknown keys. */
  function GetAlignment(ext: Externals, alignment: Option<string>): (r: Alignment)
    ensures alignment.Some? && alignment.value in ext.alignmentClasses.entries ==>
      r == ext.alignmentClasses.entries[alignment.value]
    ensures alignment.Some? && alignment.value !in ext.alignmentClasses.entries ==> r == ext.alignmentClasses.left
    ensures alignment.None? && "left" !in ext.alignmentClasses.entries ==> r == ext.alignmentClasses.left
    ensures alignment.None? && "left" in ext.alignmentClasses.entries ==> r == ext.alignmentClasses.entries["left"]
  {
    var key := alignment.GetOr("left");
    if key in ext.alignmentClasses.entries then ext.alignmentClasses.entries[key] else ext.alignmentClasses.left
  }

  /**
   * `resolveAssetPath(ctx, raw)`: `""` for a missing or empty path, external paths as they
   * are, else a non-empty answer of the page's resolver, else the path with a leading `/`.
   */
  function ResolveAssetPath(ctx: RenderContext, raw: Option<string>): (r: string)
    // only a missing or empty path resolves to no reference at all
    ensures r == "" <==> !Truthy(raw)
  {
    if !Truthy(raw) then ""
    else if IsExternalPath(raw.value) then raw.value
    else if ctx.resolveAssetHref.Some? && ctx.resolveAssetHref.value(raw.value) != "" then
      ctx.resolveAssetHref.value(raw.value)
    else if StartsWith(raw.value, "/") then raw.value
    else "/" + raw.value
  }

  /** A path without a colon that does not start with `//` is not external. */
  lemma NoColonNotExternal(v: string)
    requires forall i :: 0 <= i < |v| ==> v[i] != ':'
    requires !StartsWith(v, "//")
    ensures !IsExternalPath(v)
  {
    var n := LeadingLetters(v);
    if 3 <= |v| - n {
      assert v[n..][..3][0] == v[n] != ':';
    }
    if 5 <= |v| {
      assert v[..5][4] == v[4] != ':';
    }
  }

  /**
   * The case of the helper tests: without a resolver, a site-relative path (no scheme, no
   * leading slash) gains its leading slash.
   */
  lemma RelativePathGainsSlash(ctx: RenderContext, v: string)
    requires ctx.resolveAssetHref.None?
    requires v != "" && v[0] != '/'
    requires forall i :: 0 <= i < |v| ==> v[i] != ':'
    ensures ResolveAssetPath(ctx, Some(v)) == "/" + v
  {
    NoColonNotExternal(v);
  }

  /** `renderFigureCaption`: nothing for an empty caption, else one escaped `figcaption`. */
  function RenderFigureCaption(ctx: RenderContext, caption: Option<string>): (r: Node)
    ensures !Truthy(caption) ==> r == Empty
    ensures Truthy(caption) ==> r.Element? && r.tag == "figcaption" && r.children == [Str(caption.value)]
  {
    if !Truthy(caption) then Empty
    else E("figcaption", [Class(ClassNames([Slot(ctx.styles, "text.alternative").GetOr(""), "mt-2"]))], [Str(caption.value)])
  }

  /**
   * `getBlockSpacing`: text, title, divider and message-box blocks keep their spacing in
   * their data record; every other block keeps it on the block.
   */
  function GetBlockSpacing(block: Content): Option<string>
  {
    match block.blockType
    case Some(t) =>
      if t == "text" then (if block.textData.Some? then block.textData.value.spacing else None)
      else if t == "title" then (if block.titleData.Some? then block.titleData.value.spacing else None)
      else if t == "divider" then (if block.dividerData.Some? then block.dividerData.value.spacing else None)
      else if t == "messageBox" then (if block.messageBoxData.Some? then block.messageBoxData.value.spacing else None)
      else block.spacing
    case None => block.spacing
  }

  /** `slugFromTitle`: no slug for a missing or empty title. */
  function SlugFromTitle(ext: Externals, title: Option<string>): (r: Option<string>)
    ensures r.Some? <==> Truthy(title)
  {
    if Truthy(title) then Some(ext.slugify(title.value)) else None
  }
}
