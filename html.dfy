/**
 * HTML escaping (`escapeHtml`) and a small HTML tree.
 *
 * The templates build their markup as strings; the model builds the same markup as a tree
 * of elements, text and pre-rendered raw HTML, and `Serialize` turns it into a string.
 * Text children and attribute values are escaped on the way out, exactly where the
 * templates call `escapeHtml`; `Raw` and `RawAttr` hold what the templates insert unescaped.
 */
module Html {
  import opened Wrappers
  import opened Text

  // ---------------------------------------------------------------------------
  // escapeHtml

  /** `s.replace(/c/g, rep)`: every occurrence of `c` replaced by `rep`. */
  function ReplaceAll(s: string, c: char, rep: string): (r: string)
    ensures c !in rep ==> c !in r
    ensures forall d :: d in r ==> d in s || d in rep
  {
    if s == [] then [] else (if s[0] == c then rep else [s[0]]) + ReplaceAll(s[1..], c, rep)
  }

  /**
   * `escapeHtml(value)` on a string, written as in the source: a chain of replacements
   * with `&` first, so the entities introduced by the later steps are not escaped again.
   */
  function EscapeHtml(s: string): string
  {
    ReplaceAll(ReplaceAll(ReplaceAll(ReplaceAll(ReplaceAll(s, '&', "&amp;"), '<', "&lt;"), '>', "&gt;"), '"', "&quot;"), '\'', "&#39;")
  }

  /** `escapeHtml` of an optional value: `null` and `undefined` give the empty string. */
  function EscapeOpt(o: Option<string>): (r: string)
    ensures o.None? ==> r == ""
    ensures o.Some? ==> r == EscapeHtml(o.value)
  {
    match o
    case None => ""
    case Some(s) => EscapeHtml(s)
  }

  /** The entity of one character: an independent reference for the replacement chain. */
  function EscapeChar(c: char): string
  {
    if c == '&' then "&amp;"
    else if c == '<' then "&lt;"
    else if c == '>' then "&gt;"
    else if c == '"' then "&quot;"
    else if c == '\'' then "&#39;"
    else [c]
  }

  /** Escaping character by character. */
  function EscapeEach(s: string): string
  {
    if s == [] then [] else EscapeChar(s[0]) + EscapeEach(s[1..])
  }

  /** The characters `escapeHtml` removes. */
  predicate Special(c: char)
  {
    c == '&' || c == '<' || c == '>' || c == '"' || c == '\''
  }

  /** A string with none of the five special characters. */
  predicate Safe(s: string)
  {
    forall i :: 0 <= i < |s| ==> !Special(s[i])
  }

  lemma {:induction false} ReplaceAllAppend(a: string, b: string, c: char, rep: string)
    ensures ReplaceAll(a + b, c, rep) == ReplaceAll(a, c, rep) + ReplaceAll(b, c, rep)
  {
    if a != [] {
      assert (a + b)[0] == a[0];
      assert (a + b)[1..] == a[1..] + b;
      ReplaceAllAppend(a[1..], b, c, rep);
    } else {
      assert a + b == b;
    }
  }

  /** The replacement chain, applied to the string `t`. */
  function Chain(t: string): string
  {
    ReplaceAll(ReplaceAll(ReplaceAll(ReplaceAll(ReplaceAll(t, '&', "&amp;"), '<', "&lt;"), '>', "&gt;"), '"', "&quot;"), '\'', "&#39;")
  }

  lemma ChainAppend(a: string, b: string)
    ensures Chain(a + b) == Chain(a) + Chain(b)
  {
    ReplaceAllAppend(a, b, '&', "&amp;");
    var a1, b1 := ReplaceAll(a, '&', "&amp;"), ReplaceAll(b, '&', "&amp;");
    ReplaceAllAppend(a1, b1, '<', "&lt;");
    var a2, b2 := ReplaceAll(a1, '<', "&lt;"), ReplaceAll(b1, '<', "&lt;");
    ReplaceAllAppend(a2, b2, '>', "&gt;");
    var a3, b3 := ReplaceAll(a2, '>', "&gt;"), ReplaceAll(b2, '>', "&gt;");
    ReplaceAllAppend(a3, b3, '"', "&quot;");
    var a4, b4 := ReplaceAll(a3, '"', "&quot;"), ReplaceAll(b3, '"', "&quot;");
    ReplaceAllAppend(a4, b4, '\'', "&#39;");
  }

  /** A replacement leaves alone a string without its character. */
  lemma {:induction false} ReplaceAllAbsent(s: string, c: char, rep: string)
    requires c !in s
    ensures ReplaceAll(s, c, rep) == s
  {
    if s != [] {
      ReplaceAllAbsent(s[1..], c, rep);
    }
  }

  /** A replacement on a one-character string. */
  lemma ReplaceOne(c: char, x: char, rep: string)
    ensures ReplaceAll([c], x, rep) == if c == x then rep else [c]
  {
    assert [c][1..] == [];
    assert ReplaceAll([c], x, rep) == (if c == x then rep else [c]) + ReplaceAll([], x, rep);
  }

  /** After the `&` step, a character's text is either itself or its entity, and the later steps keep entities. */
  lemma ChainStep(t: string, c: char, x: char, rep: string)
    requires t == [c] || (t == EscapeChar(c) && Special(c) && x !in t)
    ensures ReplaceAll(t, x, rep) == if t == [c] && c == x then rep else t
  {
    if t == [c] {
      ReplaceOne(c, x, rep);
    } else {
      ReplaceAllAbsent(t, x, rep);
    }
  }

  /** On one character the chain produces exactly that character's entity. */
  lemma ChainChar(c: char)
    ensures Chain([c]) == EscapeChar(c)
  {
    ReplaceOne(c, '&', "&amp;");
    var t1 := ReplaceAll([c], '&', "&amp;");
    assert '<' !in "&amp;" && '>' !in "&amp;" && '"' !in "&amp;" && '\'' !in "&amp;";
    assert '>' !in "&lt;" && '"' !in "&lt;" && '\'' !in "&lt;";
    assert '"' !in "&gt;" && '\'' !in "&gt;";
    assert '\'' !in "&quot;";
    ChainStep(t1, c, '<', "&lt;");
    var t2 := ReplaceAll(t1, '<', "&lt;");
    ChainStep(t2, c, '>', "&gt;");
    var t3 := ReplaceAll(t2, '>', "&gt;");
    ChainStep(t3, c, '"', "&quot;");
    var t4 := ReplaceAll(t3, '"', "&quot;");
    ChainStep(t4, c, '\'', "&#39;");
  }

  /** The replacement chain is the same as escaping each character on its own. */
  lemma {:induction false} EscapeHtmlPerChar(s: string)
    ensures EscapeHtml(s) == EscapeEach(s)
  {
    if s != [] {
      assert s == [s[0]] + s[1..];
      ChainAppend([s[0]], s[1..]);
      ChainChar(s[0]);
      EscapeHtmlPerChar(s[1..]);
    }
  }

  /** Per-character escaping leaves no raw `<`, `>`, `"` or `'`. */
  lemma {:induction false} EscapeEachClean(s: string)
    ensures '<' !in EscapeEach(s) && '>' !in EscapeEach(s)
    ensures '"' !in EscapeEach(s) && '\'' !in EscapeEach(s)
  {
    if s != [] {
      EscapeEachClean(s[1..]);
    }
  }

  /** The output of `escapeHtml` has no raw `<`, `>`, `"` or `'`. */
  lemma EscapeHtmlClean(s: string)
    ensures var r := EscapeHtml(s); '<' !in r && '>' !in r && '"' !in r && '\'' !in r
  {
    EscapeHtmlPerChar(s);
    EscapeEachClean(s);
  }

  /** `escapeHtml` is the identity on strings without special characters. */
  lemma {:induction false} EscapeHtmlSafe(s: string)
    requires Safe(s)
    ensures EscapeHtml(s) == s
  {
    EscapeHtmlPerChar(s);
    EscapeEachSafe(s);
  }

  lemma {:induction false} EscapeEachSafe(s: string)
    requires Safe(s)
    ensures EscapeEach(s) == s
  {
    if s != [] {
      EscapeEachSafe(s[1..]);
      assert s == [s[0]] + s[1..];
    }
  }

  // ---------------------------------------------------------------------------
  // The tree

  datatype Attr =
    | Attr(name: string, value: string)      // name="escaped value"
    | RawAttr(name: string, value: string)   // name="value", inserted without escaping
    | Flag(name: string)                     // a boolean attribute such as `checked`

  datatype Node =
    | Element(tag: string, attrs: seq<Attr>, children: seq<Node>)
    | Str(text: string)                      // text, escaped on output
    | Raw(html: string)                      // markup produced elsewhere, inserted as it is
    | Fragment(nodes: seq<Node>)             // consecutive markup with no wrapper

  /** The empty markup `""`. */
  const Empty: Node := Fragment([])

  /** Elements written without a closing tag. */
  predicate IsVoid(tag: string)
  {
    tag == "img" || tag == "input" || tag == "source" || tag == "link" || tag == "meta"
  }

  function SerializeAttr(a: Attr): string
  {
    match a
    case Attr(n, v) => " " + n + "=\"" + EscapeHtml(v) + "\""
    case RawAttr(n, v) => " " + n + "=\"" + v + "\""
    case Flag(n) => " " + n
  }

  function SerializeAttrs(attrs: seq<Attr>): string
  {
    if attrs == [] then "" else SerializeAttr(attrs[0]) + SerializeAttrs(attrs[1..])
  }

  /** The markup of a node. */
  function Serialize(n: Node): string
    decreases n, 1
  {
    match n
    case Element(tag, attrs, children) =>
      if IsVoid(tag) then "<" + tag + SerializeAttrs(attrs) + " />"
      else "<" + tag + SerializeAttrs(attrs) + ">" + SerializeAll(children) + "</" + tag + ">"
    case Str(s) => EscapeHtml(s)
    case Raw(h) => h
    case Fragment(ns) => SerializeAll(ns)
  }

  function SerializeAll(ns: seq<Node>): string
    decreases ns, 0
  {
    if ns == [] then "" else Serialize(ns[0]) + SerializeAll(ns[1..])
  }

  /** Text never injects markup: its output has no raw `<` or `>`. */
  lemma TextIsInert(s: string)
    ensures '<' !in Serialize(Str(s)) && '>' !in Serialize(Str(s))
  {
    EscapeHtmlClean(s);
  }

  // Small constructors used by the templates.

  function E(tag: string, attrs: seq<Attr>, children: seq<Node>): Node
  {
    Element(tag, attrs, children)
  }

  function Class(value: string): Attr
  {
    Attr("class", value)
  }

  /** The value of the first attribute named `name`, if any. */
  function AttrValue(attrs: seq<Attr>, name: string): Option<string>
  {
    if attrs == [] then None
    else match attrs[0]
      case Attr(n, v) => if n == name then Some(v) else AttrValue(attrs[1..], name)
      case RawAttr(n, v) => if n == name then Some(v) else AttrValue(attrs[1..], name)
      case Flag(n) => if n == name then Some("") else AttrValue(attrs[1..], name)
  }

  /** Looking an attribute up in two lists: the first list wins. */
  lemma {:induction false} AttrValueAppend(a: seq<Attr>, b: seq<Attr>, name: string)
    ensures AttrValue(a + b, name) == if AttrValue(a, name).Some? then AttrValue(a, name) else AttrValue(b, name)
  {
    if a == [] {
      assert a + b == b;
    } else {
      assert (a + b)[0] == a[0];
      assert (a + b)[1..] == a[1..] + b;
      AttrValueAppend(a[1..], b, name);
    }
  }

  /** No attribute of the list has the name: the lookup finds nothing. */
  lemma {:induction false} AttrValueAbsent(attrs: seq<Attr>, name: string)
    requires forall i :: 0 <= i < |attrs| ==> attrs[i].name != name
    ensures AttrValue(attrs, name) == None
  {
    if attrs != [] {
      AttrValueAbsent(attrs[1..], name);
    }
  }

  /** The lookup finds the first attribute of the name. */
  lemma {:induction false} AttrValueFirst(attrs: seq<Attr>, i: nat, name: string, value: string)
    requires i < |attrs| && attrs[i] == Attr(name, value)
    requires forall j :: 0 <= j < i ==> attrs[j].name != name
    ensures AttrValue(attrs, name) == Some(value)
  {
    if i > 0 {
      AttrValueFirst(attrs[1..], i - 1, name, value);
    }
  }

  predicate HasAttr(attrs: seq<Attr>, name: string)
  {
    AttrValue(attrs, name).Some?
  }
}
